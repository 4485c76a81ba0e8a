/**
  `LegalRAG`, the keyword retriever: five keyword groups tested in a fixed order
  against the lower-cased query, each contributing its entries of the seeded base,
  the list cut to five, and the numbered information block sent with the prompt.
 */
module KeywordRag {
  import opened Wrappers
  import opened Text
  import opened Generation
  import Semilla

  /** One retrieved entry: `{"tipo", "contenido", "fuente"}`. */
  datatype Documento = Documento(tipo: string, contenido: string, fuente: string)

  const ClaveContrato := "contrato realidad"

  /** The keyword lists, in the order they are tested. */
  const PalabrasContrato: seq<string> := [ClaveContrato, "relación laboral", "subordinación"]
  const PalabrasJurisprudencia: seq<string> := ["jurisprudencia", "sentencia", "corte"]
  const PalabrasNormativa: seq<string> := ["norma", "artículo", "código", "ley"]
  const PalabrasPrincipios: seq<string> := ["principio", "derecho", "protección"]
  const PalabrasRequisitos: seq<string> := ["demanda", "requisito", "proceso"]

  /** The cap on retrieved entries. */
  const Limite := 5

  /** Python's `any(keyword in q for keyword in palabras)`. */
  predicate Activa(q: string, palabras: seq<string>)
  {
    exists i :: 0 <= i < |palabras| && Contains(q, palabras[i])
  }

  /** One entry per item, in order: `{"tipo": tipo, "contenido": prefijo + item, "fuente": fuente}`. */
  function Etiquetar(prefijo: string, items: seq<string>, tipo: string, fuente: string): (r: seq<Documento>)
    ensures |r| == |items|
    ensures forall i :: 0 <= i < |items| ==> r[i] == Documento(tipo, prefijo + items[i], fuente)
  {
    if items == [] then []
    else Etiquetar(prefijo, items[..|items| - 1], tipo, fuente) + [Documento(tipo, prefijo + items[|items| - 1], fuente)]
  }

  const DocConcepto := Documento("concepto", Semilla.Concepto, "Doctrina legal")

  /** What each group contributes when it fires. */
  const AporteContrato: seq<Documento> :=
    [DocConcepto] + Etiquetar("Elemento: ", Semilla.Elementos, "elemento", "Código Sustantivo del Trabajo")
  const AporteJurisprudencia: seq<Documento> :=
    Etiquetar("Jurisprudencia: ", Semilla.Jurisprudencia, "jurisprudencia", "Corte Constitucional")
  const AporteNormativa: seq<Documento> :=
    Etiquetar("Normativa: ", Semilla.Normativa, "normativa", "Código Sustantivo del Trabajo")
  const AportePrincipios: seq<Documento> :=
    Etiquetar("Principio: ", Semilla.Principios, "principio", "Derecho Laboral Colombiano")
  const AporteRequisitos: seq<Documento> :=
    Etiquetar("Requisito: ", Semilla.Requisitos, "requisito", "Código de Procedimiento Laboral")

  function SiActiva(q: string, palabras: seq<string>, aporte: seq<Documento>): seq<Documento>
  {
    if Activa(q, palabras) then aporte else []
  }

  /** Every entry the groups contribute for the lower-cased query `q`, before the cap. */
  function Candidatos(q: string): seq<Documento>
  {
    SiActiva(q, PalabrasContrato, AporteContrato)
    + SiActiva(q, PalabrasJurisprudencia, AporteJurisprudencia)
    + SiActiva(q, PalabrasNormativa, AporteNormativa)
    + SiActiva(q, PalabrasPrincipios, AportePrincipios)
    + SiActiva(q, PalabrasRequisitos, AporteRequisitos)
  }

  /** `retrieve_relevant_info(query, context)`: the first five candidates of the lower-cased query. */
  function Recuperados(query: string): (r: seq<Documento>)
    ensures |r| <= Limite && |r| <= |Candidatos(Lower(query))|
    ensures r == Candidatos(Lower(query))[..|r|]
    ensures |r| < Limite ==> r == Candidatos(Lower(query))
  {
    var c := Candidatos(Lower(query));
    if |c| <= Limite then c else c[..Limite]
  }

  /** Appends one entry per item to `docs`, as the per-group `for` loops do. */
  method AgregarEtiquetados(docs: seq<Documento>, prefijo: string, items: seq<string>, tipo: string, fuente: string)
    returns (r: seq<Documento>)
    ensures r == docs + Etiquetar(prefijo, items, tipo, fuente)
  {
    r := docs;
    for i := 0 to |items|
      invariant r == docs + Etiquetar(prefijo, items[..i], tipo, fuente)
    {
      assert items[..i + 1][..i] == items[..i];
      r := r + [Documento(tipo, prefijo + items[i], fuente)];
    }
    assert items[..|items|] == items;
  }

  /** One keyword group of `retrieve_relevant_info`: its entries are appended when one of its keywords occurs. */
  method AgregarSiActiva(docs: seq<Documento>, q: string, palabras: seq<string>,
                         prefijo: string, items: seq<string>, tipo: string, fuente: string)
    returns (r: seq<Documento>)
    ensures r == docs + SiActiva(q, palabras, Etiquetar(prefijo, items, tipo, fuente))
  {
    r := docs;
    if Activa(q, palabras) {
      r := AgregarEtiquetados(docs, prefijo, items, tipo, fuente);
    } else {
      assert docs + [] == docs;
    }
  }

  /** `LegalRAG.retrieve_relevant_info`: `context` is accepted and never read. */
  method RetrieveRelevantInfo(query: string, context: string) returns (docs: seq<Documento>)
    ensures docs == Recuperados(query)
  {
    var q := Lower(query);
    docs := [];
    if Activa(q, PalabrasContrato) {
      docs := AgregarEtiquetados([DocConcepto], "Elemento: ", Semilla.Elementos, "elemento", "Código Sustantivo del Trabajo");
    }
    var a := docs;
    docs := AgregarSiActiva(docs, q, PalabrasJurisprudencia, "Jurisprudencia: ", Semilla.Jurisprudencia, "jurisprudencia", "Corte Constitucional");
    var b := docs;
    docs := AgregarSiActiva(docs, q, PalabrasNormativa, "Normativa: ", Semilla.Normativa, "normativa", "Código Sustantivo del Trabajo");
    var c := docs;
    docs := AgregarSiActiva(docs, q, PalabrasPrincipios, "Principio: ", Semilla.Principios, "principio", "Derecho Laboral Colombiano");
    var d := docs;
    docs := AgregarSiActiva(docs, q, PalabrasRequisitos, "Requisito: ", Semilla.Requisitos, "requisito", "Código de Procedimiento Laboral");
    CandidatosPorGrupos(q, a, b, c, d, docs);
    if |docs| > Limite {
      docs := docs[..Limite];
    }
  }

  /** The group-by-group appends build exactly the candidates. */
  lemma CandidatosPorGrupos(q: string, a: seq<Documento>, b: seq<Documento>, c: seq<Documento>, d: seq<Documento>, e: seq<Documento>)
    requires a == SiActiva(q, PalabrasContrato, AporteContrato)
    requires b == a + SiActiva(q, PalabrasJurisprudencia, AporteJurisprudencia)
    requires c == b + SiActiva(q, PalabrasNormativa, AporteNormativa)
    requires d == c + SiActiva(q, PalabrasPrincipios, AportePrincipios)
    requires e == d + SiActiva(q, PalabrasRequisitos, AporteRequisitos)
    ensures e == Candidatos(q)
  {
  }

  /** How a retrieved entry is cited in the information block. */
  function Citas(docs: seq<Documento>): (cs: seq<Cita>)
    ensures |cs| == |docs|
    ensures forall i :: 0 <= i < |docs| ==> cs[i] == Cita(docs[i].contenido, docs[i].fuente)
  {
    seq(|docs|, i requires 0 <= i < |docs| => Cita(docs[i].contenido, docs[i].fuente))
  }

  /** The request `generate_rag_response` sends. */
  function PeticionRag(query: string, context: string, adicional: string): Peticion
  {
    ConsultaRag(false, query, context, BloqueInformacion(Citas(Recuperados(query))), adicional)
  }

  /** `generate_rag_response`: the stripped answer, or the fixed error text when the call raised. */
  function Respuesta(query: string, context: string, adicional: string, llm: Peticion -> Option<string>): string
  {
    RespuestaRag(llm(PeticionRag(query, context, adicional)))
  }

  /** `LegalRAG.generate_rag_response`. */
  method GenerateRagResponse(query: string, context: string, adicional: string, llm: Peticion -> Option<string>)
    returns (r: string)
    ensures r == Respuesta(query, context, adicional, llm)
    ensures r == ErrorConsulta || r == Strip(llm(PeticionRag(query, context, adicional)).value)
  {
    var docs := RetrieveRelevantInfo(query, context);
    var bloque := ConstruirBloqueInformacion(Citas(docs));
    var reply := llm(ConsultaRag(false, query, context, bloque, adicional));
    r := RespuestaRag(reply);
  }

  // ---------------------------------------------------------------------------
  // The three wrappers

  const ConsultaResumen := "Genera un resumen técnico jurídico de estos hechos para evaluar " + ClaveContrato
  const ConsultaViabilidad := "Evalúa la viabilidad jurídica de una demanda por " + ClaveContrato

  function ConsultaSeccion(seccion: string): string
  {
    "Redacta la sección '" + seccion + "' de una demanda laboral por " + ClaveContrato
  }

  /** The context `generar_seccion_con_rag` passes; the facts are not part of it. */
  function ContextoSeccion(resumen: string, concepto: string): string
  {
    "Resumen: " + resumen + "\nConcepto: " + concepto
  }

  /** `generar_resumen_con_rag(hechos)`. */
  method GenerarResumenConRag(hechos: string, llm: Peticion -> Option<string>) returns (r: string)
    ensures r == Respuesta(ConsultaResumen, hechos, "", llm)
  {
    r := GenerateRagResponse(ConsultaResumen, hechos, "", llm);
  }

  /** `evaluar_viabilidad_con_rag(hechos)`. */
  method EvaluarViabilidadConRag(hechos: string, llm: Peticion -> Option<string>) returns (r: string)
    ensures r == Respuesta(ConsultaViabilidad, hechos, "", llm)
  {
    r := GenerateRagResponse(ConsultaViabilidad, hechos, "", llm);
  }

  /** `generar_seccion_con_rag(seccion, hechos, resumen, concepto, comentario)`; `hechos` is not used. */
  method GenerarSeccionConRag(seccion: string, resumen: string, concepto: string, comentario: string,
                              llm: Peticion -> Option<string>) returns (r: string)
    ensures r == Respuesta(ConsultaSeccion(seccion), ContextoSeccion(resumen, concepto), comentario, llm)
  {
    r := GenerateRagResponse(ConsultaSeccion(seccion), ContextoSeccion(resumen, concepto), comentario, llm);
  }

  // ---------------------------------------------------------------------------
  // Properties

  /** The concept followed by the first four elements: what a first-group hit retrieves. */
  const PrimerosCinco: seq<Documento> :=
    [DocConcepto] + Etiquetar("Elemento: ", Semilla.Elementos[..4], "elemento", "Código Sustantivo del Trabajo")

  /** The first group alone yields six entries, so when it fires the cap leaves exactly the concept and four elements. */
  lemma PrimerGrupo(query: string)
    requires Activa(Lower(query), PalabrasContrato)
    ensures Recuperados(query) == PrimerosCinco
  {
    var q := Lower(query);
    assert |AporteContrato| == 6;
    var c := Candidatos(q);
    assert c == AporteContrato + c[6..];
    assert c[..5] == AporteContrato[..5];
    assert AporteContrato[..5] == PrimerosCinco;
  }

  /** No keyword of any group in the lower-cased query: nothing is retrieved, and conversely. */
  lemma NadaSinPalabras(query: string)
    ensures Recuperados(query) == [] <==>
      (!Activa(Lower(query), PalabrasContrato) && !Activa(Lower(query), PalabrasJurisprudencia)
       && !Activa(Lower(query), PalabrasNormativa) && !Activa(Lower(query), PalabrasPrincipios)
       && !Activa(Lower(query), PalabrasRequisitos))
  {
    assert |AporteContrato| > 0 && |AporteJurisprudencia| > 0 && |AporteNormativa| > 0;
    assert |AportePrincipios| > 0 && |AporteRequisitos| > 0;
  }

  /** Retrieval depends on the query only through its lower-cased form. */
  lemma SoloMinusculas(a: string, b: string)
    requires Lower(a) == Lower(b)
    ensures Recuperados(a) == Recuperados(b)
  {
  }

  /** `lower()` leaves the first-group key unchanged. */
  lemma ClaveEnMinusculas()
    ensures Lower(ClaveContrato) == ClaveContrato
  {
  }

  /** Any text ending in the first-group key fires the first group once lower-cased. */
  lemma TerminaEnClave(prefijo: string)
    ensures Activa(Lower(prefijo + ClaveContrato), PalabrasContrato)
  {
    LowerAppend(prefijo, ClaveContrato);
    ClaveEnMinusculas();
    var q := Lower(prefijo) + ClaveContrato;
    assert q == Lower(prefijo) + ClaveContrato + "";
    OccursInMiddle(Lower(prefijo), ClaveContrato, "");
    ContainsAt(q, ClaveContrato, |Lower(prefijo)|);
    assert PalabrasContrato[0] == ClaveContrato;
  }

  /** Every wrapper's query names "contrato realidad", so all three retrieve the same five entries. */
  lemma ConsultasFijas(seccion: string)
    ensures Recuperados(ConsultaResumen) == PrimerosCinco
    ensures Recuperados(ConsultaViabilidad) == PrimerosCinco
    ensures Recuperados(ConsultaSeccion(seccion)) == PrimerosCinco
  {
    TerminaEnClave("Genera un resumen técnico jurídico de estos hechos para evaluar ");
    PrimerGrupo(ConsultaResumen);
    TerminaEnClave("Evalúa la viabilidad jurídica de una demanda por ");
    PrimerGrupo(ConsultaViabilidad);
    TerminaEnClave("Redacta la sección '" + seccion + "' de una demanda laboral por ");
    PrimerGrupo(ConsultaSeccion(seccion));
  }
}
