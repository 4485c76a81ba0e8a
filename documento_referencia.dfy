/**
  Drafting a section of the claim from a reference document: the twelve standard
  sections with their guidance, the choice of the reference context a section
  prompt carries, the extraction of per-section patterns by the language model
  (with the cleaning of a Markdown-fenced JSON reply), loading saved patterns, and
  the length thresholds applied to an uploaded reference document.

  JSON parsing is the function `parse` (`None` when the text is not valid JSON);
  reading files is represented by what the read produced.
 */
module Referencia {
  import opened Wrappers
  import opened Text
  import opened OrderedMap
  import opened Generation

  // ---------------------------------------------------------------------------
  // The standard sections

  /** `{"descripcion", "contenido_tipico"}` of a standard section. */
  datatype Guia = Guia(descripcion: string, contenidoTipico: string)

  /** `SECCIONES_ESTANDAR`, in declaration order. */
  const SeccionesEstandar: Dict<Guia> := [
    ("I. Hechos", Guia(
      "Narración detallada y cronológica de los hechos que dan origen a la demanda",
      "Debe incluir: fechas, lugares, personas involucradas, acciones realizadas, documentos relevantes")),
    ("II. Peticiones", Guia(
      "Solicitudes específicas que se hacen al juez",
      "Debe incluir: peticiones principales y subsidiarias, de forma clara y numerada")),
    ("III. Petición Final", Guia(
      "Resumen final de lo que se solicita al tribunal",
      "Debe incluir: síntesis de todas las peticiones, forma de notificación")),
    ("IV. Fundamentos de derecho", Guia(
      "Bases legales que sustentan las peticiones",
      "Debe incluir: artículos de ley, principios jurídicos aplicables, argumentación legal")),
    ("V. Normatividad y jurisprudencia aplicable al caso", Guia(
      "Leyes, decretos, sentencias y jurisprudencia relevante",
      "Debe incluir: citas específicas de normas, sentencias de cortes, precedentes")),
    ("VI. Relación de medios probatorios", Guia(
      "Lista de pruebas que se aportan al proceso",
      "Debe incluir: documentos, testigos, peritos, inspecciones, etc.")),
    ("VII. Cuantía", Guia(
      "Valor económico de las pretensiones",
      "Debe incluir: cálculo detallado de montos, conceptos, intereses")),
    ("VIII. Propuesta de fórmula de conciliación", Guia(
      "Propuesta para resolver el conflicto mediante conciliación",
      "Debe incluir: términos de la propuesta, condiciones, plazos")),
    ("IX. Competencia", Guia(
      "Justificación de la competencia del juez o tribunal",
      "Debe incluir: fundamento legal de la competencia, territorio, materia")),
    ("X. Manifestación", Guia(
      "Declaraciones adicionales del demandante",
      "Debe incluir: reservas, aclaraciones, manifestaciones especiales")),
    ("XI. Anexos", Guia(
      "Lista de documentos que acompañan la demanda",
      "Debe incluir: numeración y descripción de cada anexo")),
    ("XII. Notificaciones", Guia(
      "Datos para notificaciones procesales",
      "Debe incluir: dirección, correo electrónico, teléfono, forma de notificación preferida"))
  ]

  // ---------------------------------------------------------------------------
  // The reference context of a section prompt

  /** The pattern extracted for one section; each field is `None` when its key is absent. */
  datatype Patron = Patron(
    estructura: Option<string>,
    estilo: Option<string>,
    elementos: Option<seq<string>>,
    formulasLegales: Option<seq<string>>,
    ejemploExtracto: Option<string>)

  /** The extracted patterns, keyed by section title. */
  type Patrones = Dict<Patron>

  /** Which context a section prompt carries. */
  datatype Contexto = DePatron(patron: Patron) | DeGuia(guia: Guia) | SinContexto

  /**
    The section's own pattern when the patterns hold it; otherwise the standard
    guidance when the title is a standard section; otherwise nothing.
   */
  function ElegirContexto(seccion: string, patrones: Patrones, guias: Dict<Guia>): (c: Contexto)
    ensures c.DePatron? <==> seccion in Claves(patrones)
    ensures c.DeGuia? <==> seccion !in Claves(patrones) && seccion in Claves(guias)
    ensures c.DePatron? ==> Some(c.patron) == Obtener(patrones, seccion)
    ensures c.DeGuia? ==> Some(c.guia) == Obtener(guias, seccion)
  {
    match Obtener(patrones, seccion)
    case Some(p) => DePatron(p)
    case None =>
      match Obtener(guias, seccion)
      case Some(g) => DeGuia(g)
      case None => SinContexto
  }

  const EncabezadoPatron := "\nPATRÓN DE REFERENCIA PARA ESTA SECCIÓN:\n"
  const EncabezadoGuia := "\nGUÍA PARA ESTA SECCIÓN:\n"

  /** The pattern block, each absent field replaced by its default. */
  function LineasPatron(p: Patron): seq<string>
  {
    [ "- Estructura: " + p.estructura.GetOr("No especificada") + "\n",
      "- Estilo: " + p.estilo.GetOr("No especificado") + "\n",
      "- Elementos típicos: " + Join(", ", p.elementos.GetOr([])) + "\n",
      "- Fórmulas legales: " + Join(", ", p.formulasLegales.GetOr([])) + "\n",
      "- Ejemplo: " + p.ejemploExtracto.GetOr("No disponible") + "\n" ]
  }

  function Concatenar(xs: seq<string>): string
  {
    if xs == [] then "" else xs[0] + Concatenar(xs[1..])
  }

  /** `contexto_referencia` as the prompt carries it. */
  function TextoContexto(c: Contexto): string
  {
    match c
    case DePatron(p) => EncabezadoPatron + Concatenar(LineasPatron(p))
    case DeGuia(g) =>
      EncabezadoGuia + "- Descripción: " + g.descripcion + "\n" + "- Contenido típico: " + g.contenidoTipico + "\n"
    case SinContexto => ""
  }

  /** Each of the pattern's five lines, with its default when absent, appears in its block. */
  lemma LineasEnContexto(p: Patron, k: nat)
    requires k < 5
    ensures Contains(TextoContexto(DePatron(p)), LineasPatron(p)[k])
  {
    EnConcatenacion(EncabezadoPatron, LineasPatron(p), k);
  }

  lemma EnConcatenacion(pre: string, xs: seq<string>, k: nat)
    requires k < |xs|
    ensures Contains(pre + Concatenar(xs), xs[k])
  {
    var antes := pre + Concatenar(xs[..k]);
    var despues := Concatenar(xs[k + 1..]);
    ConcatenarPartes(xs, k);
    assert pre + Concatenar(xs) == antes + xs[k] + despues;
    OccursInMiddle(antes, xs[k], despues);
    ContainsAt(antes + xs[k] + despues, xs[k], |antes|);
  }

  lemma {:induction false} ConcatenarPartes(xs: seq<string>, k: nat)
    requires k < |xs|
    ensures Concatenar(xs) == Concatenar(xs[..k]) + xs[k] + Concatenar(xs[k + 1..])
  {
    if k == 0 {
      assert xs[..0] == [];
      assert xs[1..] == xs[k + 1..];
    } else {
      ConcatenarPartes(xs[1..], k - 1);
      assert xs[1..][..k - 1] == xs[1..k];
      assert xs[1..][k - 1 + 1..] == xs[k + 1..];
      assert xs[..k] == [xs[0]] + xs[1..k];
      assert Concatenar(xs[..k]) == xs[0] + Concatenar(xs[1..k]) by {
        assert xs[..k][1..] == xs[1..k];
      }
    }
  }

  /** The context is empty exactly when the title has neither a pattern nor standard guidance. */
  lemma ContextoVacio(seccion: string, patrones: Patrones, guias: Dict<Guia>)
    ensures TextoContexto(ElegirContexto(seccion, patrones, guias)) == ""
            <==> seccion !in Claves(patrones) && seccion !in Claves(guias)
  {
    var c := ElegirContexto(seccion, patrones, guias);
    if c.DePatron? {
      assert TextoContexto(c)[0] == '\n';
    } else if c.DeGuia? {
      assert TextoContexto(c)[0] == '\n';
    }
  }

  /** The request `generar_seccion_con_referencia` sends. */
  function PeticionReferencia(seccion: string, hechos: string, resumen: string, concepto: string,
                              patrones: Patrones, comentario: string): Peticion
  {
    SeccionConReferencia(seccion, hechos, resumen, concepto,
                         TextoContexto(ElegirContexto(seccion, patrones, SeccionesEstandar)),
                         BloqueComentario(comentario))
  }

  /** `generar_seccion_con_referencia(...)`: the stripped reply; `None` when the call raises. */
  function GenerarSeccionConReferencia(seccion: string, hechos: string, resumen: string, concepto: string,
                                       patrones: Patrones, comentario: string,
                                       llm: Peticion -> Option<string>): (r: Option<string>)
    ensures r.None? <==> llm(PeticionReferencia(seccion, hechos, resumen, concepto, patrones, comentario)).None?
    ensures r.Some? ==> Strip(r.value) == r.value
  {
    StripIdempotent(llm(PeticionReferencia(seccion, hechos, resumen, concepto, patrones, comentario)).GetOr(""));
    RespuestaDirecta(llm(PeticionReferencia(seccion, hechos, resumen, concepto, patrones, comentario)))
  }

  /**
    A section's own pattern takes precedence over the standard guidance, and the
    comment block is in the request exactly when a comment was given.
   */
  lemma PatronPrevalece(seccion: string, hechos: string, resumen: string, concepto: string,
                        patrones: Patrones, comentario: string)
    ensures var q := PeticionReferencia(seccion, hechos, resumen, concepto, patrones, comentario);
      && (seccion in Claves(patrones) ==>
            StartsWith(q.contextoReferencia, EncabezadoPatron)
            && Contains(q.contextoReferencia, LineasPatron(Obtener(patrones, seccion).value)[0]))
      && (q.comentarios == "" <==> comentario == "")
  {
    var q := PeticionReferencia(seccion, hechos, resumen, concepto, patrones, comentario);
    if seccion in Claves(patrones) {
      var p := Obtener(patrones, seccion).value;
      LineasEnContexto(p, 0);
      assert q.contextoReferencia == EncabezadoPatron + Concatenar(LineasPatron(p));
    }
  }

  // ---------------------------------------------------------------------------
  // Cleaning a fenced JSON reply

  const FenceJson := "```json"
  const Fence := "```"

  /**
    The reply once cleaned in `extraer_patrones_documento`: a "```json" prefix is
    removed, then, independently, a "```" prefix, then a "```" suffix, then the
    surrounding whitespace.
   */
  function SinFenceIf(contenido: string): string
  {
    Strip(SinSufijo(SinPrefijo(SinPrefijo(contenido, FenceJson), Fence), Fence))
  }

  /** The cleaning, as the function reassigns `contenido` step by step. */
  method LimpiarFence(contenido: string) returns (r: string)
    ensures r == SinFenceIf(contenido)
  {
    r := contenido;
    r := SinPrefijo(r, FenceJson);
    r := SinPrefijo(r, Fence);
    r := SinSufijo(r, Fence);
    r := Strip(r);
  }

  /** The text of a JSON object: braces at both ends. */
  predicate ObjetoJson(j: string)
  {
    |j| >= 2 && j[0] == '{' && j[|j| - 1] == '}'
  }

  /** A JSON object between whitespace does not start with a backtick or a "j", and strips to itself. */
  lemma Enmarcado(j: string, sep: string)
    requires ObjetoJson(j) && AllSpace(sep)
    ensures var t := sep + j + sep; t != [] && t[0] != '`' && t[0] != 'j' && Strip(t) == j
  {
    PrimerCaracter(j, sep);
    assert !IsSpace(j[0]) && !IsSpace(j[|j| - 1]);
    StripFrame(sep, j, sep);
  }

  lemma PrimerCaracter(j: string, sep: string)
    requires ObjetoJson(j) && AllSpace(sep)
    ensures var t := sep + j + sep; t != [] && t[0] != '`' && t[0] != 'j'
  {
    var t := sep + j + sep;
    if |sep| > 0 {
      assert t[0] == sep[0] && IsSpace(sep[0]);
    } else {
      assert t[0] == j[0];
    }
  }

  /**
    The cleaning recovers a JSON object however the model wrapped it: bare, fenced
    with "```json" or with "```", the fences on lines of their own or not.
   */
  lemma SinFenceIfRecupera(j: string, sep: string)
    requires ObjetoJson(j) && AllSpace(sep)
    ensures SinFenceIf(j) == j
    ensures SinFenceIf(FenceJson + sep + j + sep + Fence) == j
    ensures SinFenceIf(Fence + sep + j + sep + Fence) == j
  {
    SinFenceDesnudo(j);
    Enmarcado(j, sep);
    var t := sep + j + sep;
    Agrupar(FenceJson, sep, j, Fence);
    Agrupar(Fence, sep, j, Fence);
    SinFenceJson(t);
    SinFenceSimple(t);
  }

  lemma Agrupar(a: string, sep: string, j: string, b: string)
    ensures a + sep + j + sep + b == a + ((sep + j + sep) + b)
  {
  }

  lemma SinFenceDesnudo(j: string)
    requires ObjetoJson(j)
    ensures SinFenceIf(j) == j
  {
    Enmarcado(j, []);
    assert [] + j + [] == j;
    assert FenceJson[0] == '`' && Fence[0] == '`' && Fence[2] == '`';
    SinPrefijoAusente(j, FenceJson, 0);
    SinPrefijoAusente(j, Fence, 0);
    assert !EndsWith(j, Fence) by { assert j[|j| - 1] != Fence[2]; }
  }

  lemma SinFenceJson(t: string)
    requires t != [] && t[0] != '`'
    ensures SinFenceIf(FenceJson + (t + Fence)) == Strip(t)
  {
    assert Fence[0] == '`';
    SinPrefijoPresente(FenceJson, t + Fence);
    SinPrefijoAusente(t + Fence, Fence, 0);
    SinSufijoPresente(t, Fence);
  }

  lemma SinFenceSimple(t: string)
    requires t != [] && t[0] != '`' && t[0] != 'j'
    ensures SinFenceIf(Fence + (t + Fence)) == Strip(t)
  {
    var s := Fence + (t + Fence);
    assert FenceJson[3] == 'j';
    assert s[3] == t[0];
    SinPrefijoAusente(s, FenceJson, 3);
    SinPrefijoPresente(Fence, t + Fence);
    SinFenceJsonResto(t);
  }

  lemma SinFenceJsonResto(t: string)
    requires t != [] && t[0] != '`'
    ensures SinSufijo(SinPrefijo(t + Fence, Fence), Fence) == t
  {
    assert Fence[0] == '`';
    SinPrefijoAusente(t + Fence, Fence, 0);
    SinSufijoPresente(t, Fence);
  }

  // ---------------------------------------------------------------------------
  // Extracting and loading patterns

  /** `extraer_patrones_documento(texto)`: `{}` when the call raises or the cleaned reply is not JSON. */
  function PatronesExtraidos(texto: string, llm: Peticion -> Option<string>, parse: string -> Option<Patrones>): Patrones
  {
    match llm(AnalisisReferencia(Take(texto, 15000)))
    case None => []
    case Some(reply) => parse(SinFenceIf(Strip(reply))).GetOr([])
  }

  /** `extraer_patrones_documento(texto)`. */
  method ExtraerPatronesDocumento(texto: string, llm: Peticion -> Option<string>, parse: string -> Option<Patrones>)
    returns (patrones: Patrones)
    ensures patrones == PatronesExtraidos(texto, llm, parse)
  {
    var reply := llm(AnalisisReferencia(Take(texto, 15000)));
    if reply.None? {
      return [];
    }
    var contenido := LimpiarFence(Strip(reply.value));
    patrones := parse(contenido).GetOr([]);
  }

  /**
    Only the first 15000 characters reach the model, and a reply that wraps a JSON
    object in a fence is parsed as the object itself; a failed call gives no patterns.
   */
  lemma PatronesExtraidosPropiedades(texto: string, llm: Peticion -> Option<string>,
                                     parse: string -> Option<Patrones>, j: string, sep: string)
    ensures PatronesExtraidos(texto, llm, parse) == PatronesExtraidos(Take(texto, 15000), llm, parse)
    ensures llm(AnalisisReferencia(Take(texto, 15000))).None? ==> PatronesExtraidos(texto, llm, parse) == []
    ensures ObjetoJson(j) && AllSpace(sep) && llm(AnalisisReferencia(Take(texto, 15000))) == Some(FenceJson + sep + j + sep + Fence)
            ==> PatronesExtraidos(texto, llm, parse) == parse(j).GetOr([])
  {
    assert Take(Take(texto, 15000), 15000) == Take(texto, 15000);
    if ObjetoJson(j) && AllSpace(sep) && llm(AnalisisReferencia(Take(texto, 15000))) == Some(FenceJson + sep + j + sep + Fence) {
      var s := FenceJson + sep + j + sep + Fence;
      StripFrame([], s, []);
      assert [] + s + [] == s;
      SinFenceIfRecupera(j, sep);
    }
  }

  /** What reading the pattern file produced. */
  datatype Lectura =
    | NoEncontrado
      /** The text is not valid JSON. */
    | JsonInvalido
    | Leido(patrones: Patrones)
      /** Any other failure while reading, which the function does not catch. */
    | OtroError(mensaje: string)

  /** `cargar_patrones_desde_json(ruta)`: a missing file or invalid JSON gives `{}`; other failures propagate. */
  function CargarPatronesDesdeJson(lectura: Lectura): (r: Result<Patrones, string>)
    ensures r.Err? <==> lectura.OtroError?
    ensures lectura.Leido? ==> r == Ok(lectura.patrones)
    ensures lectura.NoEncontrado? || lectura.JsonInvalido? ==> r == Ok([])
  {
    match lectura
    case NoEncontrado => Ok([])
    case JsonInvalido => Ok([])
    case Leido(p) => Ok(p)
    case OtroError(m) => Err(m)
  }

  // ---------------------------------------------------------------------------
  // Uploading a reference document

  datatype TipoArchivo = Pdf | TextoPlano | OtroTipo

  /** The extracted text is too short (or missing), so OCR is offered. */
  predicate OfreceOcr(t: Option<string>)
  {
    t.None? || |Strip(t.value)| < 100
  }

  /** The text is long enough to be accepted. */
  predicate Suficiente(t: Option<string>)
  {
    t.Some? && |Strip(t.value)| > 100
  }

  /**
    `cargar_documento_referencia()` for an uploaded file: the text it returns and
    whether it reports success. For a PDF, `extraido` is the plain extraction and
    `ocr` what OCR gives when the user presses the OCR button (`pulsaOcr`).
   */
  function CargaReferencia(tipo: TipoArchivo, extraido: Option<string>, pulsaOcr: bool, ocr: Option<string>,
                           contenidoTxt: string): (r: (Option<string>, bool))
    ensures r.1 <==> Suficiente(r.0)
    ensures tipo.Pdf? && !OfreceOcr(extraido) ==> r.0 == extraido
    ensures tipo.Pdf? && OfreceOcr(extraido) ==> r.0 == (if pulsaOcr then ocr else extraido)
    ensures tipo.TextoPlano? ==> r.0 == Some(contenidoTxt)
    ensures tipo.OtroTipo? ==> r == (None, false)
  {
    var texto :=
      match tipo
      case Pdf => if OfreceOcr(extraido) && pulsaOcr then ocr else extraido
      case TextoPlano => Some(contenidoTxt)
      case OtroTipo => None;
    (texto, Suficiente(texto))
  }

  /**
    The two thresholds leave a gap: a text of exactly 100 significant characters is
    neither offered OCR nor accepted, and an accepted text is never offered OCR.
   */
  lemma UmbralesReferencia(t: Option<string>)
    ensures Suficiente(t) ==> !OfreceOcr(t)
    ensures t.Some? && |Strip(t.value)| == 100 ==> !OfreceOcr(t) && !Suficiente(t)
  {
  }
}
