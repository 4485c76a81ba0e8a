/**
  The case wizard of the assistant page: the session state and the buttons that
  move it from choosing how the case is loaded (phase 0), through loading it
  (phase 0.5), the facts and their summary (1), the viability opinion (2), the
  power of attorney (3), to drafting the claim section by section (4), and the
  export of the drafted claim.

  Every run of the page script that a button click triggers is one method of
  `Sesion`; what the page's widgets hold in that run (the edited facts, the
  lawyer's name, the user's comment, the retrieval mode chosen in the sidebar)
  is a parameter, and so are the generators the page calls, as the record `g`
  (`DeOraculos(o)` builds it from the retrieval, reference and direct modules).
  A generator that raises aborts the run, so the state stays as it was.
 */
module Asistente {
  import opened Wrappers
  import opened Text
  import opened OrderedMap
  import opened Generation
  import Referencia
  import KeywordRag
  import VectorRag

  // ---------------------------------------------------------------------------
  // The sections of the claim

  /** The keys of `secciones_demanda`, in order. */
  const Titulos: seq<string> := [
    "I. Hechos",
    "II. Peticiones",
    "III. Petición Final",
    "IV. Fundamentos de derecho",
    "V. Normatividad y jurisprudencia aplicable al caso",
    "VI. Relación de medios probatorios",
    "VII. Cuantía",
    "VIII. Propuesta de fórmula de conciliación",
    "IX. Competencia",
    "X. Manifestación",
    "XI. Anexos",
    "XII. Notificaciones"
  ]

  /** Every title with empty text. */
  function SinRedactar(ts: seq<string>): (d: Dict<string>)
    ensures Claves(d) == ts
    ensures forall i :: 0 <= i < |d| ==> d[i].1 == ""
  {
    seq(|ts|, i requires 0 <= i < |ts| => (ts[i], ""))
  }

  /** No whitespace at either end: what `strip()` leaves. */
  predicate Recortado(s: string)
  {
    s == [] || (!IsSpace(s[0]) && !IsSpace(s[|s| - 1]))
  }

  /** A stripped text is `Recortado`, and a `Recortado` text strips to itself. */
  lemma RecortadoStrip(s: string)
    ensures Recortado(Strip(s))
    ensures Recortado(s) ==> Strip(s) == s
  {
    if Recortado(s) {
      StripFrame([], s, []);
      assert [] + s + [] == s;
    }
  }

  /** No key appears twice. */
  predicate Distintos(ts: seq<string>)
  {
    forall i, j :: 0 <= i < j < |ts| ==> ts[i] != ts[j]
  }

  /** The twelve titles are distinct. */
  lemma TitulosDistintos()
    ensures |Titulos| == 12 && Distintos(Titulos)
  {
    forall i, j | 0 <= i < j < |Titulos| ensures Titulos[i] != Titulos[j] {
      TitulosPorPrefijo(i, j);
    }
  }

  /** Two texts of different lengths or first characters. */
  predicate Difieren(a: string, b: string)
  {
    |a| != |b| || (a != [] && b != [] && a[0] != b[0])
  }

  /** Two titles differ in length or in their first character. */
  lemma TitulosPorPrefijo(i: nat, j: nat)
    requires i < j < 12
    ensures Titulos[i] != Titulos[j]
  {
    assert Difieren(Titulos[i], Titulos[j]);
  }

  /** The wizard's sections are the standard sections of the reference-document module, in the same order. */
  lemma TitulosEstandar()
    ensures Claves(Referencia.SeccionesEstandar) == Titulos
  {
  }

  /** A dictionary keyed by distinct titles has distinct keys. */
  lemma UnicasPorTitulos(d: Dict<string>, ts: seq<string>)
    requires Claves(d) == ts && Distintos(ts)
    ensures ClavesUnicas(d)
  {
    forall i, j | 0 <= i < j < |d| ensures d[i].0 != d[j].0 {
      assert Claves(d)[i] == d[i].0 && Claves(d)[j] == d[j].0;
    }
  }

  /** Assigning to the key at position `i` of a dictionary with distinct keys replaces that pair. */
  lemma AsignarEnPosicion(d: Dict<string>, i: nat, v: string)
    requires ClavesUnicas(d) && i < |d|
    ensures Asignar(d, d[i].0, v) == d[i := (d[i].0, v)]
    ensures Claves(d[i := (d[i].0, v)]) == Claves(d)
  {
    ObtenerUnica(d, i);
  }

  // ---------------------------------------------------------------------------
  // Generation, by strategy

  /** The retrieval mode chosen in the sidebar. */
  datatype ModoRag = SinRag | RagBasico | RagVectorial

  /**
    The generators the page calls. The retrieval ones catch their own failures and
    always give a text; the direct ones and the reference one raise, written `None`.
    A section generator takes the title, the facts, the summary, the opinion and the
    user's comment (empty for a first draft); the retrieval ones ignore the facts.
   */
  datatype Generadores = Generadores(
    resumenRag: string -> string,
    resumenVectorial: string -> string,
    resumenDirecto: string -> Option<string>,
    viabilidadRag: string -> string,
    viabilidadVectorial: string -> string,
    viabilidadDirecta: string -> Option<string>,
    seccionReferencia: (string, string, string, string, Referencia.Patrones, string) -> Option<string>,
    seccionRag: (string, string, string, string, string) -> string,
    seccionVectorial: (string, string, string, string, string) -> string,
    seccionDirecta: (string, string, string, string, string) -> Option<string>)

  /** The generators of the keyword retriever, the vector retriever, the reference module and the direct prompts. */
  function DeOraculos(o: Oraculos): Generadores
  {
    Generadores(
      h => KeywordRag.Respuesta(KeywordRag.ConsultaResumen, h, "", o.llm),
      h => VectorRag.Respuesta(VectorRag.ConsultaResumen, h, "", o),
      h => RespuestaDirecta(o.llm(ResumenDirecto(h))),
      h => KeywordRag.Respuesta(KeywordRag.ConsultaViabilidad, h, "", o.llm),
      h => VectorRag.Respuesta(VectorRag.ConsultaViabilidad, h, "", o),
      h => RespuestaDirecta(o.llm(ViabilidadDirecta(h))),
      (t, h, r, c, p, k) => Referencia.GenerarSeccionConReferencia(t, h, r, c, p, k, o.llm),
      (t, h, r, c, k) =>
        KeywordRag.Respuesta(KeywordRag.ConsultaSeccion(t), KeywordRag.ContextoSeccion(r, c), k, o.llm),
      (t, h, r, c, k) => VectorRag.Respuesta(VectorRag.ConsultaSeccion(t), VectorRag.ContextoSeccion(r, c), k, o),
      (t, h, r, c, k) => RespuestaDirecta(o.llm(SeccionDirecta(t, h, r, c, BloqueComentario(k)))))
  }

  /** Which generator drafts a section. */
  datatype Estrategia = ConReferencia | ConRagBasico | ConRagVectorial | Directa

  /**
    Loaded reference patterns take precedence over the retrieval mode; without
    them the mode decides, and "Sin RAG" drafts directly.
   */
  function EstrategiaSeccion(patrones: Referencia.Patrones, modo: ModoRag): (e: Estrategia)
    ensures e.ConReferencia? <==> patrones != []
    ensures e.ConRagBasico? <==> patrones == [] && modo.RagBasico?
    ensures e.ConRagVectorial? <==> patrones == [] && modo.RagVectorial?
    ensures e.Directa? <==> patrones == [] && modo.SinRag?
  {
    if patrones != [] then ConReferencia
    else
      match modo
      case RagBasico => ConRagBasico
      case RagVectorial => ConRagVectorial
      case SinRag => Directa
  }

  /** The summary of the facts under `modo`; `None` when the direct generator raised. */
  function Resumen(g: Generadores, hechos: string, modo: ModoRag): (r: Option<string>)
    ensures r.None? ==> modo.SinRag?
  {
    match modo
    case RagBasico => Some(g.resumenRag(hechos))
    case RagVectorial => Some(g.resumenVectorial(hechos))
    case SinRag => g.resumenDirecto(hechos)
  }

  /** The viability opinion under `modo`; `None` when the direct generator raised. */
  function Viabilidad(g: Generadores, hechos: string, modo: ModoRag): (r: Option<string>)
    ensures r.None? ==> modo.SinRag?
  {
    match modo
    case RagBasico => Some(g.viabilidadRag(hechos))
    case RagVectorial => Some(g.viabilidadVectorial(hechos))
    case SinRag => g.viabilidadDirecta(hechos)
  }

  /**
    A section drafted by the strategy in force, with the user's comment; `None` when
    the generator raised, which only the reference and the direct generators do.
   */
  function Seccion(g: Generadores, titulo: string, hechos: string, resumen: string, concepto: string,
                   comentario: string, patrones: Referencia.Patrones, modo: ModoRag): (r: Option<string>)
    ensures r.None? ==> patrones != [] || modo.SinRag?
  {
    match EstrategiaSeccion(patrones, modo)
    case ConReferencia => g.seccionReferencia(titulo, hechos, resumen, concepto, patrones, comentario)
    case ConRagBasico => Some(g.seccionRag(titulo, hechos, resumen, concepto, comentario))
    case ConRagVectorial => Some(g.seccionVectorial(titulo, hechos, resumen, concepto, comentario))
    case Directa => g.seccionDirecta(titulo, hechos, resumen, concepto, comentario)
  }

  // ---------------------------------------------------------------------------
  // The exported claim

  /** One item of the Word document. */
  datatype Bloque = Titulo(nivel: nat, texto: string) | Parrafo(texto: string)

  const TituloDemanda := "Demanda por Contrato Realidad"

  /** The heading, the lawyer line and an empty paragraph. */
  function EncabezadoDemanda(nombre: string): seq<Bloque>
  {
    [Titulo(1, TituloDemanda), Parrafo("Abogado supervisor: " + nombre), Parrafo("")]
  }

  /** One heading, the text and an empty paragraph per section, in order. */
  function Cuerpo(secciones: Dict<string>): seq<Bloque>
  {
    if secciones == [] then []
    else
      var s := secciones[|secciones| - 1];
      Cuerpo(secciones[..|secciones| - 1]) + [Titulo(2, s.0), Parrafo(s.1), Parrafo("")]
  }

  function DocumentoDemanda(nombre: string, secciones: Dict<string>): seq<Bloque>
  {
    EncabezadoDemanda(nombre) + Cuerpo(secciones)
  }

  /** Section `i` becomes blocks `3 i`, `3 i + 1` and `3 i + 2` of the body: its title, its text, a blank paragraph. */
  lemma {:induction false} CuerpoForma(secciones: Dict<string>)
    ensures |Cuerpo(secciones)| == 3 * |secciones|
    ensures forall i :: 0 <= i < |secciones| ==>
      && Cuerpo(secciones)[3 * i] == Titulo(2, secciones[i].0)
      && Cuerpo(secciones)[3 * i + 1] == Parrafo(secciones[i].1)
      && Cuerpo(secciones)[3 * i + 2] == Parrafo("")
  {
    if secciones != [] {
      var init := secciones[..|secciones| - 1];
      CuerpoForma(init);
      forall i | 0 <= i < |init| ensures secciones[i] == init[i] { }
    }
  }

  /**
    The document starts with the heading and the lawyer line, and then holds every
    section, in the dictionary's order, as a level-2 heading followed by its text.
   */
  lemma DocumentoDemandaForma(nombre: string, secciones: Dict<string>)
    ensures var d := DocumentoDemanda(nombre, secciones);
      && |d| == 3 + 3 * |secciones|
      && d[0] == Titulo(1, TituloDemanda) && d[1] == Parrafo("Abogado supervisor: " + nombre)
      && forall i :: 0 <= i < |secciones| ==>
           d[3 + 3 * i] == Titulo(2, secciones[i].0) && d[4 + 3 * i] == Parrafo(secciones[i].1)
  {
    CuerpoForma(secciones);
    var d := DocumentoDemanda(nombre, secciones);
    forall i | 0 <= i < |secciones|
      ensures d[3 + 3 * i] == Titulo(2, secciones[i].0) && d[4 + 3 * i] == Parrafo(secciones[i].1)
    {
      assert d[3 + 3 * i] == Cuerpo(secciones)[3 * i];
      assert d[4 + 3 * i] == Cuerpo(secciones)[3 * i + 1];
    }
  }

  // ---------------------------------------------------------------------------
  // The session

  /**
    The wizard's phase; the page stores it as the number 0, 0.5, 1, 2, 3 or 4 in
    this order.
   */
  datatype Fase = Seleccion | Procesamiento | IngresoHechos | Evaluacion | PoderEspecial | Redaccion

  /** How the case is loaded: `"transcripcion"` or `"expediente"`. */
  datatype Metodo = Transcripcion | Expediente

  /** The buttons of phase 0.5, shown once the loader produced text. */
  datatype BotonCarga = NingunBoton | Volver | Continuar

  /** The fields of `st.session_state` the wizard uses. */
  class Sesion {
    var fase: Fase
    var metodoCarga: Option<Metodo>
    var hechos: string
    var resumen: string
    var resumenGenerado: bool
    var concepto: string
    var demanda: string
    var demandaGenerada: bool
    var nombreAbogado: string
    var seccionActual: int
    var secciones: Dict<string>
    var patronesReferencia: Referencia.Patrones
    var poderGenerado: bool
    /** The keys of `secciones_demanda`, fixed when the session starts. */
    const titulos: seq<string>

    /**
      The sections keep their twelve titles and the index stays on one of them;
      phase 0.5 always has a loading method; a generated summary means the facts
      are not empty; phases 2 to 4 come after a generated summary and phases 3
      and 4 after a non-empty opinion; the stored lawyer name is stripped.
     */
    predicate Valid()
      reads this
    {
      && |titulos| == 12 && Distintos(titulos)
      && Claves(secciones) == titulos
      && 0 <= seccionActual < |titulos|
      && (fase == Procesamiento ==> metodoCarga.Some?)
      && (resumenGenerado ==> hechos != "")
      && (fase.Evaluacion? || fase.PoderEspecial? || fase.Redaccion? ==> resumenGenerado)
      && (fase.PoderEspecial? || fase.Redaccion? ==> concepto != "")
      && Recortado(nombreAbogado)
    }

    /** The state the page initialises, with the patterns read from the saved file. */
    predicate Inicial(patrones: Referencia.Patrones)
      reads this
    {
      && fase == Seleccion && metodoCarga == None
      && hechos == "" && resumen == "" && !resumenGenerado && concepto == ""
      && demanda == "" && !demandaGenerada && nombreAbogado == "" && seccionActual == 0
      && secciones == SinRedactar(titulos) && patronesReferencia == patrones && !poderGenerado
    }

    /** Drafting is possible: phase 4 with the earlier phases done. */
    predicate Completas()
      reads this
    {
      hechos != "" && resumenGenerado && concepto != ""
    }

    /** The run shows a section to draft: phase 4, the earlier phases done and a non-blank name. */
    predicate Redactando(nombre: string)
      reads this
    {
      fase == Redaccion && Completas() && Strip(nombre) != ""
    }

    /**
      The page's initialisation of a fresh session: `archivo` is the saved pattern
      file, `None` when it is missing or cannot be parsed.
     */
    constructor(archivo: Option<Referencia.Patrones>)
      ensures Valid() && Inicial(archivo.GetOr([]))
      ensures titulos == Titulos
    {
      titulos := Titulos;
      fase := Seleccion;
      metodoCarga := None;
      hechos := "";
      resumen := "";
      resumenGenerado := false;
      concepto := "";
      demanda := "";
      demandaGenerada := false;
      nombreAbogado := "";
      seccionActual := 0;
      secciones := SinRedactar(Titulos);
      patronesReferencia := archivo.GetOr([]);
      poderGenerado := false;
      TitulosDistintos();
    }

    /**
      "Reiniciar Caso", offered only once there are facts: every key but the
      sidebar's retrieval mode is deleted and the page initialises them again.
     */
    method Reiniciar(archivo: Option<Referencia.Patrones>)
      requires Valid()
      modifies this
      ensures Valid()
      ensures old(hechos) != "" ==> Inicial(archivo.GetOr([]))
      ensures old(hechos) == "" ==> unchanged(this)
    {
      if hechos != "" {
        Inicializar(archivo);
      }
    }

    /** Every key set as the page initialises it, with the sections' titles kept. */
    method Inicializar(archivo: Option<Referencia.Patrones>)
      requires |titulos| == 12 && Distintos(titulos)
      modifies this
      ensures Valid() && Inicial(archivo.GetOr([]))
    {
      InicializarFases();
      InicializarRedaccion(archivo.GetOr([]));
    }

    /** The keys of phases 0 to 3 as the page initialises them. */
    method InicializarFases()
      modifies this`fase, this`metodoCarga, this`hechos, this`resumen, this`resumenGenerado, this`concepto, this`poderGenerado
      ensures fase == Seleccion && metodoCarga == None && hechos == "" && resumen == ""
      ensures !resumenGenerado && concepto == "" && !poderGenerado
    {
      fase, metodoCarga := Seleccion, None;
      hechos, resumen, resumenGenerado := "", "", false;
      concepto, poderGenerado := "", false;
    }

    /** The keys of phase 4 as the page initialises them, with the given reference patterns. */
    method InicializarRedaccion(patrones: Referencia.Patrones)
      modifies this`demanda, this`demandaGenerada, this`nombreAbogado, this`seccionActual, this`secciones, this`patronesReferencia
      ensures demanda == "" && !demandaGenerada && nombreAbogado == "" && seccionActual == 0
      ensures secciones == SinRedactar(titulos) && patronesReferencia == patrones
    {
      demanda, demandaGenerada, nombreAbogado := "", false, "";
      seccionActual, secciones, patronesReferencia := 0, SinRedactar(titulos), patrones;
    }

    /** "Usar Transcripción" / "Usar Expediente" in phase 0: the method is recorded and phase 0.5 begins. */
    method ElegirMetodo(m: Metodo)
      requires Valid()
      modifies this`fase, this`metodoCarga
      ensures Valid()
      ensures fase == (if old(fase) == Seleccion then Procesamiento else old(fase))
      ensures metodoCarga == (if old(fase) == Seleccion then Some(m) else old(metodoCarga))
    {
      if fase == Seleccion {
        metodoCarga := Some(m);
        fase := Procesamiento;
      }
    }

    /**
      A run of phase 0.5: `cargado` is what the loader returned in this run. Text
      that is there (not `None`, not empty) becomes the facts, and only then are
      "Volver" (back to phase 0, no method) and "Continuar" (phase 1) shown.
     */
    method Procesar(cargado: Option<string>, boton: BotonCarga)
      requires Valid()
      modifies this`hechos, this`fase, this`metodoCarga
      ensures Valid()
      ensures var carga := old(fase) == Procesamiento && cargado.Some? && cargado.value != "";
        && hechos == (if carga then cargado.value else old(hechos))
        && fase == (if carga && boton.Volver? then Seleccion
                    else if carga && boton.Continuar? then IngresoHechos
                    else old(fase))
        && metodoCarga == (if carga && boton.Volver? then None else old(metodoCarga))
    {
      if fase == Procesamiento && cargado.Some? && cargado.value != "" {
        hechos := cargado.value;
        if boton.Volver? {
          fase := Seleccion;
          metodoCarga := None;
        } else if boton.Continuar? {
          fase := IngresoHechos;
        }
      }
    }

    /** "Cambiar método de carga" in phase 1: back to phase 0 with no method; the facts stay. */
    method CambiarMetodo()
      requires Valid()
      modifies this`fase, this`metodoCarga
      ensures Valid()
      ensures fase == (if old(fase) == IngresoHechos then Seleccion else old(fase))
      ensures metodoCarga == (if old(fase) == IngresoHechos then None else old(metodoCarga))
    {
      if fase == IngresoHechos {
        fase := Seleccion;
        metodoCarga := None;
      }
    }

    /**
      "Generar Resumen Técnico" in phase 1 with the facts as edited: blank facts
      change nothing; otherwise the summary, the facts and the summary flag are set,
      unless the generator raised.
     */
    method GenerarResumen(editados: string, modo: ModoRag, g: Generadores)
      requires Valid()
      modifies this`resumen, this`hechos, this`resumenGenerado
      ensures Valid()
      ensures var r := Resumen(g, editados, modo);
        if old(fase) == IngresoHechos && Strip(editados) != "" && r.Some? then
          resumen == r.value && hechos == editados && resumenGenerado
        else
          resumen == old(resumen) && hechos == old(hechos) && resumenGenerado == old(resumenGenerado)
    {
      if fase != IngresoHechos || Strip(editados) == "" {
        return;
      }
      var r: Option<string>;
      if modo == RagBasico {
        r := Some(g.resumenRag(editados));
      } else if modo == RagVectorial {
        r := Some(g.resumenVectorial(editados));
      } else {
        r := g.resumenDirecto(editados);
      }
      if r.Some? {
        GuardarResumen(editados, r.value);
      }
    }

    /** The summary, the facts it summarises and the summary flag, stored together. */
    method GuardarResumen(editados: string, texto: string)
      requires Valid() && editados != ""
      modifies this`resumen, this`hechos, this`resumenGenerado
      ensures Valid()
      ensures resumen == texto && hechos == editados && resumenGenerado
    {
      resumen := texto;
      hechos := editados;
      resumenGenerado := true;
    }

    /** "Continuar a Fase 2": only with non-blank edited facts and a generated summary. */
    method ContinuarFase2(editados: string)
      requires Valid()
      modifies this`fase
      ensures Valid()
      ensures fase == (if old(fase) == IngresoHechos && Strip(editados) != "" && resumenGenerado then Evaluacion
                       else old(fase))
    {
      if fase == IngresoHechos && Strip(editados) != "" && resumenGenerado {
        fase := Evaluacion;
      }
    }

    /** "Emitir Concepto Jurídico" in phase 2: the opinion on the stored facts, unless the generator raised. */
    method EmitirConcepto(modo: ModoRag, g: Generadores)
      requires Valid()
      modifies this`concepto
      ensures Valid()
      ensures var r := Viabilidad(g, hechos, modo);
        concepto == (if fase == Evaluacion && r.Some? then r.value else old(concepto))
    {
      if fase != Evaluacion {
        return;
      }
      var r: Option<string>;
      if modo == RagBasico {
        r := Some(g.viabilidadRag(hechos));
      } else if modo == RagVectorial {
        r := Some(g.viabilidadVectorial(hechos));
      } else {
        r := g.viabilidadDirecta(hechos);
      }
      if r.Some? {
        concepto := r.value;
      }
    }

    /** "Volver a Fase 1" in phase 2. */
    method VolverFase1()
      requires Valid()
      modifies this`fase
      ensures Valid()
      ensures fase == (if old(fase) == Evaluacion then IngresoHechos else old(fase))
    {
      if fase == Evaluacion {
        fase := IngresoHechos;
      }
    }

    /** "Continuar a Fase 3": only with a non-empty opinion. */
    method ContinuarFase3()
      requires Valid()
      modifies this`fase
      ensures Valid()
      ensures fase == (if old(fase) == Evaluacion && concepto != "" then PoderEspecial else old(fase))
    {
      if fase == Evaluacion && concepto != "" {
        fase := PoderEspecial;
      }
    }

    /** "Volver a Fase 2" in phase 3. */
    method VolverFase2()
      requires Valid()
      modifies this`fase
      ensures Valid()
      ensures fase == (if old(fase) == PoderEspecial then Evaluacion else old(fase))
    {
      if fase == PoderEspecial {
        fase := Evaluacion;
      }
    }

    /**
      Phase 3 always lets the user on to phase 4: "Ir al Módulo de Poder" also records
      that the power of attorney was generated, "Saltar y Continuar" does not.
     */
    method IrAFase4(conPoder: bool)
      requires Valid()
      modifies this`fase, this`poderGenerado
      ensures Valid()
      ensures fase == (if old(fase) == PoderEspecial then Redaccion else old(fase))
      ensures poderGenerado == (old(poderGenerado) || (old(fase) == PoderEspecial && conPoder))
    {
      if fase == PoderEspecial {
        if conPoder {
          poderGenerado := true;
        }
        fase := Redaccion;
      }
    }

    /**
      Phase 4 shows "Volver al Inicio" only when an earlier phase is not done; the
      earlier phases are always done there, so the button never appears.
     */
    lemma RedaccionCompleta()
      requires Valid() && fase == Redaccion
      ensures Completas()
    {
    }

    /**
      The top of a phase-4 run with the name typed as `nombre`: a blank name stops
      the run; otherwise the name is stored stripped and, when the current section
      has no text, it is drafted and stored under its title, unless the generator
      raised. Every button of phase 4 runs after this.
     */
    method MostrarSeccion(nombre: string, modo: ModoRag, g: Generadores)
      requires Valid()
      modifies this`nombreAbogado, this`secciones
      ensures Valid()
      ensures nombreAbogado == (if old(Redactando(nombre)) then Strip(nombre) else old(nombreAbogado))
      ensures var i := seccionActual;
        var r := Seccion(g, titulos[i], hechos, resumen, concepto, "", patronesReferencia, modo);
        secciones == (if old(Redactando(nombre)) && old(secciones)[i].1 == "" && r.Some?
                      then old(secciones)[i := (titulos[i], r.value)]
                      else old(secciones))
    {
      if !Redactando(nombre) {
        return;
      }
      nombreAbogado := Strip(nombre);
      RecortadoStrip(nombre);
      RedactarSiVacia(modo, g);
    }

    /** The current section is drafted and stored when it has no text yet. */
    method RedactarSiVacia(modo: ModoRag, g: Generadores)
      requires Valid()
      modifies this`secciones
      ensures Valid()
      ensures var i := seccionActual;
        var r := Seccion(g, titulos[i], hechos, resumen, concepto, "", patronesReferencia, modo);
        secciones == (if old(secciones)[i].1 == "" && r.Some? then old(secciones)[i := (titulos[i], r.value)]
                      else old(secciones))
    {
      if secciones[seccionActual].1 == "" {
        var titulo := TituloActual();
        var r := Redactar(titulo, "", modo, g);
        if r.Some? {
          GuardarSeccion(r.value);
        }
      }
    }

    /** The title of the current section, `list(secciones_demanda.keys())[seccion_actual]`. */
    method TituloActual() returns (titulo: string)
      requires Valid()
      ensures titulo == titulos[seccionActual]
    {
      titulo := secciones[seccionActual].0;
      assert Claves(secciones)[seccionActual] == titulo;
    }

    /** The section `titulo` drafted by the generator in force, with the comment `comentario`. */
    method Redactar(titulo: string, comentario: string, modo: ModoRag, g: Generadores) returns (r: Option<string>)
      ensures r == Seccion(g, titulo, hechos, resumen, concepto, comentario, patronesReferencia, modo)
    {
      if patronesReferencia != [] {
        r := g.seccionReferencia(titulo, hechos, resumen, concepto, patronesReferencia, comentario);
      } else if modo == RagBasico {
        r := Some(g.seccionRag(titulo, hechos, resumen, concepto, comentario));
      } else if modo == RagVectorial {
        r := Some(g.seccionVectorial(titulo, hechos, resumen, concepto, comentario));
      } else {
        r := g.seccionDirecta(titulo, hechos, resumen, concepto, comentario);
      }
    }

    /** `secciones_demanda[seccion] = texto` for the current section: only its text changes. */
    method GuardarSeccion(texto: string)
      requires Valid()
      modifies this`secciones
      ensures Valid()
      ensures secciones == old(secciones)[seccionActual := (titulos[seccionActual], texto)]
    {
      var titulo := TituloActual();
      UnicasPorTitulos(secciones, titulos);
      AsignarEnPosicion(secciones, seccionActual, texto);
      secciones := Asignar(secciones, titulo, texto);
    }

    /** "Sección Anterior", offered only past the first section: one section back. */
    method Anterior(nombre: string)
      requires Valid()
      modifies this`seccionActual
      ensures Valid()
      ensures seccionActual == (if Redactando(nombre) && old(seccionActual) > 0 then old(seccionActual) - 1
                                else old(seccionActual))
    {
      if Redactando(nombre) && seccionActual > 0 {
        seccionActual := seccionActual - 1;
      }
    }

    /** "Siguiente Sección", offered only before the last section: one section forward. */
    method Siguiente(nombre: string)
      requires Valid()
      modifies this`seccionActual
      ensures Valid()
      ensures seccionActual == (if Redactando(nombre) && old(seccionActual) < |titulos| - 1
                                then old(seccionActual) + 1 else old(seccionActual))
    {
      if Redactando(nombre) && seccionActual < |secciones| - 1 {
        seccionActual := seccionActual + 1;
      }
    }

    /**
      "Reescribir esta sección con los comentarios": the current section is drafted
      again with the comment and its text replaced, whatever it held; no other
      section changes. A raising generator leaves it as it was.
     */
    method Reescribir(nombre: string, comentario: string, modo: ModoRag, g: Generadores)
      requires Valid()
      modifies this`secciones
      ensures Valid()
      ensures var i := seccionActual;
        var r := Seccion(g, titulos[i], hechos, resumen, concepto, comentario, patronesReferencia, modo);
        secciones == (if Redactando(nombre) && r.Some? then old(secciones)[i := (titulos[i], r.value)]
                      else old(secciones))
    {
      if !Redactando(nombre) {
        return;
      }
      var titulo := TituloActual();
      var r := Redactar(titulo, comentario, modo, g);
      if r.Some? {
        GuardarSeccion(r.value);
      }
    }

    /**
      "Descargar Demanda Completa en Word", offered on the last section: the title,
      the lawyer line, then each section's heading and text in the sections' order.
     */
    method ExportarDemanda(nombre: string) returns (doc: Option<seq<Bloque>>)
      requires Valid()
      ensures doc.Some? <==> Redactando(nombre) && seccionActual == |titulos| - 1
      ensures doc.Some? ==> doc.value == DocumentoDemanda(nombreAbogado, secciones)
    {
      if !(Redactando(nombre) && seccionActual == |secciones| - 1) {
        return None;
      }
      var d := EncabezadoDemanda(nombreAbogado);
      for i := 0 to |secciones|
        invariant d == EncabezadoDemanda(nombreAbogado) + Cuerpo(secciones[..i])
      {
        assert secciones[..i + 1][..i] == secciones[..i];
        var (titulo, contenido) := secciones[i];
        d := d + [Titulo(2, titulo), Parrafo(contenido), Parrafo("")];
      }
      assert secciones[..|secciones|] == secciones;
      doc := Some(d);
    }
  }
}
