/**
  The legal knowledge-base manager: a JSON object of categories, each an object of
  document types, each type holding a list of entries (or, as the seeded
  "concepto", a single string). Documents are appended under a category and type,
  the base is searched case-insensitively, and it can be replaced wholesale by an
  imported JSON text.

  Reading and writing the file and parsing JSON are outside the model: the
  constructor receives what loading produced (`None` when the file is missing or
  unreadable), saving is a boolean outcome passed in, and importing receives the
  parsed object or `None` when parsing failed. The clock is the `ahora` parameter.
 */
module KnowledgeManager {
  import opened Wrappers
  import opened Text
  import opened OrderedMap
  import Semilla

  /** One item of a type's list. */
  datatype Elemento =
      /** An object; each field is `None` when its key is absent. */
    | Registro(contenido: Option<string>, fuente: Option<string>, fecha: Option<string>)
      /** A plain string, as in the seeded lists. */
    | Cadena(texto: string)
      /** Any other JSON value. */
    | OtroElemento

  /** What a document type holds. */
  datatype Valor = Lista(elementos: seq<Elemento>) | Texto(texto: string) | OtroValor

  type Categoria = Dict<Valor>
  type Base = Dict<Categoria>

  /** Keys are distinct at both levels, as in any JSON object. */
  predicate BienFormada(b: Base)
  {
    ClavesUnicas(b) && forall i :: 0 <= i < |b| ==> ClavesUnicas(b[i].1)
  }

  function Cadenas(xs: seq<string>): (es: seq<Elemento>)
    ensures |es| == |xs| && forall i :: 0 <= i < |xs| ==> es[i] == Cadena(xs[i])
  {
    seq(|xs|, i requires 0 <= i < |xs| => Cadena(xs[i]))
  }

  /** `_get_default_knowledge()`. */
  const PorDefecto: Base := [
    ("contrato_realidad", [
      ("concepto", Texto(Semilla.Concepto)),
      ("elementos", Lista(Cadenas(Semilla.Elementos))),
      ("jurisprudencia", Lista(Cadenas(Semilla.Jurisprudencia))),
      ("normativa", Lista(Cadenas(Semilla.Normativa)))]),
    ("derecho_laboral_colombiano", [
      ("principios", Lista(Cadenas(Semilla.Principios))),
      ("derechos_trabajador", Lista(Cadenas(Semilla.DerechosTrabajador)))]),
    ("demanda_laboral", [
      ("requisitos", Lista(Cadenas(Semilla.Requisitos))),
      ("plazos", Lista(Cadenas(Semilla.Plazos)))])
  ]

  /** The default base has the three seeded categories, in order, and is well formed. */
  lemma PorDefectoCategorias()
    ensures Claves(PorDefecto) == ["contrato_realidad", "derecho_laboral_colombiano", "demanda_laboral"]
    ensures BienFormada(PorDefecto)
    ensures Claves(PorDefecto[0].1) == ["concepto", "elementos", "jurisprudencia", "normativa"]
  {
  }

  // ---------------------------------------------------------------------------
  // Adding a document

  /**
    The base after appending `e` under `categoria` and `tipo`, creating either when
    missing; `None` when the type exists and does not hold a list (the append raises,
    and nothing has been created by then).
   */
  function Agregar(b: Base, categoria: string, tipo: string, e: Elemento): Option<Base>
  {
    var c := Obtener(b, categoria).GetOr([]);
    var v := Obtener(c, tipo).GetOr(Lista([]));
    if v.Lista? then Some(Asignar(b, categoria, Asignar(c, tipo, Lista(v.elementos + [e])))) else None
  }

  /** The entries listed under `categoria` and `tipo`, if it holds a list. */
  function ListaDe(b: Base, categoria: string, tipo: string): Option<seq<Elemento>>
  {
    var c := Obtener(b, categoria);
    if c.None? then None
    else
      var v := Obtener(c.value, tipo);
      if v.Some? && v.value.Lista? then Some(v.value.elementos) else None
  }

  /**
    Adding fails exactly when the type exists without a list. Otherwise the category
    (appended to the keys if new) now lists under `tipo` what it listed before (nothing
    if new) followed by exactly `e`, and every other category and every other type of
    this category is as it was.
   */
  lemma AgregarEfecto(b: Base, categoria: string, tipo: string, e: Elemento)
    requires BienFormada(b)
    ensures Agregar(b, categoria, tipo, e).None? <==>
      (categoria in Claves(b) && tipo in Claves(Obtener(b, categoria).value)
       && !Obtener(Obtener(b, categoria).value, tipo).value.Lista?)
    ensures Agregar(b, categoria, tipo, e).Some? ==>
      var r := Agregar(b, categoria, tipo, e).value;
      var c := Obtener(b, categoria).GetOr([]);
      && BienFormada(r)
      && Claves(r) == (if categoria in Claves(b) then Claves(b) else Claves(b) + [categoria])
      && ListaDe(r, categoria, tipo) == Some(ListaDe(b, categoria, tipo).GetOr([]) + [e])
      && Claves(Obtener(r, categoria).value) == (if tipo in Claves(c) then Claves(c) else Claves(c) + [tipo])
      && (forall t :: t != tipo ==> Obtener(Obtener(r, categoria).value, t) == Obtener(c, t))
      && (forall k :: k != categoria ==> Obtener(r, k) == Obtener(b, k))
  {
    var c := Obtener(b, categoria).GetOr([]);
    var v := Obtener(c, tipo).GetOr(Lista([]));
    if v.Lista? {
      assert ClavesUnicas(c) by {
        if categoria in Claves(b) {
          var i :| 0 <= i < |b| && b[i] == (categoria, c);
        }
      }
      var c' := Asignar(c, tipo, Lista(v.elementos + [e]));
      AsignarEfecto(c, tipo, Lista(v.elementos + [e]));
      AsignarEfecto(b, categoria, c');
      var r := Asignar(b, categoria, c');
      forall i | 0 <= i < |r| ensures ClavesUnicas(r[i].1) {
        ObtenerUnica(r, i);
        if r[i].0 != categoria {
          var j :| 0 <= j < |b| && b[j] == (r[i].0, r[i].1);
        }
      }
    }
  }

  // ---------------------------------------------------------------------------
  // Searching

  /** One search result: `{"category", "type", "content", "source", "date"}`. */
  datatype Hallazgo = Hallazgo(categoria: string, tipo: string, contenido: string, fuente: string, fecha: string)

  /** The result for one list item, if it is an object with a "content" containing `ql`. */
  function HallazgoElemento(categoria: string, tipo: string, e: Elemento, ql: string): seq<Hallazgo>
  {
    match e
    case Registro(Some(contenido), fuente, fecha) =>
      if Contains(Lower(contenido), ql) then [Hallazgo(categoria, tipo, contenido, fuente.GetOr(""), fecha.GetOr(""))] else []
    case _ => []
  }

  function HallazgosElementos(categoria: string, tipo: string, es: seq<Elemento>, ql: string): seq<Hallazgo>
  {
    if es == [] then []
    else HallazgosElementos(categoria, tipo, es[..|es| - 1], ql) + HallazgoElemento(categoria, tipo, es[|es| - 1], ql)
  }

  /** The results for one type: its list items, or its string as a single entry without source or date. */
  function HallazgosValor(categoria: string, tipo: string, v: Valor, ql: string): seq<Hallazgo>
  {
    match v
    case Lista(es) => HallazgosElementos(categoria, tipo, es, ql)
    case Texto(s) => if Contains(Lower(s), ql) then [Hallazgo(categoria, tipo, s, "", "")] else []
    case OtroValor => []
  }

  function HallazgosCategoria(categoria: string, c: Categoria, ql: string): seq<Hallazgo>
  {
    if c == [] then []
    else HallazgosCategoria(categoria, c[..|c| - 1], ql) + HallazgosValor(categoria, c[|c| - 1].0, c[|c| - 1].1, ql)
  }

  /** `search_knowledge` with the lower-cased query `ql`: category, then type, then list order. */
  function Hallazgos(b: Base, ql: string): seq<Hallazgo>
  {
    if b == [] then []
    else Hallazgos(b[..|b| - 1], ql) + HallazgosCategoria(b[|b| - 1].0, b[|b| - 1].1, ql)
  }

  /** Every result for a list item is the content of an object item containing `ql`, with its source and date. */
  lemma {:induction false} HallazgosElementosCorrectos(categoria: string, tipo: string, es: seq<Elemento>, ql: string)
    ensures forall h :: h in HallazgosElementos(categoria, tipo, es, ql) ==>
      && h.categoria == categoria && h.tipo == tipo && Contains(Lower(h.contenido), ql)
      && exists k :: 0 <= k < |es| && es[k].Registro? && es[k].contenido == Some(h.contenido)
                     && h.fuente == es[k].fuente.GetOr("") && h.fecha == es[k].fecha.GetOr("")
  {
    if es != [] {
      HallazgosElementosCorrectos(categoria, tipo, es[..|es| - 1], ql);
      assert es == es[..|es| - 1] + [es[|es| - 1]];
    }
  }

  /** Every object item whose content contains `ql` yields a result. */
  lemma {:induction false} HallazgosElementosCompletos(categoria: string, tipo: string, es: seq<Elemento>, ql: string, k: nat)
    requires k < |es| && es[k].Registro? && es[k].contenido.Some? && Contains(Lower(es[k].contenido.value), ql)
    ensures Hallazgo(categoria, tipo, es[k].contenido.value, es[k].fuente.GetOr(""), es[k].fecha.GetOr(""))
            in HallazgosElementos(categoria, tipo, es, ql)
  {
    if k < |es| - 1 {
      HallazgosElementosCompletos(categoria, tipo, es[..|es| - 1], ql, k);
    }
  }

  /** Items that are not objects with a "content" key never yield a result. */
  lemma {:induction false} HallazgosSinRegistros(categoria: string, tipo: string, es: seq<Elemento>, ql: string)
    requires forall i :: 0 <= i < |es| ==> !es[i].Registro? || es[i].contenido.None?
    ensures HallazgosElementos(categoria, tipo, es, ql) == []
  {
    if es != [] {
      HallazgosSinRegistros(categoria, tipo, es[..|es| - 1], ql);
    }
  }

  lemma {:induction false} HallazgosCategoriaCorrectos(categoria: string, c: Categoria, ql: string)
    ensures forall h :: h in HallazgosCategoria(categoria, c, ql) ==>
      h.categoria == categoria && h.tipo in Claves(c) && Contains(Lower(h.contenido), ql)
  {
    if c != [] {
      var init, last := c[..|c| - 1], c[|c| - 1];
      HallazgosCategoriaCorrectos(categoria, init, ql);
      assert Claves(init) <= Claves(c);
      assert last.0 == Claves(c)[|c| - 1];
      if last.1.Lista? {
        HallazgosElementosCorrectos(categoria, last.0, last.1.elementos, ql);
      }
    }
  }

  /**
    Every search result names a category and one of its types, and its content
    contains the query, ignoring case.
   */
  lemma {:induction false} HallazgosCorrectos(b: Base, ql: string)
    ensures forall h :: h in Hallazgos(b, ql) ==>
      h.categoria in Claves(b) && Contains(Lower(h.contenido), ql)
  {
    if b != [] {
      var init, last := b[..|b| - 1], b[|b| - 1];
      HallazgosCorrectos(init, ql);
      assert Claves(init) <= Claves(b);
      assert last.0 == Claves(b)[|b| - 1];
      HallazgosCategoriaCorrectos(last.0, last.1, ql);
    }
  }

  lemma {:induction false} HallazgosCategoriaCompletos(categoria: string, c: Categoria, ql: string, j: nat, h: Hallazgo)
    requires j < |c| && h in HallazgosValor(categoria, c[j].0, c[j].1, ql)
    ensures h in HallazgosCategoria(categoria, c, ql)
  {
    if j < |c| - 1 {
      HallazgosCategoriaCompletos(categoria, c[..|c| - 1], ql, j, h);
    }
  }

  /**
    Nothing that matches is missed: an object entry of a list, or a string-valued
    type, whose content contains the query yields a result carrying its category,
    type, content, and its source and date (empty when absent).
   */
  lemma {:induction false} HallazgosCompletos(b: Base, ql: string, i: nat, j: nat)
    requires i < |b| && j < |b[i].1|
    ensures var (cat, (tipo, v)) := (b[i].0, b[i].1[j]);
      && (v.Texto? && Contains(Lower(v.texto), ql) ==> Hallazgo(cat, tipo, v.texto, "", "") in Hallazgos(b, ql))
      && (forall k :: v.Lista? && 0 <= k < |v.elementos| && v.elementos[k].Registro? && v.elementos[k].contenido.Some?
                      && Contains(Lower(v.elementos[k].contenido.value), ql) ==>
            Hallazgo(cat, tipo, v.elementos[k].contenido.value, v.elementos[k].fuente.GetOr(""),
                     v.elementos[k].fecha.GetOr("")) in Hallazgos(b, ql))
  {
    var cat, tipo, v := b[i].0, b[i].1[j].0, b[i].1[j].1;
    if v.Texto? && Contains(Lower(v.texto), ql) {
      HallazgoEnBase(b, ql, i, j, Hallazgo(cat, tipo, v.texto, "", ""));
    }
    forall k | v.Lista? && 0 <= k < |v.elementos| && v.elementos[k].Registro? && v.elementos[k].contenido.Some?
               && Contains(Lower(v.elementos[k].contenido.value), ql)
      ensures Hallazgo(cat, tipo, v.elementos[k].contenido.value, v.elementos[k].fuente.GetOr(""),
                       v.elementos[k].fecha.GetOr("")) in Hallazgos(b, ql)
    {
      HallazgosElementosCompletos(cat, tipo, v.elementos, ql, k);
      HallazgoEnBase(b, ql, i, j, Hallazgo(cat, tipo, v.elementos[k].contenido.value, v.elementos[k].fuente.GetOr(""),
                                           v.elementos[k].fecha.GetOr("")));
    }
  }

  lemma {:induction false} HallazgoEnBase(b: Base, ql: string, i: nat, j: nat, h: Hallazgo)
    requires i < |b| && j < |b[i].1| && h in HallazgosValor(b[i].0, b[i].1[j].0, b[i].1[j].1, ql)
    ensures h in Hallazgos(b, ql)
  {
    if i < |b| - 1 {
      HallazgoEnBase(b[..|b| - 1], ql, i, j, h);
    } else {
      HallazgosCategoriaCompletos(b[i].0, b[i].1, ql, j, h);
    }
  }

  /**
    On the default base only the seeded "concepto" string can match: every seeded
    list holds plain strings, which search never returns.
   */
  lemma HallazgosPorDefecto(ql: string)
    ensures Hallazgos(PorDefecto, ql) ==
      (if Contains(Lower(Semilla.Concepto), ql)
       then [Hallazgo("contrato_realidad", "concepto", Semilla.Concepto, "", "")] else [])
  {
    var b := PorDefecto;
    forall xs: seq<string> ensures SinRegistros(Lista(Cadenas(xs))) {
    }
    assert forall i, j :: 0 <= i < |b| && 0 <= j < |b[i].1| && (i, j) != (0, 0) ==> SinRegistros(b[i].1[j].1);
    HallazgosSoloPrimero(b, ql);
  }

  /** When every type but the first type of the first category holds no objects, only that first type can match. */
  lemma HallazgosSoloPrimero(b: Base, ql: string)
    requires |b| == 3 && b[0].1 != []
    requires forall i, j :: 0 <= i < |b| && 0 <= j < |b[i].1| && (i, j) != (0, 0) ==> SinRegistros(b[i].1[j].1)
    ensures Hallazgos(b, ql) == HallazgosValor(b[0].0, b[0].1[0].0, b[0].1[0].1, ql)
  {
    HallazgosCategoriaPrimero(b[0].0, b[0].1, ql);
    HallazgosCategoriaVacia(b[1].0, b[1].1, ql);
    HallazgosCategoriaVacia(b[2].0, b[2].1, ql);
    var b1, b2 := b[..1], b[..2];
    assert b2[..1] == b1 && b2[1] == b[1] && b[..|b| - 1] == b2 && b1[..0] == [] && b1[0] == b[0];
    assert Hallazgos(b1, ql) == HallazgosCategoria(b[0].0, b[0].1, ql);
    assert Hallazgos(b2, ql) == Hallazgos(b1, ql) + HallazgosCategoria(b[1].0, b[1].1, ql);
  }

  /** A type whose list holds no object with a "content" key. */
  predicate SinRegistros(v: Valor)
  {
    v.Lista? && forall k :: 0 <= k < |v.elementos| ==> !v.elementos[k].Registro? || v.elementos[k].contenido.None?
  }

  lemma {:induction false} HallazgosCategoriaVacia(categoria: string, c: Categoria, ql: string)
    requires forall j :: 0 <= j < |c| ==> SinRegistros(c[j].1)
    ensures HallazgosCategoria(categoria, c, ql) == []
  {
    if c != [] {
      HallazgosCategoriaVacia(categoria, c[..|c| - 1], ql);
      HallazgosSinRegistros(categoria, c[|c| - 1].0, c[|c| - 1].1.elementos, ql);
    }
  }

  lemma {:induction false} HallazgosCategoriaPrimero(categoria: string, c: Categoria, ql: string)
    requires c != [] && forall j :: 1 <= j < |c| ==> SinRegistros(c[j].1)
    ensures HallazgosCategoria(categoria, c, ql) == HallazgosValor(categoria, c[0].0, c[0].1, ql)
  {
    if |c| > 1 {
      HallazgosCategoriaPrimero(categoria, c[..|c| - 1], ql);
      HallazgosSinRegistros(categoria, c[|c| - 1].0, c[|c| - 1].1.elementos, ql);
    }
  }

  /** Results follow category order: the results of a base are those of its first categories, then the rest. */
  lemma {:induction false} HallazgosConcat(a: Base, b: Base, ql: string)
    ensures Hallazgos(a + b, ql) == Hallazgos(a, ql) + Hallazgos(b, ql)
    decreases |b|
  {
    if b == [] {
      assert a + b == a;
    } else {
      var init, x := b[..|b| - 1], b[|b| - 1];
      assert (a + b)[..|a + b| - 1] == a + init && (a + b)[|a + b| - 1] == x;
      var hx := HallazgosCategoria(x.0, x.1, ql);
      assert Hallazgos(a + b, ql) == Hallazgos(a + init, ql) + hx;
      HallazgosConcat(a, init, ql);
      assert Hallazgos(b, ql) == Hallazgos(init, ql) + hx;
    }
  }

  /** The loop of `search_knowledge` over the types of one category. */
  method BuscarCategoria(categoria: string, c: Categoria, ql: string) returns (results: seq<Hallazgo>)
    ensures results == HallazgosCategoria(categoria, c, ql)
  {
    results := [];
    for j := 0 to |c|
      invariant results == HallazgosCategoria(categoria, c[..j], ql)
    {
      var r := BuscarValor(categoria, c[j].0, c[j].1, ql);
      assert c[..j + 1][..j] == c[..j] && c[..j + 1][j] == c[j];
      results := results + r;
    }
    assert c[..|c|] == c;
  }

  /** The loop of `search_knowledge` over one type: each list item, or the string itself. */
  method BuscarValor(categoria: string, tipo: string, v: Valor, ql: string) returns (results: seq<Hallazgo>)
    ensures results == HallazgosValor(categoria, tipo, v, ql)
  {
    results := [];
    match v {
      case Lista(es) =>
        for k := 0 to |es|
          invariant results == HallazgosElementos(categoria, tipo, es[..k], ql)
        {
          match es[k] {
            case Registro(Some(contenido), fuente, fecha) =>
              if Contains(Lower(contenido), ql) {
                results := results + [Hallazgo(categoria, tipo, contenido, fuente.GetOr(""), fecha.GetOr(""))];
              }
            case _ =>
          }
          assert es[..k + 1][..k] == es[..k] && es[..k + 1][k] == es[k];
        }
        assert es[..|es|] == es;
      case Texto(s) =>
        if Contains(Lower(s), ql) {
          results := [Hallazgo(categoria, tipo, s, "", "")];
        }
      case OtroValor =>
    }
  }

  // ---------------------------------------------------------------------------
  // The manager

  class LegalKnowledgeManager {
    /** `knowledge_base`. */
    var knowledgeBase: Base

    ghost predicate Valid()
      reads this
    {
      BienFormada(knowledgeBase)
    }

    /** `LegalKnowledgeManager()`: the loaded base, or the default when the file is missing or unreadable. */
    constructor(cargada: Option<Base>)
      requires cargada.Some? ==> BienFormada(cargada.value)
      ensures Valid()
      ensures knowledgeBase == if cargada.Some? then cargada.value else PorDefecto
    {
      match cargada
      case Some(b) =>
        knowledgeBase := b;
      case None =>
        PorDefectoCategorias();
        knowledgeBase := PorDefecto;
    }

    /**
      `add_legal_document(category, doc_type, content, source)`: `None` when the append
      raises (the base is unchanged), otherwise the outcome of saving.
     */
    method AddLegalDocument(category: string, docType: string, content: string, source: string,
                            ahora: string, guardado: bool) returns (r: Option<bool>)
      requires Valid()
      modifies this
      ensures Valid()
      ensures var nueva := Agregar(old(knowledgeBase), category, docType, Registro(Some(content), Some(source), Some(ahora)));
        && (nueva.None? ==> r.None? && knowledgeBase == old(knowledgeBase))
        && (nueva.Some? ==> r == Some(guardado) && knowledgeBase == nueva.value)
    {
      var e := Registro(Some(content), Some(source), Some(ahora));
      AgregarEfecto(knowledgeBase, category, docType, e);
      // A missing category or type starts out empty; nothing is stored unless the append succeeds.
      var c := Obtener(knowledgeBase, category).GetOr([]);
      var v := Obtener(c, docType).GetOr(Lista([]));
      if !v.Lista? {
        return None;
      }
      knowledgeBase := Asignar(knowledgeBase, category, Asignar(c, docType, Lista(v.elementos + [e])));
      r := Some(guardado);
    }

    /** `get_knowledge_categories()`: the categories in insertion order. */
    method GetKnowledgeCategories() returns (r: seq<string>)
      ensures |r| == |knowledgeBase| && forall i :: 0 <= i < |r| ==> r[i] == knowledgeBase[i].0
    {
      r := Claves(knowledgeBase);
    }

    /** `get_document_types(category)`: the category's types in order, or nothing for an unknown category. */
    method GetDocumentTypes(category: string) returns (r: seq<string>)
      requires Valid()
      ensures category !in Claves(knowledgeBase) ==> r == []
      ensures forall i :: 0 <= i < |knowledgeBase| && knowledgeBase[i].0 == category ==>
                r == Claves(knowledgeBase[i].1)
    {
      match Obtener(knowledgeBase, category)
      case Some(c) =>
        r := Claves(c);
        forall i | 0 <= i < |knowledgeBase| && knowledgeBase[i].0 == category
          ensures c == knowledgeBase[i].1
        {
          ObtenerUnica(knowledgeBase, i);
        }
      case None =>
        r := [];
    }

    /** `search_knowledge(query)`. */
    method SearchKnowledge(query: string) returns (results: seq<Hallazgo>)
      ensures results == Hallazgos(knowledgeBase, Lower(query))
    {
      var ql := Lower(query);
      var b := knowledgeBase;
      results := [];
      for i := 0 to |b|
        invariant results == Hallazgos(b[..i], ql)
      {
        var r := BuscarCategoria(b[i].0, b[i].1, ql);
        assert b[..i + 1][..i] == b[..i] && b[..i + 1][i] == b[i];
        results := results + r;
      }
      assert b[..|b|] == b;
    }

    /**
      `import_knowledge_base(json_data)` given the parse: a failed parse answers false
      and keeps the base; a successful one replaces the whole base and answers the
      outcome of saving.
     */
    method ImportKnowledgeBase(parsed: Option<Base>, guardado: bool) returns (ok: bool)
      requires Valid()
      requires parsed.Some? ==> BienFormada(parsed.value)
      modifies this
      ensures Valid()
      ensures parsed.None? ==> !ok && knowledgeBase == old(knowledgeBase)
      ensures parsed.Some? ==> knowledgeBase == parsed.value && ok == guardado
    {
      match parsed
      case None =>
        ok := false;
      case Some(nueva) =>
        knowledgeBase := nueva;
        ok := guardado;
    }
  }
}
