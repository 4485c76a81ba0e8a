/**
  `VectorLegalRAG`, the semantic retriever: a fixed corpus of twelve documents, an
  embedding cache that remembers only successful embeddings, a stable descending
  sort by similarity cut to the top `k`, and a strict similarity threshold.

  The embedding service is the function `embed` (the empty vector stands for a
  failed call) and the similarity is the function `cosine`; the cache is keyed by
  the text itself rather than by its MD5 digest.
 */
module VectorRag {
  import opened Wrappers
  import opened Text
  import opened Generation

  datatype Metadatos = Metadatos(tipo: string, fuente: string, categoria: string)

  /** One corpus entry: `{"id", "content", "metadata"}`. */
  datatype Documento = Documento(id: string, content: string, metadata: Metadatos)

  /** One `(doc, similarity)` pair of `semantic_search`. */
  datatype Puntuado = Puntuado(doc: Documento, similitud: real)

  /** One entry of `retrieve_relevant_documents`: `{"contenido", "metadata", "similarity"}`. */
  datatype Relevante = Relevante(contenido: string, metadata: Metadatos, similitud: real)

  /** `_load_legal_documents()`. */
  const Corpus: seq<Documento> := [
    Documento("contrato_realidad_concepto",
      "El contrato realidad es una figura jurídica que permite reconocer una relación laboral cuando existe una relación de trabajo subordinado pero se ha disfrazado bajo otra figura contractual como prestación de servicios, contrato civil o comercial.",
      Metadatos("concepto", "Doctrina legal", "contrato_realidad")),
    Documento("subordinacion_juridica",
      "La subordinación jurídica es el elemento esencial del contrato de trabajo. Se manifiesta cuando el trabajador está sometido a las órdenes, dirección y control del empleador en la prestación del servicio.",
      Metadatos("elemento", "Código Sustantivo del Trabajo Art. 23", "contrato_realidad")),
    Documento("prestacion_personal",
      "La prestación personal del servicio significa que el trabajador debe realizar personalmente la labor contratada, sin poder delegarla a terceros, salvo autorización expresa del empleador.",
      Metadatos("elemento", "Código Sustantivo del Trabajo", "contrato_realidad")),
    Documento("continuidad_servicio",
      "La continuidad en la prestación del servicio implica que la relación laboral se mantiene de manera estable y permanente, no ocasional o esporádica.",
      Metadatos("elemento", "Jurisprudencia Corte Constitucional", "contrato_realidad")),
    Documento("remuneracion_periodica",
      "La remuneración periódica es el pago regular que recibe el trabajador por su labor, que puede ser salario, comisiones, bonificaciones u otras formas de retribución.",
      Metadatos("elemento", "Código Sustantivo del Trabajo", "contrato_realidad")),
    Documento("sentencia_c614_2009",
      "La Sentencia C-614 de 2009 de la Corte Constitucional establece que el contrato realidad busca proteger al trabajador cuando se simula una relación contractual diferente a la laboral para evadir las obligaciones legales.",
      Metadatos("jurisprudencia", "Corte Constitucional", "contrato_realidad")),
    Documento("articulo_23_cst",
      "Artículo 23 del Código Sustantivo del Trabajo: 'Contrato de trabajo es aquel por el cual una persona natural se obliga a prestar un servicio personal a otra persona natural o jurídica, bajo la continuada dependencia o subordinación de la segunda y mediante remuneración.'",
      Metadatos("normativa", "Código Sustantivo del Trabajo", "normativa_laboral")),
    Documento("articulo_25_cst",
      "Artículo 25 del CST: 'Se presume que toda relación de trabajo personal está regida por un contrato de trabajo.'",
      Metadatos("normativa", "Código Sustantivo del Trabajo", "normativa_laboral")),
    Documento("principio_proteccion",
      "El principio de protección al trabajador establece que en caso de duda sobre la naturaleza de la relación contractual, debe interpretarse a favor del trabajador.",
      Metadatos("principio", "Derecho Laboral Colombiano", "principios_laborales")),
    Documento("principio_realidad",
      "El principio de realidad sobre las formas establece que la verdadera naturaleza de la relación laboral debe determinarse por los hechos reales y no por la denominación que las partes le hayan dado.",
      Metadatos("principio", "Derecho Laboral Colombiano", "principios_laborales")),
    Documento("requisitos_demanda",
      "Los requisitos de una demanda laboral incluyen: competencia del juez laboral, identificación clara de las partes, narración de hechos, pretensiones específicas, fundamentos jurídicos, medios de prueba y petición final.",
      Metadatos("proceso", "Código de Procedimiento Laboral", "proceso_laboral")),
    Documento("prescripcion_laboral",
      "La prescripción ordinaria en materia laboral es de 3 años, contados desde el día siguiente a la terminación del contrato de trabajo.",
      Metadatos("plazo", "Código de Procedimiento Laboral", "proceso_laboral"))
  ]

  /** The corpus has twelve entries and no two share an id. */
  lemma CorpusIdsDistintos()
    ensures |Corpus| == 12
    ensures forall i, j :: 0 <= i < j < |Corpus| ==> Corpus[i].id != Corpus[j].id
  {
  }

  // ---------------------------------------------------------------------------
  // Ranking: `similarities.sort(key=lambda x: x[1], reverse=True)` is stable

  predicate NoCreciente(xs: seq<Puntuado>)
  {
    forall i, j :: 0 <= i < j < |xs| ==> xs[i].similitud >= xs[j].similitud
  }

  /** Places `x` after every entry whose similarity is at least its own. */
  function Insertar(xs: seq<Puntuado>, x: Puntuado): (r: seq<Puntuado>)
    ensures |r| == |xs| + 1
    ensures multiset(r) == multiset(xs) + multiset{x}
  {
    if xs == [] then [x]
    else if xs[0].similitud < x.similitud then [x] + xs
    else
      assert xs == [xs[0]] + xs[1..];
      [xs[0]] + Insertar(xs[1..], x)
  }

  /** The stable descending sort: entries inserted one by one in their original order. */
  function OrdenarDesc(xs: seq<Puntuado>): (r: seq<Puntuado>)
    ensures |r| == |xs|
  {
    if xs == [] then [] else Insertar(OrdenarDesc(xs[..|xs| - 1]), xs[|xs| - 1])
  }

  lemma {:induction false} InsertarOrdenado(xs: seq<Puntuado>, x: Puntuado)
    requires NoCreciente(xs)
    ensures NoCreciente(Insertar(xs, x))
    ensures Insertar(xs, x)[0] == x || (xs != [] && Insertar(xs, x)[0] == xs[0])
  {
    if xs != [] && xs[0].similitud >= x.similitud {
      InsertarOrdenado(xs[1..], x);
      var r := Insertar(xs, x);
      assert r == [xs[0]] + Insertar(xs[1..], x);
      forall i, j | 0 <= i < j < |r| ensures r[i].similitud >= r[j].similitud {
        if i == 0 {
          var t := Insertar(xs[1..], x);
          assert r[j] == t[j - 1];
          if j - 1 > 0 {
            assert t[0].similitud >= t[j - 1].similitud;
          }
          assert t[0] == x || t[0] == xs[1];
        }
      }
    }
  }

  /** The result of the sort is in non-increasing similarity order. */
  lemma {:induction false} OrdenarDescOrdenado(xs: seq<Puntuado>)
    ensures NoCreciente(OrdenarDesc(xs))
  {
    if xs != [] {
      OrdenarDescOrdenado(xs[..|xs| - 1]);
      InsertarOrdenado(OrdenarDesc(xs[..|xs| - 1]), xs[|xs| - 1]);
    }
  }

  /** The result of the sort is a permutation of its input. */
  lemma {:induction false} OrdenarDescPermutacion(xs: seq<Puntuado>)
    ensures multiset(OrdenarDesc(xs)) == multiset(xs)
  {
    if xs != [] {
      OrdenarDescPermutacion(xs[..|xs| - 1]);
      assert xs == xs[..|xs| - 1] + [xs[|xs| - 1]];
    }
  }

  /** The entries whose similarity is exactly `k`, in order. */
  function ConSimilitud(xs: seq<Puntuado>, k: real): seq<Puntuado>
  {
    if xs == [] then []
    else (if xs[0].similitud == k then [xs[0]] else []) + ConSimilitud(xs[1..], k)
  }

  lemma {:induction false} ConSimilitudConcat(a: seq<Puntuado>, b: seq<Puntuado>, k: real)
    ensures ConSimilitud(a + b, k) == ConSimilitud(a, k) + ConSimilitud(b, k)
  {
    if a != [] {
      assert (a + b)[1..] == a[1..] + b;
      ConSimilitudConcat(a[1..], b, k);
    } else {
      assert a + b == b;
    }
  }

  lemma {:induction false} ConSimilitudMenores(xs: seq<Puntuado>, k: real)
    requires forall i :: 0 <= i < |xs| ==> xs[i].similitud < k
    ensures ConSimilitud(xs, k) == []
  {
    if xs != [] {
      ConSimilitudMenores(xs[1..], k);
    }
  }

  lemma NoCrecienteCola(xs: seq<Puntuado>)
    requires NoCreciente(xs) && xs != []
    ensures NoCreciente(xs[1..])
  {
  }

  /** `x` goes in front of a list whose head is less similar: it has no entry as similar as `x`. */
  lemma InsertarAlFrente(xs: seq<Puntuado>, x: Puntuado, k: real)
    requires NoCreciente(xs) && xs != [] && xs[0].similitud < x.similitud
    ensures ConSimilitud(Insertar(xs, x), k) == ConSimilitud(xs, k) + (if x.similitud == k then [x] else [])
  {
    var r := [x] + xs;
    assert Insertar(xs, x) == r;
    assert r[1..] == xs;
    if x.similitud == k {
      ConSimilitudMenores(xs, k);
    }
  }

  /** `x` goes behind the head: the head keeps its place in front of it. */
  lemma InsertarDetras(xs: seq<Puntuado>, x: Puntuado, k: real)
    requires xs != [] && xs[0].similitud >= x.similitud
    requires ConSimilitud(Insertar(xs[1..], x), k) == ConSimilitud(xs[1..], k) + (if x.similitud == k then [x] else [])
    ensures ConSimilitud(Insertar(xs, x), k) == ConSimilitud(xs, k) + (if x.similitud == k then [x] else [])
  {
    var t := Insertar(xs[1..], x);
    var r := Insertar(xs, x);
    assert r == [xs[0]] + t;
    assert r[0] == xs[0] && r[1..] == t;
  }

  lemma {:induction false} InsertarEstable(xs: seq<Puntuado>, x: Puntuado, k: real)
    requires NoCreciente(xs)
    ensures ConSimilitud(Insertar(xs, x), k) == ConSimilitud(xs, k) + (if x.similitud == k then [x] else [])
  {
    if xs == [] {
      assert Insertar(xs, x) == [x];
      assert [x][1..] == [];
    } else if xs[0].similitud < x.similitud {
      InsertarAlFrente(xs, x, k);
    } else {
      NoCrecienteCola(xs);
      InsertarEstable(xs[1..], x, k);
      InsertarDetras(xs, x, k);
    }
  }

  /** Stability: entries with equal similarity keep their original relative order. */
  lemma {:induction false} OrdenarDescEstable(xs: seq<Puntuado>, k: real)
    ensures ConSimilitud(OrdenarDesc(xs), k) == ConSimilitud(xs, k)
  {
    if xs != [] {
      var init, last := xs[..|xs| - 1], xs[|xs| - 1];
      var e := if last.similitud == k then [last] else [];
      calc {
        ConSimilitud(OrdenarDesc(xs), k);
        == { OrdenarDescPaso(xs, k); }
        ConSimilitud(OrdenarDesc(init), k) + e;
        == { OrdenarDescEstable(init, k); }
        ConSimilitud(init, k) + e;
        == { ConSimilitudSnoc(init, last, k); assert init + [last] == xs; }
        ConSimilitud(xs, k);
      }
    }
  }

  /** Sorting one more entry inserts it behind every earlier entry of the same similarity. */
  lemma OrdenarDescPaso(xs: seq<Puntuado>, k: real)
    requires xs != []
    ensures var last := xs[|xs| - 1];
      ConSimilitud(OrdenarDesc(xs), k) == ConSimilitud(OrdenarDesc(xs[..|xs| - 1]), k) + (if last.similitud == k then [last] else [])
  {
    var s := OrdenarDesc(xs[..|xs| - 1]);
    OrdenarDescOrdenado(xs[..|xs| - 1]);
    InsertarEstable(s, xs[|xs| - 1], k);
  }

  lemma ConSimilitudSnoc(xs: seq<Puntuado>, x: Puntuado, k: real)
    ensures ConSimilitud(xs + [x], k) == ConSimilitud(xs, k) + (if x.similitud == k then [x] else [])
  {
    ConSimilitudConcat(xs, [x], k);
    assert [x][1..] == [];
  }

  // ---------------------------------------------------------------------------
  // Search and retrieval as functions of the services

  /** Python's `xs[:k]`. */
  function Primeros<T>(xs: seq<T>, k: nat): (r: seq<T>)
    ensures |r| <= k && |r| <= |xs| && r == xs[..|r|]
    ensures |xs| <= k ==> r == xs
  {
    if |xs| <= k then xs else xs[..k]
  }

  /** The scored documents, in corpus order, skipping those whose embedding failed. */
  function Puntuar(qe: seq<real>, ds: seq<Documento>, embed: string -> seq<real>,
                   cosine: (seq<real>, seq<real>) -> real): (r: seq<Puntuado>)
    ensures |r| <= |ds|
    ensures forall p :: p in r ==> p.doc in ds && embed(p.doc.content) != []
  {
    if ds == [] then []
    else
      var d := ds[|ds| - 1];
      var e := embed(d.content);
      Puntuar(qe, ds[..|ds| - 1], embed, cosine) + (if e != [] then [Puntuado(d, cosine(qe, e))] else [])
  }

  /** `semantic_search(query, top_k)` over the documents `ds`. */
  function Busqueda(query: string, topK: nat, ds: seq<Documento>, embed: string -> seq<real>,
                    cosine: (seq<real>, seq<real>) -> real): seq<Puntuado>
  {
    var qe := embed(query);
    if qe == [] then [] else Primeros(OrdenarDesc(Puntuar(qe, ds, embed, cosine)), topK)
  }

  /** The similarity threshold of `retrieve_relevant_documents`. */
  const Umbral: real := 0.3

  function AsRelevante(p: Puntuado): Relevante
  {
    Relevante(p.doc.content, p.doc.metadata, p.similitud)
  }

  /** The entries above the threshold, in order. */
  function SobreUmbral(ps: seq<Puntuado>): (r: seq<Relevante>)
    ensures |r| <= |ps|
    ensures forall x :: x in r ==> x.similitud > Umbral
  {
    if ps == [] then []
    else
      var p := ps[|ps| - 1];
      SobreUmbral(ps[..|ps| - 1]) + (if p.similitud > Umbral then [AsRelevante(p)] else [])
  }

  /** `f"{query} {context}".strip()`. */
  function ConsultaBusqueda(query: string, context: string): string
  {
    Strip(query + " " + context)
  }

  /** `retrieve_relevant_documents(query, context)` over the documents `ds`. */
  function Recuperados(query: string, context: string, ds: seq<Documento>, embed: string -> seq<real>,
                       cosine: (seq<real>, seq<real>) -> real): seq<Relevante>
  {
    SobreUmbral(Busqueda(ConsultaBusqueda(query, context), 5, ds, embed, cosine))
  }

  function Citas(rs: seq<Relevante>): (cs: seq<Cita>)
    ensures |cs| == |rs|
    ensures forall i :: 0 <= i < |rs| ==> cs[i] == Cita(rs[i].contenido, rs[i].metadata.fuente)
  {
    seq(|rs|, i requires 0 <= i < |rs| => Cita(rs[i].contenido, rs[i].metadata.fuente))
  }

  /** The request `generate_rag_response` sends. */
  function PeticionVectorial(query: string, context: string, adicional: string, ds: seq<Documento>,
                             embed: string -> seq<real>, cosine: (seq<real>, seq<real>) -> real): Peticion
  {
    ConsultaRag(true, query, context, BloqueInformacion(Citas(Recuperados(query, context, ds, embed, cosine))), adicional)
  }

  /** `generate_rag_response` over the documents `ds`. */
  function RespuestaSobre(query: string, context: string, adicional: string, ds: seq<Documento>, o: Oraculos): string
  {
    RespuestaRag(o.llm(PeticionVectorial(query, context, adicional, ds, o.embed, o.cosine)))
  }

  /** `generate_rag_response` on the corpus: the stripped answer, or the fixed error text when the call raised. */
  function Respuesta(query: string, context: string, adicional: string, o: Oraculos): string
  {
    RespuestaSobre(query, context, adicional, Corpus, o)
  }

  /**
    The search result: nothing when the query's embedding failed; otherwise at most
    `topK` scored documents, best first, and no scored document left out ranks above
    any that was kept.
   */
  lemma BusquedaRanking(query: string, topK: nat, ds: seq<Documento>, embed: string -> seq<real>,
                        cosine: (seq<real>, seq<real>) -> real)
    ensures var b := Busqueda(query, topK, ds, embed, cosine);
      && (embed(query) == [] ==> b == [])
      && |b| <= topK
      && NoCreciente(b)
      && (forall p :: p in b ==> p.doc in ds && embed(p.doc.content) != [])
      && (embed(query) != [] ==>
            var ps := Puntuar(embed(query), ds, embed, cosine);
            && |b| == (if |ps| <= topK then |ps| else topK)
            && (forall p, q :: p in ps && p !in b && q in b ==> q.similitud >= p.similitud))
  {
    var qe := embed(query);
    if qe != [] {
      var ps := Puntuar(qe, ds, embed, cosine);
      var sorted := OrdenarDesc(ps);
      var b := Busqueda(query, topK, ds, embed, cosine);
      OrdenarDescOrdenado(ps);
      OrdenarDescPermutacion(ps);
      assert b == sorted[..|b|];
      PrefijoDeRanking(ps, sorted, |b|);
    }
  }

  /** A prefix of a sorted permutation of `ps` holds entries of `ps`, and nothing of `ps` left out outranks them. */
  lemma PrefijoDeRanking(ps: seq<Puntuado>, sorted: seq<Puntuado>, n: nat)
    requires NoCreciente(sorted) && multiset(sorted) == multiset(ps) && n <= |sorted|
    ensures forall p :: p in sorted[..n] ==> p in ps
    ensures forall p, q :: p in ps && p !in sorted[..n] && q in sorted[..n] ==> q.similitud >= p.similitud
  {
    var b := sorted[..n];
    forall p | p in b ensures p in ps {
      assert p in multiset(sorted);
    }
    forall p, q | p in ps && p !in b && q in b ensures q.similitud >= p.similitud {
      assert p in multiset(sorted);
      var j :| 0 <= j < |sorted| && sorted[j] == p;
      var i :| 0 <= i < |b| && b[i] == q;
      assert forall m :: 0 <= m < n ==> sorted[m] == b[m];
    }
  }

  /**
    On a ranking, the entries kept by the threshold are exactly its leading entries:
    the first `|r|` entries, each above the threshold, and none after them.
   */
  lemma {:induction false} SobreUmbralPrefijo(ps: seq<Puntuado>)
    requires NoCreciente(ps)
    ensures var r := SobreUmbral(ps);
      && (forall i :: 0 <= i < |r| ==> r[i] == AsRelevante(ps[i]))
      && (forall i :: |r| <= i < |ps| ==> ps[i].similitud <= Umbral)
  {
    if ps != [] {
      var init := ps[..|ps| - 1];
      assert NoCreciente(init);
      SobreUmbralPrefijo(init);
    }
  }

  /**
    What the retriever passes to the prompt: at most five entries, each above the
    threshold, each a document of the collection whose embedding succeeded, taken from
    the front of the search result.
   */
  lemma RecuperadosAcotados(query: string, context: string, ds: seq<Documento>,
                            embed: string -> seq<real>, cosine: (seq<real>, seq<real>) -> real)
    ensures var r := Recuperados(query, context, ds, embed, cosine);
      var b := Busqueda(ConsultaBusqueda(query, context), 5, ds, embed, cosine);
      && |r| <= 5
      && |r| <= |b|
      && (forall i :: 0 <= i < |r| ==> r[i] == AsRelevante(b[i]) && r[i].similitud > Umbral)
      && (forall i :: |r| <= i < |b| ==> b[i].similitud <= Umbral)
      && (forall x :: x in r ==> exists d :: d in ds && embed(d.content) != [] && x.contenido == d.content && x.metadata == d.metadata)
  {
    var b := Busqueda(ConsultaBusqueda(query, context), 5, ds, embed, cosine);
    var r := Recuperados(query, context, ds, embed, cosine);
    BusquedaRanking(ConsultaBusqueda(query, context), 5, ds, embed, cosine);
    SobreUmbralPrefijo(b);
    forall x | x in r
      ensures exists d :: d in ds && embed(d.content) != [] && x.contenido == d.content && x.metadata == d.metadata
    {
      var i :| 0 <= i < |r| && r[i] == x;
      assert b[i] in b;
    }
  }

  // ---------------------------------------------------------------------------
  // The embedding cache

  /** The cache after looking up `t`: a miss whose embedding succeeds is remembered. */
  function Anotar(c: map<string, seq<real>>, t: string, embed: string -> seq<real>): map<string, seq<real>>
  {
    if t in c || embed(t) == [] then c else c[t := embed(t)]
  }

  /** The cache after looking up each of `ts` in order. */
  function AnotarTodos(c: map<string, seq<real>>, ts: seq<string>, embed: string -> seq<real>): map<string, seq<real>>
  {
    if ts == [] then c else Anotar(AnotarTodos(c, ts[..|ts| - 1], embed), ts[|ts| - 1], embed)
  }

  /** How many of the lookups of `ts`, in order, miss the cache and so call the service. */
  function Fallos(c: map<string, seq<real>>, ts: seq<string>, embed: string -> seq<real>): nat
  {
    if ts == [] then 0
    else Fallos(c, ts[..|ts| - 1], embed) + (if ts[|ts| - 1] in AnotarTodos(c, ts[..|ts| - 1], embed) then 0 else 1)
  }

  function Contenidos(ds: seq<Documento>): (r: seq<string>)
    ensures |r| == |ds|
    ensures forall i :: 0 <= i < |ds| ==> r[i] == ds[i].content
  {
    seq(|ds|, i requires 0 <= i < |ds| => ds[i].content)
  }

  /** The texts `semantic_search` embeds: the query, then every document unless the query failed. */
  function Consultados(query: string, ds: seq<Documento>, embed: string -> seq<real>): seq<string>
  {
    if embed(query) == [] then [query] else [query] + Contenidos(ds)
  }

  /** A cache only ever holds successful embeddings of its keys. */
  ghost predicate Coherente(c: map<string, seq<real>>, embed: string -> seq<real>)
  {
    forall t :: t in c ==> c[t] == embed(t) && c[t] != []
  }

  /** Looking texts up keeps the cache coherent, and only ever adds keys. */
  lemma {:induction false} AnotarTodosCoherente(c: map<string, seq<real>>, ts: seq<string>, embed: string -> seq<real>)
    requires Coherente(c, embed)
    ensures Coherente(AnotarTodos(c, ts, embed), embed)
    ensures forall t :: t in c ==> t in AnotarTodos(c, ts, embed)
  {
    if ts != [] {
      AnotarTodosCoherente(c, ts[..|ts| - 1], embed);
    }
  }

  /** Texts already cached cost no call and leave the cache as it was. */
  lemma {:induction false} CacheSinLlamadas(c: map<string, seq<real>>, ts: seq<string>, embed: string -> seq<real>)
    requires forall i :: 0 <= i < |ts| ==> ts[i] in c
    ensures Fallos(c, ts, embed) == 0
    ensures AnotarTodos(c, ts, embed) == c
  {
    if ts != [] {
      CacheSinLlamadas(c, ts[..|ts| - 1], embed);
    }
  }

  /** After a search every successfully embedded text it looked up is cached, so repeating it costs nothing. */
  lemma {:induction false} AnotarTodosRecuerda(c: map<string, seq<real>>, ts: seq<string>, embed: string -> seq<real>)
    ensures forall i :: 0 <= i < |ts| && embed(ts[i]) != [] ==> ts[i] in AnotarTodos(c, ts, embed)
    ensures forall t :: t in c ==> t in AnotarTodos(c, ts, embed)
  {
    if ts != [] {
      AnotarTodosRecuerda(c, ts[..|ts| - 1], embed);
    }
  }

  /** One more document looked up after the query and the first `i`. */
  lemma PasoConsultados(query: string, ds: seq<Documento>, i: nat)
    requires i < |ds|
    ensures [query] + Contenidos(ds[..i + 1]) == ([query] + Contenidos(ds[..i])) + [ds[i].content]
  {
    assert Contenidos(ds[..i + 1]) == Contenidos(ds[..i]) + [ds[i].content];
  }

  /** The cache and the call count after one more lookup. */
  lemma PasoCache(c: map<string, seq<real>>, ts: seq<string>, t: string, embed: string -> seq<real>)
    ensures AnotarTodos(c, ts + [t], embed) == Anotar(AnotarTodos(c, ts, embed), t, embed)
    ensures Fallos(c, ts + [t], embed) == Fallos(c, ts, embed) + (if t in AnotarTodos(c, ts, embed) then 0 else 1)
  {
    assert (ts + [t])[..|ts|] == ts;
  }

  /** The scores after one more document. */
  lemma PasoPuntuar(qe: seq<real>, ds: seq<Documento>, i: nat, embed: string -> seq<real>,
                    cosine: (seq<real>, seq<real>) -> real)
    requires i < |ds|
    ensures Puntuar(qe, ds[..i + 1], embed, cosine)
         == Puntuar(qe, ds[..i], embed, cosine)
            + (if embed(ds[i].content) != [] then [Puntuado(ds[i], cosine(qe, embed(ds[i].content)))] else [])
  {
    assert ds[..i + 1][..i] == ds[..i];
  }

  class VectorLegalRag {
    const documents: seq<Documento>
    /** The embeddings endpoint of `self.client`. */
    const embed: string -> seq<real>
    /** `embeddings_cache`, keyed by the text. */
    var embeddingsCache: map<string, seq<real>>
    /** How many times the embeddings endpoint has been called. */
    ghost var llamadasApi: nat

    ghost predicate Valid()
      reads this
    {
      Coherente(embeddingsCache, embed)
    }

    /** `VectorLegalRAG()`: the corpus and an empty cache. */
    constructor(embed: string -> seq<real>)
      ensures Valid()
      ensures documents == Corpus && this.embed == embed && embeddingsCache == map[] && llamadasApi == 0
    {
      documents := Corpus;
      this.embed := embed;
      embeddingsCache := map[];
      llamadasApi := 0;
    }

    /** `get_embedding(text)`: a hit answers from the cache; a miss calls the service and remembers a success. */
    method GetEmbedding(text: string) returns (v: seq<real>)
      requires Valid()
      modifies this
      ensures Valid()
      ensures v == embed(text)
      ensures text in old(embeddingsCache) ==> v == old(embeddingsCache)[text] && llamadasApi == old(llamadasApi)
      ensures text !in old(embeddingsCache) ==> llamadasApi == old(llamadasApi) + 1
      ensures embeddingsCache == Anotar(old(embeddingsCache), text, embed)
    {
      if text in embeddingsCache {
        v := embeddingsCache[text];
        return;
      }
      llamadasApi := llamadasApi + 1;
      v := embed(text);
      if v != [] {
        embeddingsCache := embeddingsCache[text := v];
      }
    }

    /** `semantic_search(query, top_k)`. */
    method SemanticSearch(query: string, topK: nat, cosine: (seq<real>, seq<real>) -> real)
      returns (res: seq<Puntuado>)
      requires Valid()
      modifies this
      ensures Valid()
      ensures res == Busqueda(query, topK, documents, embed, cosine)
      ensures embeddingsCache == AnotarTodos(old(embeddingsCache), Consultados(query, documents, embed), embed)
      ensures llamadasApi == old(llamadasApi) + Fallos(old(embeddingsCache), Consultados(query, documents, embed), embed)
    {
      ghost var c0 := embeddingsCache;
      var qe := GetEmbedding(query);
      assert [query][..0] == [];
      if qe == [] {
        return [];
      }
      var similarities: seq<Puntuado> := [];
      for i := 0 to |documents|
        invariant Valid()
        invariant similarities == Puntuar(qe, documents[..i], embed, cosine)
        invariant embeddingsCache == AnotarTodos(c0, [query] + Contenidos(documents[..i]), embed)
        invariant llamadasApi == old(llamadasApi) + Fallos(c0, [query] + Contenidos(documents[..i]), embed)
      {
        ghost var ts := [query] + Contenidos(documents[..i]);
        PasoConsultados(query, documents, i);
        PasoCache(c0, ts, documents[i].content, embed);
        PasoPuntuar(qe, documents, i, embed, cosine);
        var de := GetEmbedding(documents[i].content);
        if de != [] {
          similarities := similarities + [Puntuado(documents[i], cosine(qe, de))];
        }
      }
      assert documents[..|documents|] == documents;
      res := Primeros(OrdenarDesc(similarities), topK);
    }

    /** `retrieve_relevant_documents(query, context)`: the top five above the threshold. */
    method RetrieveRelevantDocuments(query: string, context: string, cosine: (seq<real>, seq<real>) -> real)
      returns (docs: seq<Relevante>)
      requires Valid()
      modifies this
      ensures Valid()
      ensures docs == Recuperados(query, context, documents, embed, cosine)
      ensures embeddingsCache == AnotarTodos(old(embeddingsCache), Consultados(ConsultaBusqueda(query, context), documents, embed), embed)
    {
      var searchQuery := Strip(query + " " + context);
      var results := SemanticSearch(searchQuery, 5, cosine);
      docs := [];
      for i := 0 to |results|
        invariant docs == SobreUmbral(results[..i])
      {
        assert results[..i + 1][..i] == results[..i];
        if results[i].similitud > Umbral {
          docs := docs + [Relevante(results[i].doc.content, results[i].doc.metadata, results[i].similitud)];
        }
      }
      assert results[..|results|] == results;
    }

    /** `generate_rag_response(query, context, additional_info)`. */
    method GenerateRagResponse(query: string, context: string, adicional: string,
                               cosine: (seq<real>, seq<real>) -> real, llm: Peticion -> Option<string>)
      returns (r: string)
      requires Valid()
      modifies this
      ensures Valid()
      ensures r == RespuestaSobre(query, context, adicional, documents, Oraculos(llm, embed, cosine))
      ensures embeddingsCache == AnotarTodos(old(embeddingsCache), Consultados(ConsultaBusqueda(query, context), documents, embed), embed)
    {
      var docs := RetrieveRelevantDocuments(query, context, cosine);
      var bloque := ConstruirBloqueInformacion(Citas(docs));
      r := RespuestaRag(llm(ConsultaRag(true, query, context, bloque, adicional)));
    }
  }

  // ---------------------------------------------------------------------------
  // The three wrappers, each on a fresh instance

  const ConsultaResumen := "Genera un resumen técnico jurídico de estos hechos para evaluar contrato realidad"
  const ConsultaViabilidad := "Evalúa la viabilidad jurídica de una demanda por contrato realidad, considerando los elementos del contrato de trabajo y la jurisprudencia aplicable"

  function ConsultaSeccion(seccion: string): string
  {
    "Redacta la sección '" + seccion + "' de una demanda laboral por contrato realidad, incluyendo fundamentos jurídicos y referencias legales"
  }

  function ContextoSeccion(resumen: string, concepto: string): string
  {
    "Resumen: " + resumen + "\nConcepto: " + concepto
  }

  /** `generar_resumen_vector_rag(hechos)`. */
  method GenerarResumenVectorRag(hechos: string, o: Oraculos) returns (r: string)
    ensures r == Respuesta(ConsultaResumen, hechos, "", o)
  {
    var rag := new VectorLegalRag(o.embed);
    r := rag.GenerateRagResponse(ConsultaResumen, hechos, "", o.cosine, o.llm);
  }

  /** `evaluar_viabilidad_vector_rag(hechos)`. */
  method EvaluarViabilidadVectorRag(hechos: string, o: Oraculos) returns (r: string)
    ensures r == Respuesta(ConsultaViabilidad, hechos, "", o)
  {
    var rag := new VectorLegalRag(o.embed);
    r := rag.GenerateRagResponse(ConsultaViabilidad, hechos, "", o.cosine, o.llm);
  }

  /** `generar_seccion_vector_rag(seccion, hechos, resumen, concepto, comentario)`; `hechos` is not used. */
  method GenerarSeccionVectorRag(seccion: string, resumen: string, concepto: string, comentario: string, o: Oraculos)
    returns (r: string)
    ensures r == Respuesta(ConsultaSeccion(seccion), ContextoSeccion(resumen, concepto), comentario, o)
  {
    var rag := new VectorLegalRag(o.embed);
    r := rag.GenerateRagResponse(ConsultaSeccion(seccion), ContextoSeccion(resumen, concepto), comentario, o.cosine, o.llm);
  }
}
