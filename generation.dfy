/**
  What the application asks of the language model and of the embedding service,
  and the two pieces of prompt text that several generators share: the numbered
  "relevant legal information" block of both retrievers and the user-comment block.

  The services themselves are oracles: `llm` answers a request with `Some(text)` or
  fails with `None` (the client raised), `embed` returns a vector or `[]` on failure,
  and `cosine` is the similarity the vector retriever computes.
 */
module Generation {
  import opened Wrappers
  import opened Text

  /** One chat-completion request, by the helper that builds it and the values it interpolates. */
  datatype Peticion =
      /** `LegalRAG` (`vectorial == false`) or `VectorLegalRAG` (`vectorial == true`). */
    | ConsultaRag(vectorial: bool, query: string, context: string, informacion: string, adicional: string)
      /** The summary prompt without retrieval. */
    | ResumenDirecto(hechos: string)
      /** The viability prompt without retrieval. */
    | ViabilidadDirecta(hechos: string)
      /** The section prompt without retrieval; `comentarios` is the comment block. */
    | SeccionDirecta(seccion: string, hechos: string, resumen: string, concepto: string, comentarios: string)
      /** The section prompt that carries a reference pattern or the standard guide. */
    | SeccionConReferencia(seccion: string, hechos: string, resumen: string, concepto: string,
                           contextoReferencia: string, comentarios: string)
      /** The pattern-extraction prompt of the web application (document cut to 15000 characters). */
    | AnalisisReferencia(documento: string)
      /** The pattern-extraction prompt of the command-line script (document cut to 20000 characters). */
    | AnalisisPatrones(documento: string)

  /** The external services, as functions. */
  datatype Oraculos = Oraculos(
    llm: Peticion -> Option<string>,
    embed: string -> seq<real>,
    cosine: (seq<real>, seq<real>) -> real)

  /** What both retrievers return when the chat call raises. */
  const ErrorConsulta := "Error al procesar la consulta." + " Por favor, inténtalo de nuevo."

  /** The retrievers' reply: the stripped answer, or the fixed error text when the call raised. */
  function RespuestaRag(reply: Option<string>): string
  {
    match reply
    case Some(text) => Strip(text)
    case None => ErrorConsulta
  }

  /** A direct helper's reply: the stripped answer; a failed call propagates as `None`. */
  function RespuestaDirecta(reply: Option<string>): Option<string>
  {
    match reply
    case Some(text) => Some(Strip(text))
    case None => None
  }

  /**
    A retriever always answers, and its answer never carries surrounding whitespace.
    It is the error text exactly when the call raised or the model's own reply strips
    to that text, and otherwise the model's reply, stripped. A direct helper fails
    exactly when the call raised, and otherwise answers that same stripped reply.
   */
  lemma RespuestaRagTotal(reply: Option<string>)
    ensures Strip(RespuestaRag(reply)) == RespuestaRag(reply)
    ensures RespuestaRag(reply) == ErrorConsulta <==> reply.None? || Strip(reply.value) == ErrorConsulta
    ensures reply.Some? ==> RespuestaRag(reply) == Strip(reply.value)
    ensures RespuestaDirecta(reply).None? <==> reply.None?
    ensures reply.Some? ==> RespuestaDirecta(reply) == Some(RespuestaRag(reply))
  {
    match reply
    case Some(text) =>
      StripIdempotent(text);
    case None =>
      var e := ErrorConsulta;
      assert e[0] == 'E' && e[|e| - 1] == '.';
      assert e == [] + e + [];
      StripFrame([], e, []);
  }

  // ---------------------------------------------------------------------------
  // The "relevant legal information" block

  /** One retrieved entry as the prompt cites it. */
  datatype Cita = Cita(contenido: string, fuente: string)

  const Encabezado := "\n\n" + "INFORMACIÓN LEGAL RELEVANTE:\n"

  /** The `i`-th line: `"{i}. {contenido} (Fuente: {fuente})\n"`. */
  function Linea(i: nat, c: Cita): string
  {
    Decimal(i) + ". " + c.contenido + " (Fuente: " + c.fuente + ")\n"
  }

  /** The lines for `cs`, numbered from 1 in order. */
  function Lineas(cs: seq<Cita>): string
  {
    if cs == [] then "" else Lineas(cs[..|cs| - 1]) + Linea(|cs|, cs[|cs| - 1])
  }

  /** The block: empty when nothing was retrieved, else the heading and the numbered lines. */
  function BloqueInformacion(cs: seq<Cita>): string
  {
    if cs == [] then "" else Encabezado + Lineas(cs)
  }

  /** Builds the block by appending one line per entry, as the retrievers' loops do. */
  method ConstruirBloqueInformacion(cs: seq<Cita>) returns (s: string)
    ensures s == BloqueInformacion(cs)
  {
    s := "";
    if |cs| > 0 {
      s := Encabezado;
      for i := 0 to |cs|
        invariant s == Encabezado + Lineas(cs[..i])
      {
        assert cs[..i + 1][..i] == cs[..i];
        s := s + Linea(i + 1, cs[i]);
      }
      assert cs[..|cs|] == cs;
    }
  }

  /** The block is empty exactly when nothing was retrieved. */
  lemma BloqueVacio(cs: seq<Cita>)
    ensures BloqueInformacion(cs) == "" <==> cs == []
  {
    if cs != [] {
      assert BloqueInformacion(cs)[0] == '\n';
    }
  }

  /** Lines of a longer list start with the lines of its prefix. */
  lemma {:induction false} LineasPrefijo(cs: seq<Cita>, n: nat)
    requires n <= |cs|
    ensures StartsWith(Lineas(cs), Lineas(cs[..n]))
    decreases |cs|
  {
    if n < |cs| {
      LineasPrefijo(cs[..|cs| - 1], n);
      assert cs[..|cs| - 1][..n] == cs[..n];
      var a, b := Lineas(cs[..|cs| - 1]), Lineas(cs[..n]);
      assert Lineas(cs) == a + Linea(|cs|, cs[|cs| - 1]);
      assert (a + Linea(|cs|, cs[|cs| - 1]))[..|b|] == a[..|b|];
    } else {
      assert cs[..n] == cs;
    }
  }

  /** Every retrieved entry appears in the block, on the line carrying its 1-based position. */
  lemma CitaEnBloque(cs: seq<Cita>, k: nat)
    requires k < |cs|
    ensures Contains(BloqueInformacion(cs), Linea(k + 1, cs[k]))
  {
    var rest := LineasPartidas(cs, k);
    ContieneTramo(Encabezado, Lineas(cs[..k]), Linea(k + 1, cs[k]), rest);
  }

  lemma ContieneTramo(e: string, a: string, l: string, rest: string)
    ensures Contains(e + (a + l + rest), l)
  {
    assert e + (a + l + rest) == (e + a) + l + rest;
    OccursInMiddle(e + a, l, rest);
    ContainsAt(e + (a + l + rest), l, |e + a|);
  }

  /** The lines of `cs` are those before entry `k`, then its line, then the rest. */
  lemma LineasPartidas(cs: seq<Cita>, k: nat) returns (rest: string)
    requires k < |cs|
    ensures Lineas(cs) == Lineas(cs[..k]) + Linea(k + 1, cs[k]) + rest
  {
    LineasPrefijo(cs, k + 1);
    var a, l := Lineas(cs[..k]), Linea(k + 1, cs[k]);
    assert Lineas(cs[..k + 1]) == a + l by {
      assert cs[..k + 1][..k] == cs[..k] && cs[..k + 1][k] == cs[k];
    }
    var all := Lineas(cs);
    rest := all[|a + l|..];
    assert all == all[..|a + l|] + rest;
  }

  // ---------------------------------------------------------------------------
  // The user-comment block

  const EncabezadoComentarios := "COMENTARIOS ADICIONALES DEL USUARIO:\n"

  /** The comment block that section prompts carry: present exactly when a comment was given. */
  function BloqueComentario(comentario: string): (r: string)
    ensures r == "" <==> comentario == ""
    ensures comentario != "" ==> StartsWith(r, EncabezadoComentarios) && EndsWith(r, comentario)
  {
    if comentario != "" then EncabezadoComentarios + comentario else ""
  }
}
