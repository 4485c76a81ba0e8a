/**
  Loading a case file: cleaning its text, joining the text of its pages, the
  thresholds that decide whether extracted or OCR text is usable, and the intake
  flow that hands the text to the wizard as the facts of the case.

  PDF parsing and OCR are outside the model: a page's extracted text, or an OCR
  result per page (`None` when OCR of that page raised), is given.
 */
module Expediente {
  import opened Wrappers
  import opened Text

  // ---------------------------------------------------------------------------
  // Cleaning the text

  /**
    Text in normal form: no surrounding whitespace, and every whitespace character
    is a single space followed by a non-space character.
   */
  predicate Normalizado(s: string)
  {
    && (s == [] || (!IsSpace(s[0]) && !IsSpace(s[|s| - 1])))
    && forall i :: 0 <= i < |s| && IsSpace(s[i]) ==> s[i] == ' ' && i + 1 < |s| && !IsSpace(s[i + 1])
  }

  /** What `procesar_expediente_texto` computes: the words of the text separated by single spaces. */
  function Procesado(texto: string): string
  {
    Join(" ", Words(texto))
  }

  /** Words separated by single spaces are in normal form. */
  lemma {:induction false} JoinNormalizado(ws: seq<string>)
    requires forall w :: w in ws ==> w != [] && NoSpace(w)
    ensures Normalizado(Join(" ", ws))
    ensures ws != [] ==> Join(" ", ws) != []
    decreases |ws|
  {
    if |ws| == 1 {
      assert ws[0] in ws;
    } else if |ws| > 1 {
      var w, j := ws[0], Join(" ", ws[1..]);
      assert w in ws;
      assert forall v :: v in ws[1..] ==> v in ws;
      JoinNormalizado(ws[1..]);
      var s := w + " " + j;
      assert Join(" ", ws) == s;
      forall i | 0 <= i < |s| && IsSpace(s[i]) ensures s[i] == ' ' && i + 1 < |s| && !IsSpace(s[i + 1]) {
        if i == |w| {
          assert s[i + 1] == j[0];
        } else if i > |w| {
          assert s[i] == j[i - |w| - 1];
          assert i + 1 < |s| ==> s[i + 1] == j[i - |w|];
        }
      }
      assert s[0] == w[0];
      assert s[|s| - 1] == j[|j| - 1];
    }
  }

  /** Text in normal form holds no line break. */
  lemma SinSaltos(s: string)
    requires Normalizado(s)
    ensures forall j :: !OccursAt(s, "\n", j)
  {
    forall j | OccursAt(s, "\n", j) ensures false {
      assert s[j] == s[j..j + 1][0];
      assert IsSpace(s[j]);
    }
  }

  /** The joined words hold no line break and no surrounding whitespace: they are one clean line. */
  lemma UnaLinea(texto: string)
    ensures SplitOn(Procesado(texto), "\n") == [Procesado(texto)]
    ensures Join("\n", Limpias([Procesado(texto)])) == Procesado(texto)
  {
    var u := Procesado(texto);
    JoinNormalizado(Words(texto));
    SinSaltos(u);
    SplitOnAbsent(u, "\n");
    LineaLimpia(u);
  }

  /** A clean line is kept as it is, and joining it alone gives it back. */
  lemma LineaLimpia(u: string)
    requires u == [] || (!IsSpace(u[0]) && !IsSpace(u[|u| - 1]))
    ensures Join("\n", Limpias([u])) == u
  {
    StripLimpia(u);
    assert [u][..0] == [];
    var l := if u != "" then [u] else [];
    assert Limpias([u]) == l;
  }

  lemma StripLimpia(u: string)
    requires u == [] || (!IsSpace(u[0]) && !IsSpace(u[|u| - 1]))
    ensures Strip(u) == u
  {
    StripFrame([], u, []);
    assert [] + u + [] == u;
  }

  /** `procesar_expediente_texto(texto)`. */
  method ProcesarExpedienteTexto(texto: string) returns (r: string)
    ensures r == Procesado(texto)
  {
    var unido := Join(" ", Words(texto));
    var lineas := SplitOn(unido, "\n");
    var limpias: seq<string> := [];
    for i := 0 to |lineas|
      invariant limpias == Limpias(lineas[..i])
    {
      assert lineas[..i + 1][..i] == lineas[..i];
      var linea := Strip(lineas[i]);
      if linea != "" {
        limpias := limpias + [linea];
      }
    }
    r := Join("\n", limpias);
    UnaLinea(texto);
    assert lineas[..|lineas|] == [unido];
  }

  /** The result has no surrounding whitespace, no line breaks or tabs, and no two spaces in a row. */
  lemma ProcesadoNormalizado(texto: string)
    ensures Normalizado(Procesado(texto))
  {
    JoinNormalizado(Words(texto));
  }

  /** The result has the same words as the text, in the same order. */
  lemma ProcesadoMismasPalabras(texto: string)
    ensures Words(Procesado(texto)) == Words(texto)
  {
    WordsOfJoin(Words(texto));
  }

  /** Cleaning twice is cleaning once. */
  lemma ProcesadoIdempotente(texto: string)
    ensures Procesado(Procesado(texto)) == Procesado(texto)
  {
    ProcesadoMismasPalabras(texto);
  }

  /** The result is empty exactly when the text is all whitespace. */
  lemma ProcesadoVacio(texto: string)
    ensures Procesado(texto) == "" <==> AllSpace(texto)
  {
    WordsAllSpace(texto);
    JoinNormalizado(Words(texto));
  }

  // ---------------------------------------------------------------------------
  // Joining pages

  /** Each page's text followed by a blank line, in page order. */
  function Unidas(paginas: seq<string>): string
  {
    if paginas == [] then "" else Unidas(paginas[..|paginas| - 1]) + paginas[|paginas| - 1] + "\n\n"
  }

  /** Appending a page to the successful ones appends its text and a blank line. */
  lemma UnidasSnoc(ps: seq<string>, p: Option<string>)
    ensures p.Some? ==> Unidas(ps + [p.value]) == Unidas(ps) + p.value + "\n\n"
  {
    if p.Some? {
      assert (ps + [p.value])[..|ps|] == ps;
    }
  }

  /** The stripped concatenation both extraction paths return. */
  function TextoPaginas(paginas: seq<string>): string
  {
    Strip(Unidas(paginas))
  }

  /** The accumulated text, as the extraction loops build it. */
  method UnirPaginas(paginas: seq<string>) returns (texto: string)
    ensures texto == TextoPaginas(paginas)
  {
    var completo := "";
    for i := 0 to |paginas|
      invariant completo == Unidas(paginas[..i])
    {
      assert paginas[..i + 1][..i] == paginas[..i];
      completo := completo + paginas[i] + "\n\n";
    }
    assert paginas[..|paginas|] == paginas;
    texto := Strip(completo);
  }

  /** The pages joined by blank lines: the text is the pages separated by "\n\n", stripped. */
  lemma {:induction false} UnidasJoin(paginas: seq<string>)
    requires paginas != []
    ensures Unidas(paginas) == Join("\n\n", paginas) + "\n\n"
    decreases |paginas|
  {
    var init, p := paginas[..|paginas| - 1], paginas[|paginas| - 1];
    if init == [] {
      assert paginas == [p];
    } else {
      UnidasJoin(init);
      JoinSnoc("\n\n", init, p);
      assert init + [p] == paginas;
    }
  }

  lemma TextoPaginasJoin(paginas: seq<string>)
    ensures TextoPaginas(paginas) == Strip(Join("\n\n", paginas))
  {
    if paginas != [] {
      UnidasJoin(paginas);
      assert AllSpace("\n\n");
      StripSufijoEspacios(Join("\n\n", paginas), "\n\n");
    }
  }

  /**
    `extraer_texto_pdf(pdf)`: the stripped text of the pages, each followed by a blank
    line; `None` when reading the PDF raised.
   */
  method ExtraerTextoPdf(paginas: Option<seq<string>>) returns (r: Option<string>)
    ensures paginas.None? ==> r.None?
    ensures paginas.Some? ==> r == Some(TextoPaginas(paginas.value))
  {
    if paginas.None? {
      return None;
    }
    var texto := UnirPaginas(paginas.value);
    r := Some(texto);
  }

  // ---------------------------------------------------------------------------
  // OCR

  /** The OCR threshold: more than 50 characters once stripped. */
  predicate Legible(t: string)
  {
    |Strip(t)| > 50
  }

  /** The pages whose OCR succeeded, in order. */
  function Exitosas(ocr: seq<Option<string>>): (r: seq<string>)
    ensures |r| <= |ocr|
  {
    if ocr == [] then []
    else
      var p := ocr[|ocr| - 1];
      Exitosas(ocr[..|ocr| - 1]) + (if p.Some? then [p.value] else [])
  }

  /** What local OCR returns for the per-page results `ocr`. */
  function OcrLocal(ocr: seq<Option<string>>): Option<string>
  {
    var t := TextoPaginas(Exitosas(ocr));
    if |t| > 50 then Some(t) else None
  }

  /**
    `extraer_texto_pdf_ocr_alternativo(pdf)` once the pages are images: a page whose
    OCR raised is skipped and the others are still read; `imagenes` is `None` when the
    conversion to images failed.
   */
  method ExtraerTextoPdfOcrAlternativo(imagenes: Option<seq<Option<string>>>) returns (r: Option<string>)
    ensures imagenes.None? || imagenes.value == [] ==> r.None?
    ensures imagenes.Some? && imagenes.value != [] ==> r == OcrLocal(imagenes.value)
  {
    if imagenes.None? || imagenes.value == [] {
      return None;
    }
    var ocr := imagenes.value;
    var completo := "";
    for i := 0 to |ocr|
      invariant completo == Unidas(Exitosas(ocr[..i]))
    {
      assert ocr[..i + 1][..i] == ocr[..i];
      assert Exitosas(ocr[..i + 1]) == Exitosas(ocr[..i]) + (if ocr[i].Some? then [ocr[i].value] else []);
      UnidasSnoc(Exitosas(ocr[..i]), ocr[i]);
      match ocr[i] {
        case None =>
          assert Exitosas(ocr[..i]) + [] == Exitosas(ocr[..i]);
        case Some(texto) =>
          assert Unidas(Exitosas(ocr[..i + 1])) == completo + texto + "\n\n";
          completo := completo + texto + "\n\n";
      }
    }
    assert ocr[..|ocr|] == ocr;
    var final := Strip(completo);
    if final != "" && |final| > 50 {
      r := Some(final);
    } else {
      r := None;
    }
  }

  /** OCR text is returned only when it is long enough, and it is returned stripped. */
  lemma OcrLocalUmbral(ocr: seq<Option<string>>)
    ensures OcrLocal(ocr).Some? ==> |OcrLocal(ocr).value| > 50 && Legible(OcrLocal(ocr).value)
    ensures OcrLocal(ocr).Some? <==> Legible(Unidas(Exitosas(ocr)))
  {
    StripIdempotent(Unidas(Exitosas(ocr)));
  }

  /** A page whose OCR failed changes nothing: the result is that of the other pages. */
  lemma {:induction false} OcrOmitePagina(a: seq<Option<string>>, b: seq<Option<string>>)
    ensures OcrLocal(a + [None] + b) == OcrLocal(a + b)
  {
    ExitosasConcat(a, [None], b);
  }

  lemma {:induction false} ExitosasConcat(a: seq<Option<string>>, n: seq<Option<string>>, b: seq<Option<string>>)
    requires n == [None]
    ensures Exitosas(a + n + b) == Exitosas(a + b)
    decreases |b|
  {
    if b == [] {
      assert a + n + b == a + n;
      assert (a + n)[..|a + n| - 1] == a;
      assert a + b == a;
    } else {
      var b' := b[..|b| - 1];
      assert (a + n + b)[..|a + n + b| - 1] == a + n + b';
      assert (a + b)[..|a + b| - 1] == a + b';
      ExitosasConcat(a, n, b');
    }
  }

  /**
    `extraer_texto_pdf_ocr(pdf)`: without an API key, or when the cloud parser
    raises or yields 50 characters or fewer, the local OCR result `alternativo`;
    otherwise the cloud text. `documentos` holds each parsed document's text, `None`
    for a document that carries none.
   */
  function ExtraerTextoPdfOcr(claveApi: bool, documentos: Option<seq<Option<string>>>, alternativo: Option<string>): (r: Option<string>)
    ensures !claveApi || documentos.None? ==> r == alternativo
  {
    if !claveApi || documentos.None? then alternativo
    else
      var t := TextoPaginas(Exitosas(documentos.value));
      if t != "" && |t| > 50 then Some(t) else alternativo
  }

  /** Whichever service produced it, OCR text is returned only when it has more than 50 characters. */
  lemma OcrUmbral(claveApi: bool, documentos: Option<seq<Option<string>>>, ocr: seq<Option<string>>)
    ensures var r := ExtraerTextoPdfOcr(claveApi, documentos, OcrLocal(ocr));
      r.Some? ==> Legible(r.value) && Strip(r.value) == r.value
  {
    OcrLocalUmbral(ocr);
    StripIdempotent(Unidas(Exitosas(ocr)));
    if documentos.Some? {
      StripIdempotent(Unidas(Exitosas(documentos.value)));
    }
  }

  // ---------------------------------------------------------------------------
  // The intake flow

  /** How the case file was given, and what each step of the upload produced. */
  datatype Carga =
      /**
        An uploaded PDF. `usarOcr` is the OCR checkbox; `extraido` the plain extraction;
        `botonOcr` whether the retry-with-OCR button was pressed; `ocr` what OCR returns.
       */
    | SubirPdf(usarOcr: bool, extraido: Option<string>, botonOcr: bool, ocr: Option<string>)
    | SubirTxt(contenido: string)
    | SinArchivo
    | Pegar(texto: string)

  /** `render_cargar_expediente()` as written: the text handed to the wizard. */
  function CargaExpediente(c: Carga): Option<string>
  {
    match c
    case SubirPdf(usarOcr, extraido, botonOcr, ocr) =>
      if usarOcr then
        if ocr.Some? && Legible(ocr.value) then Some(Procesado(ocr.value)) else ocr
      else if extraido.Some? && Legible(extraido.value) then Some(Procesado(extraido.value))
      else if botonOcr then
        if ocr.Some? && ocr.value != "" then Some(Procesado(ocr.value)) else ocr
      else extraido
    case SubirTxt(contenido) => Some(Procesado(contenido))
    case SinArchivo => None
    case Pegar(texto) => if Strip(texto) != "" then Some(Procesado(texto)) else None
  }

  /** The wizard loads the returned text as the facts when it is non-empty. */
  predicate SeCarga(r: Option<string>)
  {
    r.Some? && r.value != ""
  }

  /**
    As written, a PDF whose extracted text is short keeps that text, unprocessed,
    when the user does not retry with OCR: the screen reports that nothing was
    extracted while the wizard loads the raw text as the facts.
   */
  lemma CargaCortaSinProcesar()
    ensures var r := CargaExpediente(SubirPdf(false, Some("a\nb"), false, None));
      SeCarga(r) && !Normalizado(r.value) && !Legible(r.value)
  {
    var r := CargaExpediente(SubirPdf(false, Some("a\nb"), false, None));
    assert !Legible("a\nb") by {
      assert |Strip("a\nb")| <= 3;
    }
    assert r == Some("a\nb");
    assert IsSpace(r.value[1]) && r.value[1] != ' ';
  }

  /** The intake with the short-text branch returning nothing, as its warning says. */
  function CargaExpedienteCorregida(c: Carga): Option<string>
  {
    match c
    case SubirPdf(usarOcr, extraido, botonOcr, ocr) =>
      if usarOcr then
        if ocr.Some? && Legible(ocr.value) then Some(Procesado(ocr.value)) else None
      else if extraido.Some? && Legible(extraido.value) then Some(Procesado(extraido.value))
      else if botonOcr then
        if ocr.Some? && ocr.value != "" then Some(Procesado(ocr.value)) else None
      else None
    case SubirTxt(contenido) => Some(Procesado(contenido))
    case SinArchivo => None
    case Pegar(texto) => if Strip(texto) != "" then Some(Procesado(texto)) else None
  }

  /**
    Every text the corrected intake hands over is cleaned; PDF text comes from a
    readable extraction or a non-empty OCR result; and it agrees with the code as
    written wherever that code hands over text it has cleaned.
   */
  lemma CargaCorregidaProcesada(c: Carga)
    ensures var r := CargaExpedienteCorregida(c);
      && (r.Some? ==> Normalizado(r.value))
      && (r.Some? && c.SubirPdf? ==> r.value != "" || (c.botonOcr && c.ocr.Some? && AllSpace(c.ocr.value)))
      && (r.Some? ==> CargaExpediente(c) == r)
      && (c.Pegar? || c.SubirTxt? ==> r == CargaExpediente(c))
  {
    var r := CargaExpedienteCorregida(c);
    if r.Some? {
      match c
      case SubirPdf(usarOcr, extraido, botonOcr, ocr) =>
        var fuente := if !usarOcr && extraido.Some? && Legible(extraido.value) then extraido.value else ocr.value;
        ProcesadoNormalizado(fuente);
        ProcesadoVacio(fuente);
      case SubirTxt(contenido) =>
        ProcesadoNormalizado(contenido);
      case Pegar(texto) =>
        ProcesadoNormalizado(texto);
    }
  }
}
