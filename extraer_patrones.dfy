/**
  The command-line script that extracts drafting patterns from a reference claim:
  reading the document (PDF with an OCR fallback, or plain text, chosen by the
  lower-cased extension), asking the language model for per-section patterns over
  the first 20000 characters, cleaning the fenced JSON reply, and the exit status.

  The file system is represented by whether the path exists and by what each
  extractor yields for the file; JSON parsing is the function `parse` (`None` when
  the text is not valid JSON); writing the output file is its success flag.
 */
module ExtraerPatrones {
  import opened Wrappers
  import opened Text
  import opened Generation
  import Referencia

  // ---------------------------------------------------------------------------
  // The extension of a path

  /** `s.rfind(c)`: the last position holding `c`, or -1. */
  function UltimaPosicion(s: string, c: char): (r: int)
    ensures -1 <= r < |s|
    ensures r >= 0 ==> s[r] == c
    ensures forall j :: r < j < |s| ==> s[j] != c
  {
    if s == [] then -1
    else if s[|s| - 1] == c then |s| - 1
    else UltimaPosicion(s[..|s| - 1], c)
  }

  /** Between the last separator and the last dot there is a character other than a dot. */
  predicate NombreAntesDelPunto(p: string, barra: int, punto: int)
    requires -1 <= barra && punto < |p|
  {
    exists k :: barra + 1 <= k < punto && p[k] != '.'
  }

  /**
    `os.path.splitext(p)[1]`: from the last dot of the file name to the end, when
    that dot follows the last '/' and is not one of the name's leading dots;
    otherwise empty.
   */
  function Extension(p: string): (e: string)
    ensures e == [] || (e[0] == '.' && EndsWith(p, e))
    ensures forall j :: 0 <= j < |e| ==> e[j] != '/'
    ensures forall j :: 1 <= j < |e| ==> e[j] != '.'
  {
    var barra := UltimaPosicion(p, '/');
    var punto := UltimaPosicion(p, '.');
    if punto > barra && NombreAntesDelPunto(p, barra, punto) then
      assert p[|p| - |p[punto..]|..] == p[punto..];
      p[punto..]
    else []
  }

  /**
    A file name ending in a dotted suffix without '/' or further dots, after a
    character that is neither '/' nor a dot, has that suffix as its extension.
   */
  lemma ExtensionDe(base: string, ext: string)
    requires |base| > 0 && base[|base| - 1] != '/' && base[|base| - 1] != '.'
    requires |ext| > 0 && ext[0] == '.'
    requires forall j :: 0 <= j < |ext| ==> ext[j] != '/'
    requires forall j :: 1 <= j < |ext| ==> ext[j] != '.'
    ensures Extension(base + ext) == ext
  {
    var p := base + ext;
    UltimaDe(base, ext, '.');
    var barra := UltimaPosicion(p, '/');
    assert p[|base| - 1] == base[|base| - 1];
    assert barra < |base| - 1;
    assert NombreAntesDelPunto(p, barra, |base|);
  }

  /** The last `c` of `base + ext`, where `ext` holds `c` only at its start. */
  lemma {:induction false} UltimaDe(base: string, ext: string, c: char)
    requires |ext| > 0 && ext[0] == c
    requires forall j :: 1 <= j < |ext| ==> ext[j] != c
    ensures UltimaPosicion(base + ext, c) == |base|
  {
    var p := base + ext;
    assert p[|base|] == c;
    forall j | |base| < j < |p| ensures p[j] != c {
      assert p[j] == ext[j - |base|];
    }
  }

  /** A file whose name is only a dot and a suffix, such as ".pdf", has no extension. */
  lemma NombreOculto(dir: string, ext: string)
    requires |ext| > 0 && ext[0] == '.'
    requires forall j :: 1 <= j < |ext| ==> ext[j] != '.' && ext[j] != '/'
    requires dir == [] || dir[|dir| - 1] == '/'
    ensures Extension(dir + ext) == []
  {
    var p := dir + ext;
    UltimaDe(dir, ext, '.');
    if dir != [] {
      assert p[|dir| - 1] == '/';
      forall j | |dir| - 1 < j < |p| ensures p[j] != '/' {
        assert p[j] == ext[j - |dir|];
      }
    }
  }

  /** The formats the script reads. */
  datatype Formato = FormatoPdf | FormatoTxt | FormatoNoSoportado(extension: string)

  /** The dispatch on the lower-cased extension. */
  function FormatoDe(ruta: string): (f: Formato)
    ensures f.FormatoPdf? <==> Lower(Extension(ruta)) == ".pdf"
    ensures f.FormatoTxt? <==> Lower(Extension(ruta)) == ".txt"
    ensures f.FormatoNoSoportado? ==> f.extension == Lower(Extension(ruta))
  {
    var e := Lower(Extension(ruta));
    if e == ".pdf" then FormatoPdf
    else if e == ".txt" then FormatoTxt
    else FormatoNoSoportado(e)
  }

  /**
    For a file name ending in a dotted suffix, the format is chosen by the suffix
    lower-cased: "X.PDF" is read as a PDF and "notas.Txt" as text.
   */
  lemma FormatoPorSufijo(base: string, ext: string)
    requires |base| > 0 && base[|base| - 1] != '/' && base[|base| - 1] != '.'
    requires |ext| > 0 && ext[0] == '.'
    requires forall j :: 1 <= j < |ext| ==> ext[j] != '/' && ext[j] != '.'
    ensures FormatoDe(base + ext) == (if Lower(ext) == ".pdf" then FormatoPdf
                                      else if Lower(ext) == ".txt" then FormatoTxt
                                      else FormatoNoSoportado(Lower(ext)))
  {
    ExtensionDe(base, ext);
  }

  /** A PDF whose extension is written in capitals is still read as a PDF. */
  lemma PdfEnMayusculas(base: string)
    requires |base| > 0 && base[|base| - 1] != '/' && base[|base| - 1] != '.'
    ensures FormatoDe(base + ".PDF") == FormatoPdf
  {
    var ext := ".PDF";
    assert ext[1] == 'P' && ext[2] == 'D' && ext[3] == 'F';
    FormatoPorSufijo(base, ext);
    assert Lower(ext) == ".pdf";
  }

  // ---------------------------------------------------------------------------
  // Reading the document

  /**
    What the extractors yield for the file: `pdf` is `extraer_texto_pdf`'s result,
    `ocr` that of `extraer_texto_pdf_ocr`, `txt` the file read as text.
   */
  datatype Contenido = Contenido(pdf: Option<string>, ocr: Option<string>, txt: string)

  datatype ErrorArchivo = NoExiste(ruta: string) | NoSoportado(extension: string)

  /** `not texto or len(texto.strip()) < 100`. */
  predicate Insuficiente(t: Option<string>)
  {
    t.None? || |Strip(t.value)| < 100
  }

  /** `extraer_texto_documento(ruta, usar_ocr)`. */
  function TextoDocumento(ruta: string, existe: bool, usarOcr: bool, c: Contenido): Result<Option<string>, ErrorArchivo>
  {
    if !existe then Err(NoExiste(ruta))
    else
      match FormatoDe(ruta)
      case FormatoPdf =>
        var primero := if usarOcr then c.ocr else c.pdf;
        Ok(if Insuficiente(primero) then c.ocr else primero)
      case FormatoTxt => Ok(Some(c.txt))
      case FormatoNoSoportado(e) => Err(NoSoportado(e))
  }

  /** `extraer_texto_documento`, reassigning `texto` as the script does. */
  method ExtraerTextoDocumento(ruta: string, existe: bool, usarOcr: bool, c: Contenido)
    returns (r: Result<Option<string>, ErrorArchivo>)
    ensures r == TextoDocumento(ruta, existe, usarOcr, c)
  {
    if !existe {
      return Err(NoExiste(ruta));
    }
    var extension := Lower(Extension(ruta));
    if extension == ".pdf" {
      var texto: Option<string>;
      if usarOcr {
        texto := c.ocr;
      } else {
        texto := c.pdf;
      }
      if texto.None? || |Strip(texto.value)| < 100 {
        texto := c.ocr;
      }
      return Ok(texto);
    } else if extension == ".txt" {
      return Ok(Some(c.txt));
    } else {
      return Err(NoSoportado(extension));
    }
  }

  /**
    A missing path and an unknown extension are errors; a text file is returned as
    read; a PDF gives its plain text only when OCR was not asked for and that text
    has at least 100 significant characters, and the OCR text otherwise.
   */
  lemma TextoDocumentoCasos(ruta: string, existe: bool, usarOcr: bool, c: Contenido)
    ensures var r := TextoDocumento(ruta, existe, usarOcr, c);
      && (!existe ==> r == Err(NoExiste(ruta)))
      && (r.Err? && r.error.NoSoportado? <==> existe && FormatoDe(ruta).FormatoNoSoportado?)
      && (r.Err? ==> !existe || r.error == NoSoportado(Lower(Extension(ruta))))
      && (existe && FormatoDe(ruta).FormatoTxt? ==> r == Ok(Some(c.txt)))
      && (existe && FormatoDe(ruta).FormatoPdf? ==>
            r == Ok(if !usarOcr && !Insuficiente(c.pdf) then c.pdf else c.ocr))
  {
  }

  /** Whatever the PDF gave, a text still too short is what OCR produced. */
  lemma PdfInsuficienteEsOcr(ruta: string, usarOcr: bool, c: Contenido)
    requires FormatoDe(ruta).FormatoPdf?
    ensures var r := TextoDocumento(ruta, true, usarOcr, c);
      r.Ok? && (Insuficiente(r.value) ==> r.value == c.ocr)
  {
  }

  // ---------------------------------------------------------------------------
  // Extracting the patterns

  /** `texto_documento[:20000] if len(texto_documento) > 20000 else texto_documento`. */
  function TextoLimite(texto: string): (r: string)
    ensures |r| <= 20000 && StartsWith(texto, r)
    ensures |texto| <= 20000 <==> r == texto
  {
    Take(texto, 20000)
  }

  /**
    The reply once cleaned in the script: a "```json" prefix is removed, or else a
    "```" prefix, then a "```" suffix, then the surrounding whitespace.
   */
  function SinFenceElif(contenido: string): string
  {
    var c := if StartsWith(contenido, Referencia.FenceJson) then SinPrefijo(contenido, Referencia.FenceJson)
             else SinPrefijo(contenido, Referencia.Fence);
    Strip(SinSufijo(c, Referencia.Fence))
  }

  /** The cleaning, as the script reassigns `contenido`. */
  method LimpiarFenceElif(contenido: string) returns (r: string)
    ensures r == SinFenceElif(contenido)
  {
    var fj, f := Referencia.FenceJson, Referencia.Fence;
    assert |fj| == 7 && |f| == 3;
    r := contenido;
    if StartsWith(r, fj) {
      r := r[7..];
    } else if StartsWith(r, f) {
      r := r[3..];
    }
    if EndsWith(r, f) {
      r := r[..|r| - 3];
    }
    r := Strip(r);
  }

  /**
    The two cleanings agree unless the reply starts with "```json" immediately
    followed by another fence, which only the web application's version removes.
   */
  lemma FenceCoinciden(c: string)
    requires !(StartsWith(c, Referencia.FenceJson) && StartsWith(c[7..], Referencia.Fence))
    ensures SinFenceElif(c) == Referencia.SinFenceIf(c)
  {
    if StartsWith(c, Referencia.FenceJson) {
      assert SinPrefijo(c, Referencia.FenceJson) == c[7..];
    }
  }

  /** On "```json```" followed by text, the script keeps the second fence and the web application does not. */
  lemma FenceDifieren(t: string)
    requires |t| > 0 && !IsSpace(t[0]) && t[0] != '`' && !IsSpace(t[|t| - 1]) && t[|t| - 1] != '`'
    ensures SinFenceElif(Referencia.FenceJson + Referencia.Fence + t) == Referencia.Fence + t
    ensures Referencia.SinFenceIf(Referencia.FenceJson + Referencia.Fence + t) == t
  {
    var fj, f := Referencia.FenceJson, Referencia.Fence;
    var c := fj + f + t;
    assert c == fj + (f + t);
    SinPrefijoPresente(fj, f + t);
    assert c[7..] == f + t;
    SinPrefijoPresente(f, t);
    var ft := f + t;
    assert !EndsWith(ft, f) by { assert ft[|ft| - 1] == t[|t| - 1]; }
    assert !EndsWith(t, f) by { assert f[2] == '`'; }
    assert ft[0] == '`' && ft[|ft| - 1] == t[|t| - 1];
    SinBordes(ft);
    SinBordes(t);
  }

  lemma SinBordes(a: string)
    requires |a| > 0 && !IsSpace(a[0]) && !IsSpace(a[|a| - 1])
    ensures Strip(a) == a
  {
    StripFrame([], a, []);
    assert [] + a + [] == a;
  }

  /**
    The script's cleaning recovers a JSON object however the model wrapped it: bare,
    fenced with "```json" or with "```", the fences on lines of their own or not.
   */
  lemma SinFenceElifRecupera(j: string, sep: string)
    requires Referencia.ObjetoJson(j) && AllSpace(sep)
    ensures SinFenceElif(j) == j
    ensures SinFenceElif(Referencia.FenceJson + sep + j + sep + Referencia.Fence) == j
    ensures SinFenceElif(Referencia.Fence + sep + j + sep + Referencia.Fence) == j
  {
    Referencia.SinFenceIfRecupera(j, sep);
    Referencia.Enmarcado(j, sep);
    RecuperaDesnudo(j);
    RecuperaJson(j, sep);
    RecuperaSimple(j, sep);
  }

  lemma RecuperaDesnudo(j: string)
    requires Referencia.ObjetoJson(j)
    ensures SinFenceElif(j) == Referencia.SinFenceIf(j)
  {
    var fj := Referencia.FenceJson;
    assert fj[0] == '`';
    NoEmpieza(j, fj);
    FenceCoinciden(j);
  }

  lemma RecuperaJson(j: string, sep: string)
    requires Referencia.ObjetoJson(j) && AllSpace(sep)
    ensures var a := Referencia.FenceJson + sep + j + sep + Referencia.Fence;
      SinFenceElif(a) == Referencia.SinFenceIf(a)
  {
    var fj, f := Referencia.FenceJson, Referencia.Fence;
    var t := sep + j + sep;
    Referencia.Enmarcado(j, sep);
    Referencia.Agrupar(fj, sep, j, f);
    var a := fj + (t + f);
    assert |fj| == 7 && f[0] == '`';
    assert a[7..] == t + f;
    NoEmpieza(t + f, f);
    FenceCoinciden(a);
  }

  lemma RecuperaSimple(j: string, sep: string)
    requires Referencia.ObjetoJson(j) && AllSpace(sep)
    ensures var b := Referencia.Fence + sep + j + sep + Referencia.Fence;
      SinFenceElif(b) == Referencia.SinFenceIf(b)
  {
    var fj, f := Referencia.FenceJson, Referencia.Fence;
    var t := sep + j + sep;
    Referencia.Enmarcado(j, sep);
    Referencia.Agrupar(f, sep, j, f);
    var b := f + (t + f);
    assert |f| == 3 && fj[3] == 'j';
    assert b[3] == t[0];
    assert !StartsWith(b, fj);
    FenceCoinciden(b);
  }

  /** A text whose first character differs from the prefix's does not start with it. */
  lemma NoEmpieza(s: string, p: string)
    requires |s| > 0 && |p| > 0 && s[0] != p[0]
    ensures !StartsWith(s, p)
  {
  }

  /** `extraer_patrones_documento(texto)` of the script: `{}` when the call raises or the cleaned reply is not JSON. */
  function PatronesDocumento(texto: string, llm: Peticion -> Option<string>,
                             parse: string -> Option<Referencia.Patrones>): Referencia.Patrones
  {
    match llm(AnalisisPatrones(TextoLimite(texto)))
    case None => []
    case Some(reply) => parse(SinFenceElif(Strip(reply))).GetOr([])
  }

  /** `extraer_patrones_documento(texto)`. */
  method ExtraerPatronesDocumento(texto: string, llm: Peticion -> Option<string>,
                                  parse: string -> Option<Referencia.Patrones>)
    returns (patrones: Referencia.Patrones)
    ensures patrones == PatronesDocumento(texto, llm, parse)
  {
    var textoLimite := if |texto| > 20000 then texto[..20000] else texto;
    var reply := llm(AnalisisPatrones(textoLimite));
    if reply.None? {
      return [];
    }
    var contenido := LimpiarFenceElif(Strip(reply.value));
    patrones := parse(contenido).GetOr([]);
  }

  /**
    Only the first 20000 characters reach the model; a failed call gives no
    patterns; a reply that wraps a JSON object in a fence is parsed as the object.
   */
  lemma PatronesDocumentoPropiedades(texto: string, llm: Peticion -> Option<string>,
                                     parse: string -> Option<Referencia.Patrones>, j: string, sep: string)
    ensures PatronesDocumento(texto, llm, parse) == PatronesDocumento(TextoLimite(texto), llm, parse)
    ensures llm(AnalisisPatrones(TextoLimite(texto))).None? ==> PatronesDocumento(texto, llm, parse) == []
    ensures Referencia.ObjetoJson(j) && AllSpace(sep)
            && llm(AnalisisPatrones(TextoLimite(texto))) == Some(Referencia.FenceJson + sep + j + sep + Referencia.Fence)
            ==> PatronesDocumento(texto, llm, parse) == parse(j).GetOr([])
  {
    assert TextoLimite(TextoLimite(texto)) == TextoLimite(texto);
    var s := Referencia.FenceJson + sep + j + sep + Referencia.Fence;
    if Referencia.ObjetoJson(j) && AllSpace(sep) && llm(AnalisisPatrones(TextoLimite(texto))) == Some(s) {
      assert s[0] == '`' && s[|s| - 1] == '`';
      SinBordes(s);
      SinFenceElifRecupera(j, sep);
    }
  }

  // ---------------------------------------------------------------------------
  // The command

  /** The exit status and the patterns written to the output file, if any. */
  datatype Salida = Salida(codigo: int, guardados: Option<Referencia.Patrones>)

  /**
    `main()`: status 1 when the file is missing or of another format, when the text
    is missing or shorter than 100 significant characters, when no pattern came
    back, or when writing the output fails (`escrito` is false); otherwise the
    patterns are written and the status is 0.
   */
  function ResultadoCli(ruta: string, existe: bool, usarOcr: bool, c: Contenido,
                        llm: Peticion -> Option<string>, parse: string -> Option<Referencia.Patrones>,
                        escrito: bool): Salida
  {
    match TextoDocumento(ruta, existe, usarOcr, c)
    case Err(_) => Salida(1, None)
    case Ok(texto) =>
      if Insuficiente(texto) then Salida(1, None)
      else
        var patrones := PatronesDocumento(texto.value, llm, parse);
        if patrones == [] || !escrito then Salida(1, None)
        else Salida(0, Some(patrones))
  }

  /** The body of `main()` after argument parsing, with its early exits. */
  method Ejecutar(ruta: string, existe: bool, usarOcr: bool, c: Contenido,
                  llm: Peticion -> Option<string>, parse: string -> Option<Referencia.Patrones>,
                  escrito: bool) returns (s: Salida)
    ensures s == ResultadoCli(ruta, existe, usarOcr, c, llm, parse, escrito)
  {
    var leido := ExtraerTextoDocumento(ruta, existe, usarOcr, c);
    if leido.Err? {
      return Salida(1, None);
    }
    var texto := leido.value;
    if texto.None? || |Strip(texto.value)| < 100 {
      return Salida(1, None);
    }
    var patrones := ExtraerPatronesDocumento(texto.value, llm, parse);
    if patrones == [] {
      return Salida(1, None);
    }
    if !escrito {
      return Salida(1, None);
    }
    s := Salida(0, Some(patrones));
  }

  /**
    The status is 0 or 1; it is 0 exactly when the file exists in a supported
    format, its text has at least 100 significant characters, some pattern came
    back and the output was written, and then the written patterns are those of
    the text.
   */
  lemma ResultadoCliExito(ruta: string, existe: bool, usarOcr: bool, c: Contenido,
                          llm: Peticion -> Option<string>, parse: string -> Option<Referencia.Patrones>,
                          escrito: bool)
    ensures var s := ResultadoCli(ruta, existe, usarOcr, c, llm, parse, escrito);
      var r := TextoDocumento(ruta, existe, usarOcr, c);
      && (s.codigo == 0 || s.codigo == 1)
      && (s.guardados.Some? <==> s.codigo == 0)
      && (s.codigo == 0 <==>
            existe && !FormatoDe(ruta).FormatoNoSoportado? && !Insuficiente(r.value)
            && PatronesDocumento(r.value.value, llm, parse) != [] && escrito)
      && (s.codigo == 0 ==> s.guardados == Some(PatronesDocumento(r.value.value, llm, parse)))
  {
  }
}
