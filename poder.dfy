/**
  The special power of attorney: the fields of the reference document with their
  default values, the template they are substituted into, and the Word document
  whose paragraphs are the template's blank-line-separated blocks.

  The template is kept as its seven blocks, each a sequence of literal text and
  field references; its text is those blocks separated by blank lines, with one
  line break before and one after, as the triple-quoted literal lays it out.
 */
module Poder {
  import opened Wrappers
  import opened Text
  import opened OrderedMap

  // ---------------------------------------------------------------------------
  // Fields

  const JuezAdministrativo := "juez_administrativo"
  const NombrePoderdante := "nombre_poderdante"
  const CedulaPoderdante := "cedula_poderdante"
  const CiudadPoderdante := "ciudad_poderdante"
  const NombreOrganizacion := "nombre_organizacion"
  const NitOrganizacion := "nit_organizacion"
  const FechaConstitucion := "fecha_constitucion"
  const NumeroLibro := "numero_libro"
  const Libro := "libro"
  const CertificadoExistencia := "certificado_existencia"
  const NombreRepresentante := "nombre_representante"
  const CedulaRepresentante := "cedula_representante"
  const CiudadRepresentante := "ciudad_representante"
  const TarjetaProfesional := "tarjeta_profesional"
  const ConsejoJudicatura := "consejo_judicatura"
  const EntidadDemandada := "entidad_demandada"
  const Oficio1 := "oficio_1"
  const FechaOficio1 := "fecha_oficio_1"
  const JefeRegional := "jefe_regional"
  const Oficio2 := "oficio_2"
  const FechaOficio2 := "fecha_oficio_2"
  const DirectoraSanidad := "directora_sanidad"
  const CargoLaboral := "cargo_laboral"
  const FechaInicioLaboral := "fecha_inicio_laboral"
  const FechaFinLaboral := "fecha_fin_laboral"
  const CiudadPoderdanteFirma := "ciudad_poderdante_firma"
  const CiudadRepresentanteFirma := "ciudad_representante_firma"

  /** The 27 fields of the reference power of attorney and their default values. */
  const CamposPorDefecto: Dict<string> := [
      (JuezAdministrativo, "JUEZ ADMINISTRATIVO DEL CIRCUITO (reparto) E.S.D."),
      (NombrePoderdante, "JULIE MELISSA MORENO ALARCÓN"),
      (CedulaPoderdante, "52.982.304"),
      (CiudadPoderdante, "Bogotá"),
      (NombreOrganizacion, "CONDE ABOGADOS ASOCIADOS SAS"),
      (NitOrganizacion, "828002664-3"),
      (FechaConstitucion, "26 de marzo de 2014"),
      (NumeroLibro, "00007635"),
      (Libro, "lX"),
      (CertificadoExistencia, "2021"),
      (NombreRepresentante, "MARCELA PATRICIA CEBALLOS OSORIO"),
      (CedulaRepresentante, "1.075.227.003"),
      (CiudadRepresentante, "Neiva"),
      (TarjetaProfesional, "214.303"),
      (ConsejoJudicatura, "Consejo Superior de la Judicatura"),
      (EntidadDemandada, "LA NACIÓN – MINISTERIO DE DEFENSA -POLICIA NACIONAL – DIRECCIÓN DE SANIDAD"),
      (Oficio1, "S-2020-465025-HEBOG/RASES-GRUCO 29.25"),
      (FechaOficio1, "29 de diciembre de 2020"),
      (JefeRegional, "Jefe Regional de Aseguramiento en Salud No. 1"),
      (Oficio2, "S-2021-000811-DISAN ASJUR -41.10"),
      (FechaOficio2, "07 de enero del 2021"),
      (DirectoraSanidad, "Directora de Sanidad de la Policía Nacional"),
      (CargoLaboral, "Jefe de Enfermería"),
      (FechaInicioLaboral, "enero del 2011"),
      (FechaFinLaboral, "26 de septiembre de 2019"),
      (CiudadPoderdanteFirma, "Bogotá D.C"),
      (CiudadRepresentanteFirma, "Neiva")
  ]

  /** The field names, in the order of the default map. */
  const ClavesPoder: seq<string> := [
    JuezAdministrativo, NombrePoderdante, CedulaPoderdante, CiudadPoderdante,
    NombreOrganizacion, NitOrganizacion, FechaConstitucion, NumeroLibro,
    Libro, CertificadoExistencia, NombreRepresentante, CedulaRepresentante,
    CiudadRepresentante, TarjetaProfesional, ConsejoJudicatura, EntidadDemandada,
    Oficio1, FechaOficio1, JefeRegional, Oficio2,
    FechaOficio2, DirectoraSanidad, CargoLaboral, FechaInicioLaboral,
    FechaFinLaboral, CiudadPoderdanteFirma, CiudadRepresentanteFirma
  ]

  lemma ClavesPorDefecto()
    ensures Claves(CamposPorDefecto) == ClavesPoder
  {
  }

  /** `extraer_campos_poder()`: 27 distinct fields. */
  function ExtraerCamposPoder(): (r: Dict<string>)
    ensures |r| == 27 && ClavesUnicas(r)
  {
    ClavesPorDefecto();
    ClavesPoderDistintas();
    CamposPorDefecto
  }

  /** Two field names told apart by their length, their first two characters or their last one. */
  predicate Distinguibles(a: string, b: string)
  {
    |a| != |b| || (|a| > 1 && |b| > 1 && (a[0] != b[0] || a[1] != b[1] || a[|a| - 1] != b[|b| - 1]))
  }

  lemma ClavesPoderDistintas()
    ensures |ClavesPoder| == 27 && forall i, j :: 0 <= i < j < |ClavesPoder| ==> ClavesPoder[i] != ClavesPoder[j]
  {
    forall i, j | 0 <= i < j < |ClavesPoder| ensures ClavesPoder[i] != ClavesPoder[j] {
      ClavesPoderPar(i, j);
    }
  }

  lemma ClavesPoderPar(i: nat, j: nat)
    requires i < j < |ClavesPoder|
    ensures Distinguibles(ClavesPoder[i], ClavesPoder[j])
  {
  }

  // ---------------------------------------------------------------------------
  // The template

  datatype Segmento = Lit(texto: string) | Campo(clave: string)

  /** A block of the template: literal text and field references, in order. */
  type Parrafo = seq<Segmento>

  /** The addressee: "Señores" and the judge. */
  const Destinatario: Parrafo := [
    Lit("Señores "),
    Campo(JuezAdministrativo)
  ]

  /** The grant of the power: who grants it, to whom, and for which claim. */
  const Otorgamiento: Parrafo := Concesion + Pretension

  /** The grantor, the firm, and its legal representative. */
  const Concesion: Parrafo := [
    Campo(NombrePoderdante),
    Lit(", identificada con la cédula de ciudadanía número "),
    Campo(CedulaPoderdante),
    Lit(" de "),
    Campo(CiudadPoderdante),
    Lit(", de forma atenta y respetuosa me permito manifestar a usted, que confiero poder especial, amplio y suficiente a la Organización Jurídica "),
    Campo(NombreOrganizacion),
    Lit(", con NIT No "),
    Campo(NitOrganizacion),
    Lit(", constituida por documento privado en junta de socios del "),
    Campo(FechaConstitucion),
    Lit(", bajo el número "),
    Campo(NumeroLibro),
    Lit(" del libro "),
    Campo(Libro),
    Lit(", según consta en el certificado de existencia y representación legal del "),
    Campo(CertificadoExistencia),
    Lit(", y cuyo representante legal es la Doctora "),
    Campo(NombreRepresentante),
    Lit(", identificada con cedula de ciudadanía No. "),
    Campo(CedulaRepresentante),
    Lit(" de "),
    Campo(CiudadRepresentante),
    Lit(" y tarjeta profesional No. "),
    Campo(TarjetaProfesional),
    Lit(" del "),
    Campo(ConsejoJudicatura)
  ]

  /** The claim the power is granted for. */
  const Pretension: Parrafo := [
    Lit(", para que, en mi nombre y representación, presente medio de control de Nulidad y Restablecimiento del Derecho contra "),
    Campo(EntidadDemandada),
    Lit(", a fin de que de declare la nulidad de los efectos económicos de los oficios No. "),
    Campo(Oficio1),
    Lit(" de "),
    Campo(FechaOficio1),
    Lit(" expedido por el "),
    Campo(JefeRegional),
    Lit(" y el oficio "),
    Campo(Oficio2),
    Lit(" del "),
    Campo(FechaOficio2),
    Lit(", expedido por la "),
    Campo(DirectoraSanidad),
    Lit(", por medio del cual se niega el reconocimiento del vínculo laboral y pago de emolumentos salariales, prestacionales, indemnizatorios y de seguridad social a la suscrita y a título de restablecimiento del derecho se ordene la existencia del vínculo laboral entre dicha entidad y la suscrita, la cual tuvo vigencia entre "),
    Campo(FechaInicioLaboral),
    Lit(" hasta el "),
    Campo(FechaFinLaboral),
    Lit(", tiempo durante el cual me desempeñé como "),
    Campo(CargoLaboral),
    Lit(" para esta entidad, como consecuencia de lo anterior se ordene cancelar la diferencia existente entre la suscrita como "),
    Campo(CargoLaboral),
    Lit(" y, un "),
    Campo(CargoLaboral),
    Lit(" de planta y/o uno uniformado de conformidad con lo que se pagaba desde el año 2011 hasta el año 2019 a dicho cargo de planta, así mismo se ordene el reconocimiento y pago de todos los emolumentos prestacionales, indemnizatorios y de seguridad social (en la proporción patronal) que se dejaron de cancelar durante toda la relación laboral, de conformidad con lo devengado por un "),
    Campo(CargoLaboral),
    Lit(" de planta y con lo que se pagaba desde el año 2011 y hasta el año 2019 a dicho cargo de planta, que se ordene la devolución de toda deducción existente durante la relación laboral, y se ordene y pague las indemnizaciones por la no consignación de cesantías al fondo de cesantías, sobre las sumas adeudadas se ordene la correspondiente indexación y el pago de los intereses moratorios y se condene en costas a la demandada.")
  ]

  /** The powers granted. */
  const Facultades: Parrafo := [
    Lit("El apoderado especial queda facultado para recibir, transigir, desistir, sustituir, reasumir, conciliar, renunciar; además, facultad expresa de cobrar y recibir el pago de los reconocimientos que así se pretenden, y en general todas las demás facultades necesarias para el cumplimiento de este mandato y conforme a lo establecido por el articulo 77 del Código General del Proceso.")
  ]

  /** The closing. */
  const Despedida: Parrafo := [
    Lit("Respetuosamente,")
  ]

  /** The grantor's signature line. */
  const FirmaPoderdante: Parrafo := [
    Campo(NombrePoderdante),
    Lit(" C.C. "),
    Campo(CedulaPoderdante),
    Lit(" de "),
    Campo(CiudadPoderdanteFirma)
  ]

  /** The acceptance. */
  const Aceptacion: Parrafo := [
    Lit("Acepto,")
  ]

  /** The legal representative's signature block: two lines. */
  const FirmaRepresentante: Parrafo := [
    Campo(NombreRepresentante),
    Lit("\nRepresentante Legal "),
    Campo(NombreOrganizacion),
    Lit(" C.C. "),
    Campo(CedulaRepresentante),
    Lit(" de "),
    Campo(CiudadRepresentanteFirma),
    Lit(" T.P. No "),
    Campo(TarjetaProfesional),
    Lit(" del C. S. de la J.")
  ]

  /** The template: its blocks in order. */
  const Plantilla: seq<Parrafo> := [Destinatario, Otorgamiento, Facultades, Despedida, FirmaPoderdante, Aceptacion, FirmaRepresentante]

  /** Every field a block refers to is present in `campos`. */
  predicate CubreParrafo(p: Parrafo, campos: Dict<string>)
  {
    forall j :: 0 <= j < |p| && p[j].Campo? ==> p[j].clave in Claves(campos)
  }

  /** Every field the template refers to is present in `campos`. */
  predicate Cubre(t: seq<Parrafo>, campos: Dict<string>)
  {
    forall i :: 0 <= i < |t| ==> CubreParrafo(t[i], campos)
  }

  /** Every key the template refers to is one of the 27 fields. */
  lemma PlantillaUsaCampos()
    ensures Cubre(Plantilla, CamposPorDefecto)
  {
    ClavesPorDefecto();
    OtorgamientoUsaCampos();
    assert CubreParrafo(Destinatario, CamposPorDefecto);
    assert CubreParrafo(Facultades, CamposPorDefecto);
    assert CubreParrafo(Despedida, CamposPorDefecto);
    assert CubreParrafo(FirmaPoderdante, CamposPorDefecto);
    assert CubreParrafo(Aceptacion, CamposPorDefecto);
    assert CubreParrafo(FirmaRepresentante, CamposPorDefecto);
  }

  lemma OtorgamientoUsaCampos()
    ensures forall j :: 0 <= j < |Otorgamiento| && Otorgamiento[j].Campo? ==> Otorgamiento[j].clave in ClavesPoder
  {
    forall j | 0 <= j < |Otorgamiento| && Otorgamiento[j].Campo? ensures Otorgamiento[j].clave in ClavesPoder {
      if j < |Concesion| {
        assert Otorgamiento[j] == Concesion[j];
      } else {
        assert Otorgamiento[j] == Pretension[j - |Concesion|];
      }
    }
  }

  /**
    A block with its fields substituted, as the f-string evaluates it: left to right,
    raising `KeyError` for the first field `campos` lacks.
   */
  function RenderParrafo(p: Parrafo, campos: Dict<string>): (r: Result<string, string>)
    ensures r.Ok? <==> CubreParrafo(p, campos)
    ensures r.Err? ==> exists j :: 0 <= j < |p| && p[j] == Campo(r.error) && r.error !in Claves(campos) &&
                                   (forall j' :: 0 <= j' < j && p[j'].Campo? ==> p[j'].clave in Claves(campos))
  {
    if p == [] then Ok("")
    else
      var cabeza := match p[0]
        case Lit(s) => Ok(s)
        case Campo(k) => (match Obtener(campos, k) case None => Err(k) case Some(v) => Ok(v));
      if cabeza.Err? then Err(cabeza.error)
      else match RenderParrafo(p[1..], campos)
        case Err(k) => Err(k)
        case Ok(resto) => Ok(cabeza.value + resto)
  }

  /** All blocks substituted, or the first missing field in template order. */
  function RenderParrafos(t: seq<Parrafo>, campos: Dict<string>): (r: Result<seq<string>, string>)
    ensures r.Ok? <==> Cubre(t, campos)
    ensures r.Ok? ==> |r.value| == |t| && forall i :: 0 <= i < |t| ==> RenderParrafo(t[i], campos) == Ok(r.value[i])
    ensures r.Err? ==> r.error !in Claves(campos) && exists i :: 0 <= i < |t| && RenderParrafo(t[i], campos) == Err(r.error)
  {
    if t == [] then Ok([])
    else match RenderParrafo(t[0], campos)
      case Err(k) => Err(k)
      case Ok(p) =>
        match RenderParrafos(t[1..], campos)
        case Err(k) => Err(k)
        case Ok(ps) => Ok([p] + ps)
  }

  /** The filled-in template text. */
  function Texto(t: seq<Parrafo>, campos: Dict<string>): Result<string, string>
  {
    match RenderParrafos(t, campos)
    case Err(k) => Err(k)
    case Ok(ps) => Ok("\n" + Join("\n\n", ps) + "\n")
  }

  /** The document's paragraphs: the text stripped, split at blank lines, each block stripped, empty ones dropped. */
  function ParrafosDe(texto: string): seq<string>
  {
    Limpias(SplitOn(Strip(texto), "\n\n"))
  }

  // ---------------------------------------------------------------------------
  // The document

  /** A Word document, as far as the power of attorney uses it: its paragraphs. */
  class Documento {
    var parrafos: seq<string>

    constructor()
      ensures parrafos == []
    {
      parrafos := [];
    }

    /** `doc.add_paragraph(texto)`. */
    method AgregarParrafo(texto: string)
      modifies this
      ensures parrafos == old(parrafos) + [texto]
    {
      parrafos := parrafos + [texto];
    }
  }

  /** The paragraph loop: a new document holding the paragraphs of `texto`. */
  method DocumentoDeTexto(texto: string) returns (doc: Documento)
    ensures fresh(doc) && doc.parrafos == ParrafosDe(texto)
  {
    var partes := SplitOn(Strip(texto), "\n\n");
    doc := new Documento();
    for i := 0 to |partes|
      invariant fresh(doc)
      invariant doc.parrafos == Limpias(partes[..i])
    {
      var parrafo := Strip(partes[i]);
      LimpiasPaso(partes, i);
      if parrafo != "" {
        doc.AgregarParrafo(parrafo);
      }
    }
    assert partes[..|partes|] == partes;
  }

  /**
    `generar_documento_poder(campos)`: `KeyError` for the first field the template
    needs and `campos` lacks; otherwise a new document holding the template's
    paragraphs.
   */
  method GenerarDocumentoPoder(campos: Dict<string>) returns (r: Result<Documento, string>)
    ensures r.Err? <==> !Cubre(Plantilla, campos)
    ensures r.Err? ==> Texto(Plantilla, campos) == Err(r.error) && r.error !in Claves(campos)
    ensures r.Ok? ==> fresh(r.value) && r.value.parrafos == ParrafosDe(Texto(Plantilla, campos).value)
  {
    var texto := Texto(Plantilla, campos);
    if texto.Err? {
      return Err(texto.error);
    }
    var doc := DocumentoDeTexto(texto.value);
    r := Ok(doc);
  }

  // ---------------------------------------------------------------------------
  // The paragraphs of the document

  /** Every line break is followed by a character that is not one: no blank line, and no break at the end. */
  predicate SaltosSimples(s: string)
  {
    forall i :: 0 <= i < |s| && s[i] == '\n' ==> i + 1 < |s| && s[i + 1] != '\n'
  }

  /** No field value holds a line break. */
  predicate ValoresSinSaltos(campos: Dict<string>)
  {
    forall i :: 0 <= i < |campos| ==> '\n' !in campos[i].1
  }

  /** No literal text of the template holds a blank line or ends in a line break. */
  predicate ProsaSimple(t: seq<Parrafo>)
  {
    forall i, j :: 0 <= i < |t| && 0 <= j < |t[i]| && t[i][j].Lit? ==> SaltosSimples(t[i][j].texto)
  }

  /** A block holding some literal text that is not all whitespace. */
  predicate ConTexto(p: Parrafo)
  {
    exists j :: 0 <= j < |p| && p[j].Lit? && !AllSpace(p[j].texto)
  }

  /**
    The shape the paragraph split relies on: every block holds some text, the
    literal text has no blank lines, the first block starts and the last block
    ends with literal non-whitespace text.
   */
  predicate BienFormada(t: seq<Parrafo>)
  {
    && |t| > 0
    && (forall i :: 0 <= i < |t| ==> ConTexto(t[i]))
    && ProsaSimple(t)
    && |t[0]| > 0 && t[0][0].Lit? && |t[0][0].texto| > 0 && !IsSpace(t[0][0].texto[0])
    && var u := t[|t| - 1];
      && |u| > 0 && u[|u| - 1].Lit? && |u[|u| - 1].texto| > 0
      && !IsSpace(u[|u| - 1].texto[|u[|u| - 1].texto| - 1])
  }

  lemma SaltosConcat(a: string, b: string)
    requires SaltosSimples(a) && SaltosSimples(b)
    ensures SaltosSimples(a + b)
  {
    var s := a + b;
    forall i | 0 <= i < |s| && s[i] == '\n' ensures i + 1 < |s| && s[i + 1] != '\n' {
      if i < |a| {
        assert a[i] == '\n';
        assert s[i + 1] == a[i + 1];
      } else {
        assert b[i - |a|] == '\n';
        assert s[i + 1] == b[i - |a| + 1];
      }
    }
  }

  /** A block rendered with newline-free values has no blank line and does not end in a line break. */
  lemma {:induction false} RenderSimple(p: Parrafo, campos: Dict<string>)
    requires forall j :: 0 <= j < |p| && p[j].Lit? ==> SaltosSimples(p[j].texto)
    requires ValoresSinSaltos(campos)
    requires RenderParrafo(p, campos).Ok?
    ensures SaltosSimples(RenderParrafo(p, campos).value)
  {
    if p != [] {
      var cabeza := match p[0] case Lit(s) => s case Campo(k) => Obtener(campos, k).value;
      if p[0].Campo? {
        var i :| 0 <= i < |campos| && campos[i] == (p[0].clave, cabeza);
        assert '\n' !in cabeza;
      }
      RenderSimple(p[1..], campos);
      SaltosConcat(cabeza, RenderParrafo(p[1..], campos).value);
    }
  }

  /** A block holding some non-whitespace literal text renders to text that is not all whitespace. */
  lemma {:induction false} RenderConTexto(p: Parrafo, campos: Dict<string>)
    requires ConTexto(p)
    requires RenderParrafo(p, campos).Ok?
    ensures !AllSpace(RenderParrafo(p, campos).value)
  {
    var j :| 0 <= j < |p| && p[j].Lit? && !AllSpace(p[j].texto);
    var r := RenderParrafo(p, campos).value;
    var resto := RenderParrafo(p[1..], campos).value;
    assert r[|r| - |resto|..] == resto;
    if j == 0 {
      assert r[..|p[0].texto|] == p[0].texto;
    } else {
      assert p[1..][j - 1] == p[j];
      RenderConTexto(p[1..], campos);
    }
  }

  /** The first character of a rendered block is that of its leading literal. */
  lemma RenderPrimero(p: Parrafo, campos: Dict<string>)
    requires |p| > 0 && p[0].Lit? && |p[0].texto| > 0
    requires RenderParrafo(p, campos).Ok?
    ensures RenderParrafo(p, campos).value[0] == p[0].texto[0]
  {
  }

  /** The last character of a rendered block is that of its trailing literal. */
  lemma {:induction false} RenderUltimo(p: Parrafo, campos: Dict<string>)
    requires |p| > 0 && p[|p| - 1].Lit? && |p[|p| - 1].texto| > 0
    requires RenderParrafo(p, campos).Ok?
    ensures var r := RenderParrafo(p, campos).value; var l := p[|p| - 1].texto;
      |r| > 0 && r[|r| - 1] == l[|l| - 1]
  {
    if |p| > 1 {
      assert p[1..][|p| - 2] == p[|p| - 1];
      RenderUltimo(p[1..], campos);
    }
  }

  /** Blocks without blank lines, joined by blank lines, split back into those blocks. */
  lemma {:induction false} SplitJoin(ps: seq<string>)
    requires |ps| > 0
    requires forall i :: 0 <= i < |ps| ==> SaltosSimples(ps[i])
    ensures SplitOn(Join("\n\n", ps), "\n\n") == ps
    decreases |ps|
  {
    var a := ps[0];
    if |ps| == 1 {
      forall j ensures !OccursAt(a, "\n\n", j) {
        if 0 <= j && j + 2 <= |a| {
          assert a[j..j + 2][0] == a[j];
          assert a[j..j + 2][1] == a[j + 1];
        }
      }
      SplitOnAbsent(a, "\n\n");
    } else {
      var b := Join("\n\n", ps[1..]);
      var s := a + "\n\n" + b;
      forall j | 0 <= j <= |a| - 1 ensures !OccursAt(s, "\n\n", j) {
        assert s[j..j + 2][0] == s[j] == a[j];
        assert s[j..j + 2][1] == s[j + 1];
        if j + 1 < |a| {
          assert s[j + 1] == a[j + 1];
        }
      }
      SplitOnFirst(a, "\n\n", b);
      forall i | 0 <= i < |ps| - 1 ensures SaltosSimples(ps[1..][i]) {
        assert ps[1..][i] == ps[i + 1];
      }
      SplitJoin(ps[1..]);
      assert [a] + ps[1..] == ps;
    }
  }

  /** The joined text starts with the first block's first character. */
  lemma JoinPrimero(ps: seq<string>)
    requires |ps| > 0 && |ps[0]| > 0
    ensures var x := Join("\n\n", ps); |x| > 0 && x[0] == ps[0][0]
  {
  }

  /** The joined text ends with the last block's last character. */
  lemma {:induction false} JoinUltimo(ps: seq<string>)
    requires |ps| > 0 && |ps[|ps| - 1]| > 0
    ensures var x := Join("\n\n", ps); var u := ps[|ps| - 1];
      |x| > 0 && x[|x| - 1] == u[|u| - 1]
    decreases |ps|
  {
    if |ps| > 1 {
      assert ps[1..][|ps| - 2] == ps[|ps| - 1];
      JoinUltimo(ps[1..]);
    }
  }

  /** The filled-in text, stripped, is the blocks joined by blank lines. */
  lemma StripTexto(ps: seq<string>)
    requires |ps| > 0 && |ps[0]| > 0 && |ps[|ps| - 1]| > 0
    requires !IsSpace(ps[0][0]) && !IsSpace(ps[|ps| - 1][|ps[|ps| - 1]| - 1])
    ensures Strip("\n" + Join("\n\n", ps) + "\n") == Join("\n\n", ps)
  {
    JoinPrimero(ps);
    JoinUltimo(ps);
    assert AllSpace("\n");
    StripFrame("\n", Join("\n\n", ps), "\n");
  }

  /** Stripping strings none of which is all whitespace drops none of them. */
  lemma {:induction false} LimpiasSinBlancos(ps: seq<string>)
    requires forall i :: 0 <= i < |ps| ==> !AllSpace(ps[i])
    ensures |Limpias(ps)| == |ps|
    ensures forall i :: 0 <= i < |ps| ==> Limpias(ps)[i] == Strip(ps[i])
  {
    if ps != [] {
      var init := ps[..|ps| - 1];
      LimpiasSinBlancos(init);
      var l := Strip(ps[|ps| - 1]);
      assert l != [];
      assert Limpias(ps) == Limpias(init) + [l];
      forall i | 0 <= i < |init| ensures Limpias(ps)[i] == Strip(ps[i]) {
        assert init[i] == ps[i];
      }
    }
  }

  /** Rendered with newline-free values, every block is free of blank lines and not all whitespace. */
  lemma BloquesRenderizados(t: seq<Parrafo>, campos: Dict<string>)
    requires BienFormada(t) && Cubre(t, campos) && ValoresSinSaltos(campos)
    ensures var ps := RenderParrafos(t, campos).value;
      forall i :: 0 <= i < |ps| ==> SaltosSimples(ps[i]) && !AllSpace(ps[i])
  {
    var ps := RenderParrafos(t, campos).value;
    forall i | 0 <= i < |t| ensures SaltosSimples(ps[i]) && !AllSpace(ps[i]) {
      RenderSimple(t[i], campos);
      RenderConTexto(t[i], campos);
    }
  }

  /**
    The paragraph split finds the template's blocks: with every field present and
    no field value holding a line break, the document has one paragraph per block,
    in order, each the block's text stripped.
   */
  lemma ParrafosDocumento(t: seq<Parrafo>, campos: Dict<string>)
    requires BienFormada(t) && Cubre(t, campos) && ValoresSinSaltos(campos)
    ensures Texto(t, campos).Ok?
    ensures var ps := RenderParrafos(t, campos).value; var d := ParrafosDe(Texto(t, campos).value);
      |d| == |t| && forall i :: 0 <= i < |t| ==> d[i] == Strip(ps[i])
  {
    var ps := RenderParrafos(t, campos).value;
    BloquesListos(t, campos);
    TextoDeBloques(t, campos);
    ParrafosDeBloques(ps);
  }

  /** With every field present, the text is the rendered blocks joined by blank lines between two line breaks. */
  lemma TextoDeBloques(t: seq<Parrafo>, campos: Dict<string>)
    requires Cubre(t, campos)
    ensures Texto(t, campos) == Ok("\n" + Join("\n\n", RenderParrafos(t, campos).value) + "\n")
  {
  }

  /** The rendered blocks meet what the paragraph split needs. */
  lemma BloquesListos(t: seq<Parrafo>, campos: Dict<string>)
    requires BienFormada(t) && Cubre(t, campos) && ValoresSinSaltos(campos)
    ensures RenderParrafos(t, campos).Ok? && Bloques(RenderParrafos(t, campos).value)
  {
    BloquesRenderizados(t, campos);
    ExtremosRenderizados(t, campos);
  }

  /** The rendered template starts and ends with non-whitespace characters of its literal text. */
  lemma ExtremosRenderizados(t: seq<Parrafo>, campos: Dict<string>)
    requires BienFormada(t) && Cubre(t, campos)
    ensures var ps := RenderParrafos(t, campos).value; var u := ps[|ps| - 1];
      && |ps| > 0 && |ps[0]| > 0 && |u| > 0
      && !IsSpace(ps[0][0]) && !IsSpace(u[|u| - 1])
  {
    RenderPrimero(t[0], campos);
    RenderUltimo(t[|t| - 1], campos);
  }

  /**
    Rendered blocks as the paragraph split needs them: at least one, none holding a
    blank line or only whitespace, the first starting and the last ending with a
    character that is not whitespace.
   */
  predicate Bloques(ps: seq<string>)
  {
    && |ps| > 0 && |ps[0]| > 0 && |ps[|ps| - 1]| > 0
    && !IsSpace(ps[0][0]) && !IsSpace(ps[|ps| - 1][|ps[|ps| - 1]| - 1])
    && forall i :: 0 <= i < |ps| ==> SaltosSimples(ps[i]) && !AllSpace(ps[i])
  }

  /** Blocks without blank lines, none all whitespace, laid out as the template text, come back as the paragraphs. */
  lemma ParrafosDeBloques(ps: seq<string>)
    requires Bloques(ps)
    ensures var d := ParrafosDe("\n" + Join("\n\n", ps) + "\n");
      |d| == |ps| && forall i :: 0 <= i < |ps| ==> d[i] == Strip(ps[i])
  {
    StripTexto(ps);
    SplitJoin(ps);
    LimpiasSinBlancos(ps);
  }

  /** The value of a present field. */
  function Valor(campos: Dict<string>, k: string): string
    requires k in Claves(campos)
  {
    Obtener(campos, k).value
  }

  /** The concrete template has the shape `BienFormada` asks for, given that its prose has no blank lines. */
  lemma PlantillaBienFormada()
    requires ProsaSimple(Plantilla)
    ensures BienFormada(Plantilla)
  {
    ConTextoDestinatario();
    ConTextoOtorgamiento();
    ConTextoCierres();
    ConTextoFirmaPoderdante();
    ExtremosPlantilla();
    BienFormadaSiete(Destinatario, Otorgamiento, Facultades, Despedida, FirmaPoderdante, Aceptacion, FirmaRepresentante);
  }

  /** Seven blocks that each hold some text, in a template whose prose is simple and whose ends are literal text. */
  lemma BienFormadaSiete(a: Parrafo, b: Parrafo, c: Parrafo, d: Parrafo, e: Parrafo, f: Parrafo, g: Parrafo)
    requires ConTexto(a) && ConTexto(b) && ConTexto(c) && ConTexto(d) && ConTexto(e) && ConTexto(f) && ConTexto(g)
    requires ProsaSimple([a, b, c, d, e, f, g])
    requires |a| > 0 && a[0].Lit? && |a[0].texto| > 0 && !IsSpace(a[0].texto[0])
    requires |g| > 0 && g[|g| - 1].Lit? && |g[|g| - 1].texto| > 0 && !IsSpace(g[|g| - 1].texto[|g[|g| - 1].texto| - 1])
    ensures BienFormada([a, b, c, d, e, f, g])
  {
    ConTextoSiete([a, b, c, d, e, f, g]);
  }

  /** The addressee starts, and the representative's signature ends, with literal text that is not whitespace. */
  lemma ExtremosPlantilla()
    ensures Destinatario[0].Lit? && |Destinatario[0].texto| > 0 && !IsSpace(Destinatario[0].texto[0])
    ensures var l := FirmaRepresentante[|FirmaRepresentante| - 1];
      l.Lit? && |l.texto| > 0 && !IsSpace(l.texto[|l.texto| - 1])
  {
    var l := FirmaRepresentante[9].texto;
    assert !IsSpace(Destinatario[0].texto[0]);
    assert !IsSpace(l[|l| - 1]);
  }

  /** The blocks made of one closing literal: the powers, the closing, the acceptance, the representative's signature. */
  lemma ConTextoCierres()
    ensures ConTexto(Facultades) && ConTexto(Despedida) && ConTexto(Aceptacion) && ConTexto(FirmaRepresentante)
  {
    ConTextoUltimo(Facultades);
    ConTextoUltimo(Despedida);
    ConTextoUltimo(Aceptacion);
    ConTextoUltimo(FirmaRepresentante);
  }

  /** Seven blocks, each holding some text. */
  lemma ConTextoSiete(t: seq<Parrafo>)
    requires |t| == 7 && ConTexto(t[0]) && ConTexto(t[1]) && ConTexto(t[2]) && ConTexto(t[3])
    requires ConTexto(t[4]) && ConTexto(t[5]) && ConTexto(t[6])
    ensures forall i :: 0 <= i < |t| ==> ConTexto(t[i])
  {
  }

  /** A block that ends with literal text whose last character is not whitespace. */
  lemma ConTextoUltimo(p: Parrafo)
    requires |p| > 0 && p[|p| - 1].Lit? && |p[|p| - 1].texto| > 0
    requires !IsSpace(p[|p| - 1].texto[|p[|p| - 1].texto| - 1])
    ensures ConTexto(p)
  {
    var l := p[|p| - 1].texto;
    assert !AllSpace(l) by {
      assert !IsSpace(l[|l| - 1]);
    }
  }

  lemma ConTextoDestinatario()
    ensures ConTexto(Destinatario)
  {
    assert !AllSpace(Destinatario[0].texto) by {
      assert !IsSpace(Destinatario[0].texto[0]);
    }
  }

  lemma ConTextoFirmaPoderdante()
    ensures ConTexto(FirmaPoderdante)
  {
    assert !AllSpace(FirmaPoderdante[1].texto) by {
      assert !IsSpace(FirmaPoderdante[1].texto[4]);
    }
  }

  lemma ConTextoOtorgamiento()
    ensures ConTexto(Otorgamiento)
  {
    var l := Pretension[26].texto;
    assert !IsSpace(l[|l| - 1]);
    assert Otorgamiento[53] == Pretension[26];
  }

  /**
    The paragraphs of any seven-block template whose addressee, closing, grantor
    signature and acceptance blocks are those of the power of attorney.
   */
  lemma DocumentoSiete(t: seq<Parrafo>, campos: Dict<string>)
    requires BienFormada(t) && Cubre(t, campos) && ValoresSinSaltos(campos)
    requires |t| == 7 && t[0] == Destinatario && t[3] == Despedida && t[4] == FirmaPoderdante && t[5] == Aceptacion
    ensures JuezAdministrativo in Claves(campos) && NombrePoderdante in Claves(campos)
    ensures CedulaPoderdante in Claves(campos) && CiudadPoderdanteFirma in Claves(campos)
    ensures Texto(t, campos).Ok?
    ensures var d := ParrafosDe(Texto(t, campos).value);
      var juez := Valor(campos, JuezAdministrativo);
      && |d| == 7
      && d[0] == Strip("Señores " + juez)
      && (|juez| > 0 && !IsSpace(juez[|juez| - 1]) ==> d[0] == "Señores " + juez)
      && d[3] == "Respetuosamente,"
      && d[4] == Strip(Valor(campos, NombrePoderdante) + " C.C. " + Valor(campos, CedulaPoderdante)
                       + " de " + Valor(campos, CiudadPoderdanteFirma))
      && d[5] == "Acepto,"
  {
    assert CubreParrafo(t[0], campos) && CubreParrafo(t[4], campos);
    RenderDestinatario(campos);
    RenderFirmaPoderdante(campos);
    DocumentoFijos(t, campos);
    var juez := Valor(campos, JuezAdministrativo);
    var dest := "Señores " + juez;
    assert dest[0] == 'S' && (|juez| > 0 ==> dest[|dest| - 1] == juez[|juez| - 1]);
    ParrafoDocumento(t, campos, 0, dest);
    ParrafoDocumento(t, campos, 4, Valor(campos, NombrePoderdante) + " C.C. " + Valor(campos, CedulaPoderdante)
                                   + " de " + Valor(campos, CiudadPoderdanteFirma));
  }

  /** The closing and acceptance paragraphs, which hold no field. */
  lemma DocumentoFijos(t: seq<Parrafo>, campos: Dict<string>)
    requires BienFormada(t) && Cubre(t, campos) && ValoresSinSaltos(campos)
    requires |t| == 7 && t[3] == Despedida && t[5] == Aceptacion
    ensures Texto(t, campos).Ok?
    ensures var d := ParrafosDe(Texto(t, campos).value);
      |d| == 7 && d[3] == "Respetuosamente," && d[5] == "Acepto,"
  {
    var r, ac := "Respetuosamente,", "Acepto,";
    assert RenderParrafo(t[3], campos) == Ok(r) && |r| > 0 && !IsSpace(r[0]) && !IsSpace(r[|r| - 1]) by {
      RenderFijos(campos);
      assert r[0] == 'R' && r[|r| - 1] == ',';
    }
    ParrafoLimpio(t, campos, 3, r);
    assert RenderParrafo(t[5], campos) == Ok(ac) && |ac| > 0 && !IsSpace(ac[0]) && !IsSpace(ac[|ac| - 1]) by {
      RenderFijos(campos);
      assert ac[0] == 'A' && ac[|ac| - 1] == ',';
    }
    ParrafoLimpio(t, campos, 5, ac);
  }

  /** The paragraph of the document that comes from block `i`, rendered as `s`. */
  lemma ParrafoDocumento(t: seq<Parrafo>, campos: Dict<string>, i: nat, s: string)
    requires BienFormada(t) && Cubre(t, campos) && ValoresSinSaltos(campos)
    requires i < |t| && RenderParrafo(t[i], campos) == Ok(s)
    ensures Texto(t, campos).Ok?
    ensures var d := ParrafosDe(Texto(t, campos).value);
      && |d| == |t| && d[i] == Strip(s)
      && (|s| > 0 && !IsSpace(s[0]) && !IsSpace(s[|s| - 1]) ==> d[i] == s)
  {
    ParrafosDocumento(t, campos);
    if |s| > 0 && !IsSpace(s[0]) && !IsSpace(s[|s| - 1]) {
      LineaLimpia(s);
    }
  }

  /** A block rendered with non-whitespace ends is a paragraph of the document as it is. */
  lemma ParrafoLimpio(t: seq<Parrafo>, campos: Dict<string>, i: nat, s: string)
    requires BienFormada(t) && Cubre(t, campos) && ValoresSinSaltos(campos)
    requires i < |t| && RenderParrafo(t[i], campos) == Ok(s)
    requires |s| > 0 && !IsSpace(s[0]) && !IsSpace(s[|s| - 1])
    ensures Texto(t, campos).Ok?
    ensures var d := ParrafosDe(Texto(t, campos).value); |d| == |t| && d[i] == s
  {
    ParrafoDocumento(t, campos, i, s);
  }

  /** The addressee block, rendered. */
  lemma RenderDestinatario(campos: Dict<string>)
    requires CubreParrafo(Destinatario, campos)
    ensures JuezAdministrativo in Claves(campos)
    ensures RenderParrafo(Destinatario, campos) == Ok("Señores " + Valor(campos, JuezAdministrativo))
  {
    assert Destinatario[1] == Campo(JuezAdministrativo);
    var juez := Valor(campos, JuezAdministrativo);
    var f1: Parrafo := [Campo(JuezAdministrativo)];
    assert RenderParrafo([], campos) == Ok("");
    RenderCampo(JuezAdministrativo, [], campos);
    assert f1 == [Campo(JuezAdministrativo)] + [] && juez + "" == juez;
    RenderLit("Señores ", f1, campos);
    assert Destinatario == [Lit("Señores ")] + f1;
  }

  /** The grantor's signature block, rendered. */
  lemma RenderFirmaPoderdante(campos: Dict<string>)
    requires CubreParrafo(FirmaPoderdante, campos)
    ensures NombrePoderdante in Claves(campos)
    ensures CedulaPoderdante in Claves(campos) && CiudadPoderdanteFirma in Claves(campos)
    ensures RenderParrafo(FirmaPoderdante, campos)
         == Ok(Valor(campos, NombrePoderdante) + " C.C. " + Valor(campos, CedulaPoderdante)
               + " de " + Valor(campos, CiudadPoderdanteFirma))
  {
    assert FirmaPoderdante[0] == Campo(NombrePoderdante) && FirmaPoderdante[2] == Campo(CedulaPoderdante);
    assert FirmaPoderdante[4] == Campo(CiudadPoderdanteFirma);
    var f4 := [Campo(CiudadPoderdanteFirma)];
    var f3 := [Lit(" de ")] + f4;
    var f2 := [Campo(CedulaPoderdante)] + f3;
    var f1 := [Lit(" C.C. ")] + f2;
    assert RenderParrafo([], campos) == Ok("");
    RenderCampo(CiudadPoderdanteFirma, [], campos);
    assert [Campo(CiudadPoderdanteFirma)] + [] == f4;
    assert Valor(campos, CiudadPoderdanteFirma) + "" == Valor(campos, CiudadPoderdanteFirma);
    RenderLit(" de ", f4, campos);
    RenderCampo(CedulaPoderdante, f3, campos);
    RenderLit(" C.C. ", f2, campos);
    RenderCampo(NombrePoderdante, f1, campos);
    assert FirmaPoderdante == [Campo(NombrePoderdante)] + f1;
    var n, c, ciudad := Valor(campos, NombrePoderdante), Valor(campos, CedulaPoderdante), Valor(campos, CiudadPoderdanteFirma);
    Reasocia(n, " C.C. ", c, " de ", ciudad);
  }

  lemma Reasocia(a: string, b: string, c: string, d: string, e: string)
    ensures a + (b + (c + (d + e))) == a + b + c + d + e
  {
    assert c + (d + e) == c + d + e;
    assert b + (c + d + e) == b + c + d + e;
  }

  /** The closing and acceptance blocks, which hold no field. */
  lemma RenderFijos(campos: Dict<string>)
    ensures RenderParrafo(Despedida, campos) == Ok("Respetuosamente,")
    ensures RenderParrafo(Aceptacion, campos) == Ok("Acepto,")
  {
    assert RenderParrafo([], campos) == Ok("");
    RenderLit("Respetuosamente,", [], campos);
    RenderLit("Acepto,", [], campos);
    assert "Respetuosamente," + "" == "Respetuosamente," && "Acepto," + "" == "Acepto,";
    assert Despedida == [Lit("Respetuosamente,")] + [];
    assert Aceptacion == [Lit("Acepto,")] + [];
  }

  lemma RenderLit(s: string, q: Parrafo, campos: Dict<string>)
    requires RenderParrafo(q, campos).Ok?
    ensures RenderParrafo([Lit(s)] + q, campos) == Ok(s + RenderParrafo(q, campos).value)
  {
    assert ([Lit(s)] + q)[1..] == q;
  }

  lemma RenderCampo(k: string, q: Parrafo, campos: Dict<string>)
    requires k in Claves(campos) && RenderParrafo(q, campos).Ok?
    ensures RenderParrafo([Campo(k)] + q, campos) == Ok(Valor(campos, k) + RenderParrafo(q, campos).value)
  {
    assert ([Campo(k)] + q)[1..] == q;
  }

  /** Text starting and ending with non-whitespace is its own stripped form. */
  lemma LineaLimpia(a: string)
    requires |a| > 0 && !IsSpace(a[0]) && !IsSpace(a[|a| - 1])
    ensures Strip(a) == a
  {
    StripFrame([], a, []);
    assert [] + a + [] == a;
  }

  /**
    The power of attorney's paragraphs, when its prose has no blank lines and no
    field value holds a line break: seven of them, the first addressing the judge,
    the fourth "Respetuosamente,", the fifth the grantor's signature line and the
    sixth "Acepto,".
   */
  lemma DocumentoPoder(campos: Dict<string>)
    requires ProsaSimple(Plantilla)
    requires Cubre(Plantilla, campos) && ValoresSinSaltos(campos)
    ensures JuezAdministrativo in Claves(campos) && NombrePoderdante in Claves(campos)
    ensures CedulaPoderdante in Claves(campos) && CiudadPoderdanteFirma in Claves(campos)
    ensures Texto(Plantilla, campos).Ok?
    ensures var d := ParrafosDe(Texto(Plantilla, campos).value);
      var juez := Valor(campos, JuezAdministrativo);
      && |d| == 7
      && d[0] == Strip("Señores " + juez)
      && (|juez| > 0 && !IsSpace(juez[|juez| - 1]) ==> d[0] == "Señores " + juez)
      && d[3] == "Respetuosamente,"
      && d[4] == Strip(Valor(campos, NombrePoderdante) + " C.C. " + Valor(campos, CedulaPoderdante)
                       + " de " + Valor(campos, CiudadPoderdanteFirma))
      && d[5] == "Acepto,"
  {
    PlantillaBienFormada();
    DocumentoSiete(Plantilla, campos);
  }
}
