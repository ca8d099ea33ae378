/** The web front end (scripts.js): the search filter, the date check, the KPI totals, the
    row class and alert decision, and the add/edit state with the request a submit sends.
    The DOM, `fetch` and the server are outside the model; `Date.parse` and `parseFloat`
    are function arguments, `parseInt` is `Texto.ParseInt`. */
module Frontend {
  import opened Wrappers
  import opened Texto
  import opened Secuencias
  import opened Cultivos

  /** A price as the API's JSON gives it. */
  datatype Valor = Num(x: real) | Cadena(s: string) | Ausente

  /** One element of `cultivosData`; `None` is an absent (`undefined`) field. */
  datatype CultivoWeb = CultivoWeb(
    nombre: Option<string>,
    zona: Option<string>,
    notas: Option<string>,
    fechaSiembra: Option<string>,
    fechaCosecha: Option<string>,
    precioCompra: Valor,
    precioVenta: Valor,
    diasAlerta: Option<int>,
    diasRestantes: Option<string>)

  // ----------------------------------------------------------------------------------------
  // `filtrarCultivos`

  /** `(campo || '')`. */
  function OVacio(campo: Option<string>): string {
    if campo.Some? then campo.value else ""
  }

  /** The searchable text of a crop: name, zone, notes and harvest date, lowercased. */
  function ContenidoBusqueda(c: CultivoWeb): string {
    Minusculas(OVacio(c.nombre) + OVacio(c.zona) + OVacio(c.notas) + OVacio(c.fechaCosecha))
  }

  /** `searchInput.value.toLowerCase().trim()`. */
  function Consulta(texto: string): string {
    Recortar(Minusculas(texto))
  }

  function CoincideCon(consulta: string): CultivoWeb -> bool {
    (c: CultivoWeb) => Contiene(ContenidoBusqueda(c), consulta)
  }

  /** The crops the table shows for a search text: all of them, unchanged, for a blank
      query; otherwise, in their order, exactly those whose content contains the query. */
  function FiltrarCultivos(datos: seq<CultivoWeb>, texto: string): (r: seq<CultivoWeb>)
    ensures Consulta(texto) == "" ==> r == datos
    ensures Consulta(texto) != "" ==> EsSubsecuencia(r, datos)
    ensures Consulta(texto) != "" ==>
      forall c :: c in r <==> c in datos && Contiene(ContenidoBusqueda(c), Consulta(texto))
    ensures Consulta(texto) != "" ==>
      forall c :: multiset(r)[c] == if Contiene(ContenidoBusqueda(c), Consulta(texto)) then multiset(datos)[c] else 0
  {
    var q := Consulta(texto);
    if q == "" then datos
    else
      var r := Filtrar(datos, CoincideCon(q));
      FiltrarSubsecuencia(datos, CoincideCon(q));
      assert forall c :: c in r <==> c in datos && CoincideCon(q)(c) by {
        forall c ensures c in r <==> c in datos && CoincideCon(q)(c) {
          FiltrarMiembro(datos, CoincideCon(q), c);
        }
      }
      assert forall c :: multiset(r)[c] == if CoincideCon(q)(c) then multiset(datos)[c] else 0 by {
        forall c ensures multiset(r)[c] == if CoincideCon(q)(c) then multiset(datos)[c] else 0 {
          FiltrarMultiplicidad(datos, CoincideCon(q), c);
        }
      }
      r
  }

  /** Filtering twice with the same text is filtering once. */
  lemma FiltrarIdempotente(datos: seq<CultivoWeb>, texto: string)
    ensures FiltrarCultivos(FiltrarCultivos(datos, texto), texto) == FiltrarCultivos(datos, texto)
  {
    var q := Consulta(texto);
    if q != "" {
      FiltrarDosVeces(datos, CoincideCon(q));
    }
  }

  lemma {:induction false} FiltrarDosVeces(s: seq<CultivoWeb>, p: CultivoWeb -> bool)
    ensures Filtrar(Filtrar(s, p), p) == Filtrar(s, p)
  {
    if s != [] {
      var init := s[..|s| - 1];
      var x := s[|s| - 1];
      FiltrarDosVeces(init, p);
      if p(x) {
        var f := Filtrar(init, p) + [x];
        assert f[..|f| - 1] == Filtrar(init, p) && f[|f| - 1] == x;
        assert Filtrar(f, p) == Filtrar(Filtrar(init, p), p) + [x];
        assert Filtrar(s, p) == f;
      } else {
        assert Filtrar(s, p) == Filtrar(init, p);
      }
    }
  }

  // ----------------------------------------------------------------------------------------
  // `validarFechas`

  /** `Date.parse(a) > Date.parse(b)` is false when either is `NaN`, so only two parsed
      dates in the wrong order are rejected. */
  function ValidarFechas(siembra: string, cosecha: string, parse: string -> Option<int>): (r: bool)
    ensures !r <==> parse(siembra).Some? && parse(cosecha).Some? && parse(siembra).value > parse(cosecha).value
  {
    var s := parse(siembra);
    var c := parse(cosecha);
    !(s.Some? && c.Some? && s.value > c.value)
  }

  /** The web check accepts exactly the date pairs the desktop form accepts, when both
      parse, and never rejects a pair it cannot parse. */
  lemma ValidarFechasComoEscritorio(siembra: string, cosecha: string, parse: string -> Option<int>)
    ensures parse(siembra).Some? && parse(cosecha).Some? ==>
      (ValidarFechas(siembra, cosecha, parse) <==> parse(siembra).value <= parse(cosecha).value)
    ensures parse(siembra).None? || parse(cosecha).None? ==> ValidarFechas(siembra, cosecha, parse)
    ensures ValidarFechas(siembra, siembra, parse)
  {
  }

  // ----------------------------------------------------------------------------------------
  // `actualizarKpis`

  /** `parseFloat(x) || 0`: a number stays, a text is parsed, anything unparseable is 0. */
  function NumeroOCero(v: Valor, parseFloat: string -> Option<real>): real {
    match v
    case Num(x) => x
    case Cadena(s) => if parseFloat(s).Some? then parseFloat(s).value else 0.0
    case Ausente => 0.0
  }

  function Costo(parseFloat: string -> Option<real>): CultivoWeb -> real {
    (c: CultivoWeb) => NumeroOCero(c.precioCompra, parseFloat)
  }

  function Venta(parseFloat: string -> Option<real>): CultivoWeb -> real {
    (c: CultivoWeb) => NumeroOCero(c.precioVenta, parseFloat)
  }

  function Ganancia(parseFloat: string -> Option<real>): CultivoWeb -> real {
    (c: CultivoWeb) => NumeroOCero(c.precioVenta, parseFloat) - NumeroOCero(c.precioCompra, parseFloat)
  }

  /** The colour of the profit figure. */
  datatype ColorKpi = ColorPrimario | ColorPeligro

  datatype Kpis = Kpis(costoTotal: real, ventaTotal: real, ganancia: real, color: ColorKpi)

  /** `actualizarKpis`: the totals over the list, profit = sales - cost, and the primary
      colour exactly when the profit is not negative. */
  method ActualizarKpis(cultivos: seq<CultivoWeb>, parseFloat: string -> Option<real>) returns (k: Kpis)
    ensures k.costoTotal == Suma(cultivos, Costo(parseFloat))
    ensures k.ventaTotal == Suma(cultivos, Venta(parseFloat))
    ensures k.ganancia == k.ventaTotal - k.costoTotal == Suma(cultivos, Ganancia(parseFloat))
    ensures k.color == ColorPrimario <==> k.ganancia >= 0.0
  {
    var costoTotal, ventaTotal := 0.0, 0.0;
    for i := 0 to |cultivos|
      invariant costoTotal == Suma(cultivos[..i], Costo(parseFloat))
      invariant ventaTotal == Suma(cultivos[..i], Venta(parseFloat))
    {
      assert cultivos[..i + 1][..i] == cultivos[..i];
      costoTotal := costoTotal + NumeroOCero(cultivos[i].precioCompra, parseFloat);
      ventaTotal := ventaTotal + NumeroOCero(cultivos[i].precioVenta, parseFloat);
    }
    assert cultivos[..|cultivos|] == cultivos;
    forall c | c in cultivos
      ensures Ganancia(parseFloat)(c) == Venta(parseFloat)(c) - Costo(parseFloat)(c) {
    }
    SumaResta(cultivos, Venta(parseFloat), Costo(parseFloat), Ganancia(parseFloat));
    var ganancia := ventaTotal - costoTotal;
    k := Kpis(costoTotal, ventaTotal, ganancia, if ganancia >= 0.0 then ColorPrimario else ColorPeligro);
  }

  // ----------------------------------------------------------------------------------------
  // `renderizarTabla`: the status class and the alert row

  datatype ClaseCosecha = ClaseHoy | ClasePasada | ClaseFutura

  /** The status class of the "time remaining" cell: today's harvest takes precedence, then
      a past harvest, and anything else (including no text) is a future one. */
  function ClaseEstado(diasRestantes: Option<string>): (r: ClaseCosecha)
    ensures r == ClaseHoy <==> diasRestantes.Some? && Contiene(diasRestantes.value, "COSECHA HOY")
    ensures r == ClasePasada <==>
      diasRestantes.Some? && !Contiene(diasRestantes.value, "COSECHA HOY") && Contiene(diasRestantes.value, "Cosechado hace")
  {
    if diasRestantes.Some? && Contiene(diasRestantes.value, "COSECHA HOY") then ClaseHoy
    else if diasRestantes.Some? && Contiene(diasRestantes.value, "Cosechado hace") then ClasePasada
    else ClaseFutura
  }

  /** A pattern holding a character the text lacks does not occur in it. */
  lemma SinCaracter(texto: string, patron: string, c: char)
    requires c in patron && c !in texto
    ensures !Contiene(texto, patron)
  {
    var j :| 0 <= j < |patron| && patron[j] == c;
    forall i | 0 <= i <= |texto| - |patron| ensures !ApareceEn(texto, patron, i) {
      assert texto[i + j] in texto;
      assert texto[i..i + |patron|][j] != patron[j];
    }
  }

  /** Digits hold no letter. */
  lemma LetraFueraDeDigitos(d: string, c: char)
    requires TodoDigitos(d) && !EsDigito(c)
    ensures c !in d
  {
  }

  /** A character that is no digit and is missing from both ends is missing from the whole
      text built around a number. */
  lemma FueraDelTexto(pre: string, d: string, suf: string, c: char)
    requires TodoDigitos(d) && !EsDigito(c) && c !in pre && c !in suf
    ensures c !in pre + d + suf
  {
    LetraFueraDeDigitos(d, c);
    assert pre + d + suf == pre + (d + suf);
  }

  /** The fixed parts of the desktop's past-harvest text. */
  lemma PartesPasado()
    ensures 'Y' !in "¡COSECHADO HACE " && 'Y' !in " DÍAS!"
    ensures 'o' !in "¡COSECHADO HACE " && 'o' !in " DÍAS!"
  {
  }

  /** The fixed part of the desktop's future-harvest text. */
  lemma PartesFuturo()
    ensures 'Y' !in "" && 'Y' !in " Días Restantes"
    ensures 'C' !in "" && 'C' !in " Días Restantes"
  {
  }

  /** Where the two patterns of the status class hold 'Y', 'C' and 'o'. */
  lemma LetrasPatrones()
    ensures 'Y' in "COSECHA HOY" && 'C' in "Cosechado hace" && 'o' in "Cosechado hace"
  {
    assert "COSECHA HOY"[10] == 'Y';
    assert "Cosechado hace"[0] == 'C';
    assert "Cosechado hace"[1] == 'o';
  }

  /** The desktop's text for a past harvest holds neither "COSECHA HOY" nor "Cosechado hace". */
  lemma TextoPasado(cosecha: int, hoy: int)
    requires cosecha < hoy
    ensures !Contiene(TiempoRestante(cosecha, hoy), "COSECHA HOY")
    ensures !Contiene(TiempoRestante(cosecha, hoy), "Cosechado hace")
  {
    var digitos := Decimal(hoy - cosecha);
    var t := TiempoRestante(cosecha, hoy);
    assert t == "¡COSECHADO HACE " + digitos + " DÍAS!";
    PartesPasado();
    LetrasPatrones();
    FueraDelTexto("¡COSECHADO HACE ", digitos, " DÍAS!", 'Y');
    FueraDelTexto("¡COSECHADO HACE ", digitos, " DÍAS!", 'o');
    SinCaracter(t, "COSECHA HOY", 'Y');
    SinCaracter(t, "Cosechado hace", 'o');
  }

  /** The desktop's text for a future harvest holds neither pattern. */
  lemma TextoFuturo(cosecha: int, hoy: int)
    requires cosecha > hoy
    ensures !Contiene(TiempoRestante(cosecha, hoy), "COSECHA HOY")
    ensures !Contiene(TiempoRestante(cosecha, hoy), "Cosechado hace")
  {
    var digitos := Decimal(cosecha - hoy);
    var t := TiempoRestante(cosecha, hoy);
    assert t == "" + digitos + " Días Restantes";
    PartesFuturo();
    LetrasPatrones();
    FueraDelTexto("", digitos, " Días Restantes", 'Y');
    FueraDelTexto("", digitos, " Días Restantes", 'C');
    SinCaracter(t, "COSECHA HOY", 'Y');
    SinCaracter(t, "Cosechado hace", 'C');
  }

  /** The desktop's harvest-day text holds "COSECHA HOY". */
  lemma TextoHoyContiene()
    ensures Contiene(TextoHoy, "COSECHA HOY")
  {
    assert TextoHoy[1..12] == "COSECHA HOY";
    assert ApareceEn(TextoHoy, "COSECHA HOY", 1);
  }

  /** Applied to the desktop's wording of the remaining time, the status class is "today"
      exactly on the harvest day; a past harvest, written in capitals there, falls through
      to the future class. */
  lemma ClaseDeTextoEscritorio(cosecha: int, hoy: int)
    ensures ClaseEstado(Some(TiempoRestante(cosecha, hoy))) == if cosecha == hoy then ClaseHoy else ClaseFutura
  {
    if cosecha == hoy {
      assert TiempoRestante(cosecha, hoy) == TextoHoy;
      TextoHoyContiene();
    } else if cosecha < hoy {
      TextoPasado(cosecha, hoy);
    } else {
      TextoFuturo(cosecha, hoy);
    }
  }

  /** `parseInt(dias_restantes)` is a number with `0 < dias <= dias_alerta`; an absent
      alert window compares false. */
  function EsAlerta(c: CultivoWeb): (r: bool)
    ensures r <==>
      && c.diasRestantes.Some? && ParseInt(c.diasRestantes.value).Some? && c.diasAlerta.Some?
      && 0 < ParseInt(c.diasRestantes.value).value <= c.diasAlerta.value
  {
    if c.diasRestantes.None? then false
    else
      var dias := ParseInt(c.diasRestantes.value);
      dias.Some? && dias.value > 0 && c.diasAlerta.Some? && dias.value <= c.diasAlerta.value
  }

  /** On the desktop's wording of the remaining time, the web alert agrees with the desktop
      harvest check's early alert. */
  lemma AlertaComoEscritorio(c: CultivoWeb, cultivo: Cultivo, hoy: int)
    requires c.diasRestantes == Some(TiempoRestante(cultivo.cosecha, hoy))
    requires c.diasAlerta == Some(cultivo.diasAlerta)
    ensures EsAlerta(c) <==> AlertaTemprana(cultivo, hoy)
  {
  }

  // ----------------------------------------------------------------------------------------
  // The add/edit form and the request a submit sends

  const ApiBaseUrl: string := "https://nombre-unico-de-tu-api-flask.fly.dev/api/v1/cultivos"

  /** The raw values of the form's inputs. */
  datatype CamposWeb = CamposWeb(
    nombre: string,
    zona: string,
    fechaSiembra: string,
    fechaCosecha: string,
    precioCompra: string,
    precioVenta: string,
    diasAlerta: string,
    notas: string)

  /** The JSON body `obtenerDatosFormulario` builds. */
  datatype DatosCultivo = DatosCultivo(
    nombre: string,
    zona: string,
    fechaSiembra: string,
    fechaCosecha: string,
    precioCompra: real,
    precioVenta: real,
    diasAlerta: int,
    notas: string)

  /** `obtenerDatosFormulario`: the texts trimmed, the dates as typed, a price that
      `parseFloat` cannot read and alert days without leading digits as 0. */
  function ObtenerDatos(f: CamposWeb, parseFloat: string -> Option<real>): (d: DatosCultivo)
    ensures d.nombre == "" <==> forall i | 0 <= i < |f.nombre| :: EsEspacio(f.nombre[i])
    ensures EsRecorte(d.nombre, f.nombre) && EsRecorte(d.zona, f.zona) && EsRecorte(d.notas, f.notas)
    ensures d.fechaSiembra == f.fechaSiembra && d.fechaCosecha == f.fechaCosecha
    ensures parseFloat(f.precioCompra).None? ==> d.precioCompra == 0.0
    ensures parseFloat(f.precioCompra).Some? ==> d.precioCompra == parseFloat(f.precioCompra).value
    ensures parseFloat(f.precioVenta).None? ==> d.precioVenta == 0.0
    ensures parseFloat(f.precioVenta).Some? ==> d.precioVenta == parseFloat(f.precioVenta).value
    ensures ParseInt(f.diasAlerta).None? ==> d.diasAlerta == 0
    ensures ParseInt(f.diasAlerta).Some? ==> d.diasAlerta == ParseInt(f.diasAlerta).value
  {
    RecortarVacio(f.nombre);
    RecortarEsRecorte(f.nombre);
    RecortarEsRecorte(f.zona);
    RecortarEsRecorte(f.notas);
    DatosCultivo(
      Recortar(f.nombre), Recortar(f.zona), f.fechaSiembra, f.fechaCosecha,
      NumeroOCero(Cadena(f.precioCompra), parseFloat), NumeroOCero(Cadena(f.precioVenta), parseFloat),
      ParseInt(f.diasAlerta).GetOr(0), Recortar(f.notas))
  }

  /** Alert days typed as a number followed by anything that is not a digit are that number. */
  lemma DiasAlertaTecleados(f: CamposWeb, parseFloat: string -> Option<real>, n: nat, resto: string)
    requires f.diasAlerta == Decimal(n) + resto && (resto == [] || !EsDigito(resto[0]))
    ensures ObtenerDatos(f, parseFloat).diasAlerta == n
  {
    ParseIntDecimal(n, resto);
  }

  datatype Metodo = Post | Put

  datatype Peticion = Peticion(metodo: Metodo, url: string, cuerpo: DatosCultivo)

  /** The method and URL: POST to the collection when adding, PUT to the original name's
      resource when editing. */
  function Destino(modoEdicion: bool, nombreOriginal: string): (r: (Metodo, string))
    ensures r.0 == Put <==> modoEdicion
    ensures |r.1| > |ApiBaseUrl| <==> modoEdicion
    ensures |r.1| >= |ApiBaseUrl| && r.1[..|ApiBaseUrl|] == ApiBaseUrl
  {
    if modoEdicion then (Put, ApiBaseUrl + "/" + nombreOriginal) else (Post, ApiBaseUrl)
  }

  /** Different original names are sent to different resources. */
  lemma DestinoInyectivo(a: string, b: string)
    requires Destino(true, a).1 == Destino(true, b).1
    ensures a == b
  {
    var pa, pb := ApiBaseUrl + "/", ApiBaseUrl + "/";
    assert Destino(true, a).1[|pa|..] == a;
    assert Destino(true, b).1[|pb|..] == b;
  }

  /** Whether a submit reaches `fetch`: a name, both dates, and dates in order. */
  predicate EnvioPermitido(d: DatosCultivo, parse: string -> Option<int>) {
    d.nombre != "" && d.fechaSiembra != "" && d.fechaCosecha != ""
    && ValidarFechas(d.fechaSiembra, d.fechaCosecha, parse)
  }

  /** `modoEdicion` and the hidden input `cultivoNombreOriginal`. */
  class FormularioWeb {
    var modoEdicion: bool
    var nombreOriginal: string

    /** Outside edit mode no original name is kept. */
    ghost predicate Valid()
      reads this
    {
      !modoEdicion ==> nombreOriginal == ""
    }

    constructor ()
      ensures Valid() && !modoEdicion
    {
      modoEdicion := false;
      nombreOriginal := "";
    }

    /** `cargarParaEdicion`: enter edit mode on the crop's name (`undefined` when absent).
        `toFixed(2)` on a price that is not a number throws before the mode is set, and
        then nothing changes. */
    method CargarParaEdicion(c: CultivoWeb)
      requires Valid()
      modifies this
      ensures Valid()
      ensures c.precioCompra.Num? && c.precioVenta.Num? ==>
        modoEdicion && nombreOriginal == if c.nombre.Some? then c.nombre.value else "undefined"
      ensures !(c.precioCompra.Num? && c.precioVenta.Num?) ==>
        modoEdicion == old(modoEdicion) && nombreOriginal == old(nombreOriginal)
    {
      if !c.precioCompra.Num? || !c.precioVenta.Num? {
        return;
      }
      modoEdicion := true;
      nombreOriginal := if c.nombre.Some? then c.nombre.value else "undefined";
    }

    /** `resetFormulario`: back to add mode. */
    method ResetFormulario()
      modifies this
      ensures Valid() && !modoEdicion && nombreOriginal == ""
    {
      modoEdicion := false;
      nombreOriginal := "";
    }

    /** `manejarEnvioFormulario` up to `fetch`: the request it sends, if any. Nothing
        changes until the server answers. */
    method EnviarFormulario(f: CamposWeb, parseFloat: string -> Option<real>, parse: string -> Option<int>)
      returns (p: Option<Peticion>)
      requires Valid()
      ensures p.None? <==> !EnvioPermitido(ObtenerDatos(f, parseFloat), parse)
      ensures p.Some? ==> p.value.cuerpo == ObtenerDatos(f, parseFloat)
      ensures p.Some? ==> (p.value.metodo, p.value.url) == Destino(modoEdicion, nombreOriginal)
      ensures p.Some? && !modoEdicion ==> p.value.url == ApiBaseUrl
      ensures p.Some? && modoEdicion ==> p.value.url == ApiBaseUrl + "/" + nombreOriginal
      ensures p.Some? && p.value.metodo == Post ==> nombreOriginal == ""
    {
      var datos := ObtenerDatos(f, parseFloat);
      if datos.nombre == "" || datos.fechaSiembra == "" || datos.fechaCosecha == "" {
        return None;
      }
      if !ValidarFechas(datos.fechaSiembra, datos.fechaCosecha, parse) {
        return None;
      }
      var url := ApiBaseUrl;
      var metodo := Post;
      if modoEdicion {
        url := ApiBaseUrl + "/" + nombreOriginal;
        metodo := Put;
      }
      p := Some(Peticion(metodo, url, datos));
    }

    /** The answer to a sent request: success resets the form, an error keeps the mode. */
    method ProcesarRespuesta(ok: bool)
      requires Valid()
      modifies this
      ensures Valid()
      ensures ok ==> !modoEdicion && nombreOriginal == ""
      ensures !ok ==> modoEdicion == old(modoEdicion) && nombreOriginal == old(nombreOriginal)
    {
      if ok {
        ResetFormulario();
      }
    }
  }
}
