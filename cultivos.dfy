/** The crop register of the desktop application (cultivos.py): the `Cultivo` record, its
    JSON dictionary shape, the time-remaining text and row tag, the financial totals and the
    harvest check that drives the start-up warning.

    Dates are day numbers and "today" is a parameter; money is `real`. The library
    conversions the source relies on (`strptime`, `date.isoformat`, `float(str)`,
    `int(str)`) are passed in as functions. */
module Cultivos {
  import opened Wrappers
  import opened Texto
  import opened Secuencias

  /** One crop: the eight attributes of class `Cultivo`. */
  datatype Cultivo = Cultivo(
    nombre: string,
    siembra: int,
    cosecha: int,
    notas: string,
    zona: string,
    precioCompra: real,
    precioVenta: real,
    diasAlerta: int)

  // ----------------------------------------------------------------------------------------
  // The JSON shape written by `guardar_cultivos` and read by `cargar_cultivos`

  /** A JSON value as `json.load` returns it; `JCompuesto` is any list or object. */
  datatype Json = JStr(s: string) | JInt(i: int) | JReal(r: real) | JBool(b: bool) | JNull | JCompuesto

  type Dict = map<string, Json>

  /** The Python exceptions that can escape one item of the load loop. */
  datatype Excepcion = ClaveAusente | TipoInvalido | ValorInvalido

  /** Library conversions taken as given. */
  datatype Conversores = Conversores(
    leerFecha: string -> Option<int>,  // strptime(s, '%Y-%m-%d').date(); None on ValueError
    isoFecha: int -> string,           // date.isoformat()
    leerReal: string -> Option<real>,  // float(s); None on ValueError
    leerEntero: string -> Option<int>) // int(s); None on ValueError

  /** `strptime` reads back what `isoformat` writes. */
  ghost predicate FechasReversibles(conv: Conversores) {
    forall d :: conv.leerFecha(conv.isoFecha(d)) == Some(d)
  }

  /** `item[clave]`: a missing key raises `KeyError`. */
  function Campo(item: Dict, clave: string): (r: Result<Json, Excepcion>)
    ensures r.Success? <==> clave in item
    ensures r.Success? ==> r.value == item[clave]
  {
    if clave in item then Success(item[clave]) else Failure(ClaveAusente)
  }

  /** `item.get(clave, porDefecto)`. */
  function Obtener(item: Dict, clave: string, porDefecto: Json): Json {
    if clave in item then item[clave] else porDefecto
  }

  /** `validar_fecha`: `None` when the text is not a `YYYY-MM-DD` date; a value that is not
      a string makes `strptime` raise `TypeError`, which `validar_fecha` does not catch. */
  function ValidarFecha(v: Json, conv: Conversores): Result<Option<int>, Excepcion> {
    if v.JStr? then Success(conv.leerFecha(v.s)) else Failure(TipoInvalido)
  }

  /** Python's int(x) for a float: truncation toward zero. */
  function Truncar(r: real): (i: int)
    ensures r >= 0.0 ==> i as real <= r < i as real + 1.0
    ensures r < 0.0 ==> i as real - 1.0 < r <= i as real
  {
    if r >= 0.0 then r.Floor else -((-r).Floor)
  }

  /** `float(v)`. */
  function AReal(v: Json, conv: Conversores): Result<real, Excepcion> {
    match v
    case JStr(s) => if conv.leerReal(s).Some? then Success(conv.leerReal(s).value) else Failure(ValorInvalido)
    case JInt(i) => Success(i as real)
    case JReal(r) => Success(r)
    case JBool(b) => Success(if b then 1.0 else 0.0)
    case _ => Failure(TipoInvalido)
  }

  /** `int(v)`. */
  function AEntero(v: Json, conv: Conversores): Result<int, Excepcion> {
    match v
    case JStr(s) => if conv.leerEntero(s).Some? then Success(conv.leerEntero(s).value) else Failure(ValorInvalido)
    case JInt(i) => Success(i)
    case JReal(r) => Success(Truncar(r))
    case JBool(b) => Success(if b then 1 else 0)
    case _ => Failure(TipoInvalido)
  }

  /** A textual field; see README for values that are not strings. */
  function ACadena(v: Json): Result<string, Excepcion> {
    if v.JStr? then Success(v.s) else Failure(TipoInvalido)
  }

  /** A text field read with `item.get(clave, "")`: the default when absent, the string otherwise. */
  predicate TextoOpcional(item: Dict, clave: string, v: string) {
    (clave !in item ==> v == "") && (clave in item ==> item[clave] == JStr(v))
  }

  /** A price read with `float(item.get(clave, 0.0))`: 0.0 when absent, a float as it is, an
      integer converted, a text as `float` reads it. */
  predicate RealOpcional(item: Dict, clave: string, x: real, conv: Conversores) {
    && (clave !in item ==> x == 0.0)
    && (clave in item && item[clave].JReal? ==> x == item[clave].r)
    && (clave in item && item[clave].JInt? ==> x == item[clave].i as real)
    && (clave in item && item[clave].JStr? ==> conv.leerReal(item[clave].s) == Some(x))
  }

  /** Alert days read with `int(item.get(clave, 0))`: 0 when absent, an integer as it is, a
      float truncated toward zero, a text as `int` reads it. */
  predicate EnteroOpcional(item: Dict, clave: string, n: int, conv: Conversores) {
    && (clave !in item ==> n == 0)
    && (clave in item && item[clave].JInt? ==> n == item[clave].i)
    && (clave in item && item[clave].JReal? ==> n == Truncar(item[clave].r))
    && (clave in item && item[clave].JStr? ==> conv.leerEntero(item[clave].s) == Some(n))
  }

  /** A text field `item.get` reads without later failure: absent, or a string. */
  predicate TextoLegible(item: Dict, clave: string) {
    clave !in item || item[clave].JStr?
  }

  /** A price `float(...)` accepts: absent, a number, a boolean, or a text `float` reads. */
  predicate RealLegible(item: Dict, clave: string, conv: Conversores) {
    clave !in item || item[clave].JReal? || item[clave].JInt? || item[clave].JBool?
    || (item[clave].JStr? && conv.leerReal(item[clave].s).Some?)
  }

  /** Alert days `int(...)` accepts: absent, a number, a boolean, or a text `int` reads. */
  predicate EnteroLegible(item: Dict, clave: string, conv: Conversores) {
    clave !in item || item[clave].JInt? || item[clave].JReal? || item[clave].JBool?
    || (item[clave].JStr? && conv.leerEntero(item[clave].s).Some?)
  }

  /** Every field the loop reads before `if siembra and cosecha` is present where required and
      of a kind its conversion accepts. */
  predicate ItemLegible(item: Dict, conv: Conversores) {
    && "fecha_siembra" in item && item["fecha_siembra"].JStr?
    && "fecha_cosecha" in item && item["fecha_cosecha"].JStr?
    && TextoLegible(item, "notas") && TextoLegible(item, "zona")
    && RealLegible(item, "precio_compra", conv) && RealLegible(item, "precio_venta", conv)
    && EnteroLegible(item, "dias_alerta", conv)
  }

  /** Both date strings of an item parse as dates. */
  predicate FechasLeidas(item: Dict, conv: Conversores)
    requires ItemLegible(item, conv)
  {
    conv.leerFecha(item["fecha_siembra"].s).Some? && conv.leerFecha(item["fecha_cosecha"].s).Some?
  }

  /** One iteration of the load loop: the item becomes a crop, is skipped (a date does not
      parse) or raises. The fields are read in the source's order, so that a failure in a
      later field is only reached once the earlier ones succeeded. */
  function ItemACultivo(item: Dict, conv: Conversores): (r: Result<Option<Cultivo>, Excepcion>)
    ensures "fecha_siembra" !in item || "fecha_cosecha" !in item ==> r.Failure?
    ensures r.Success? <==>
      ItemLegible(item, conv) && (FechasLeidas(item, conv) ==> "nombre" in item && item["nombre"].JStr?)
    ensures ItemLegible(item, conv) && !FechasLeidas(item, conv) ==> r == Success(None)
    ensures ItemLegible(item, conv) && FechasLeidas(item, conv) && "nombre" in item && item["nombre"].JStr? ==>
      r.Success? && r.value.Some?
    ensures r.Success? ==>
      && item["fecha_siembra"].JStr? && item["fecha_cosecha"].JStr?
      && (r.value.Some? <==>
            conv.leerFecha(item["fecha_siembra"].s).Some? && conv.leerFecha(item["fecha_cosecha"].s).Some?)
    ensures r.Success? && r.value.Some? ==>
      && conv.leerFecha(item["fecha_siembra"].s) == Some(r.value.value.siembra)
      && conv.leerFecha(item["fecha_cosecha"].s) == Some(r.value.value.cosecha)
      && "nombre" in item && item["nombre"] == JStr(r.value.value.nombre)
    ensures r.Success? && r.value.Some? ==>
      && TextoOpcional(item, "notas", r.value.value.notas)
      && TextoOpcional(item, "zona", r.value.value.zona)
      && RealOpcional(item, "precio_compra", r.value.value.precioCompra, conv)
      && RealOpcional(item, "precio_venta", r.value.value.precioVenta, conv)
      && EnteroOpcional(item, "dias_alerta", r.value.value.diasAlerta, conv)
  {
    var vs :- Campo(item, "fecha_siembra");
    var siembra :- ValidarFecha(vs, conv);
    var vc :- Campo(item, "fecha_cosecha");
    var cosecha :- ValidarFecha(vc, conv);
    var notas :- ACadena(Obtener(item, "notas", JStr("")));
    var zona :- ACadena(Obtener(item, "zona", JStr("")));
    var compra :- AReal(Obtener(item, "precio_compra", JReal(0.0)), conv);
    var venta :- AReal(Obtener(item, "precio_venta", JReal(0.0)), conv);
    var dias :- AEntero(Obtener(item, "dias_alerta", JInt(0)), conv);
    if siembra.Some? && cosecha.Some? then
      var vn :- Campo(item, "nombre");
      var nombre :- ACadena(vn);
      Success(Some(Cultivo(nombre, siembra.value, cosecha.value, notas, zona, compra, venta, dias)))
    else
      Success(None)
  }

  /** The outcome of `cargar_cultivos`: the list it leaves behind, and whether an exception
      cut the loop short (the `try` surrounds the whole loop, so the crops read before the
      failing item stay loaded). */
  datatype Carga = Carga(lista: seq<Cultivo>, abortada: bool)

  function CargarItems(items: seq<Dict>, conv: Conversores): (r: Carga)
    ensures |r.lista| <= |items|
  {
    if items == [] then Carga([], false)
    else
      var previa := CargarItems(items[..|items| - 1], conv);
      if previa.abortada then previa
      else match ItemACultivo(items[|items| - 1], conv)
        case Failure(_) => Carga(previa.lista, true)
        case Success(None) => previa
        case Success(Some(c)) => Carga(previa.lista + [c], false)
  }

  /** What `json.load` found: no file, a file it cannot decode, or a list of objects. */
  datatype Archivo = NoExiste | Ilegible | Contenido(items: seq<Dict>)

  function CargarArchivo(archivo: Archivo, conv: Conversores): (r: Carga)
    ensures archivo.NoExiste? ==> r == Carga([], false)
    ensures archivo.Ilegible? ==> r == Carga([], true)
  {
    match archivo
    case NoExiste => Carga([], false)
    case Ilegible => Carga([], true)
    case Contenido(items) => CargarItems(items, conv)
  }

  /** Loading a file in two parts: the second part is read only when the first did not
      raise, and its crops follow the first part's. */
  lemma {:induction false} CargarConcat(a: seq<Dict>, b: seq<Dict>, conv: Conversores)
    ensures CargarItems(a + b, conv) ==
      if CargarItems(a, conv).abortada then CargarItems(a, conv)
      else Carga(CargarItems(a, conv).lista + CargarItems(b, conv).lista, CargarItems(b, conv).abortada)
    decreases |b|
  {
    if b == [] {
      assert a + b == a;
    } else {
      var binit := b[..|b| - 1];
      assert (a + b)[..|a + b| - 1] == a + binit;
      assert (a + b)[|a + b| - 1] == b[|b| - 1];
      CargarConcat(a, binit, conv);
    }
  }

  /** `cargar_cultivos`: the list is rebuilt by appending one crop per readable item. */
  method CargarLista(items: seq<Dict>, conv: Conversores) returns (lista: seq<Cultivo>, abortada: bool)
    ensures Carga(lista, abortada) == CargarItems(items, conv)
  {
    lista, abortada := [], false;
    var k := 0;
    while k < |items|
      invariant 0 <= k <= |items|
      invariant Carga(lista, false) == CargarItems(items[..k], conv)
    {
      assert items[..k + 1][..k] == items[..k];
      var r := ItemACultivo(items[k], conv);
      if r.Failure? {
        abortada := true;
        CargarConcat(items[..k + 1], items[k + 1..], conv);
        assert items[..k + 1] + items[k + 1..] == items;
        return;
      }
      if r.value.Some? {
        lista := lista + [r.value.value];
      }
      k := k + 1;
    }
    assert items[..k] == items;
  }

  /** The dictionary `guardar_cultivos` writes for one crop. */
  function ADict(c: Cultivo, conv: Conversores): Dict {
    map[
      "nombre" := JStr(c.nombre),
      "fecha_siembra" := JStr(conv.isoFecha(c.siembra)),
      "fecha_cosecha" := JStr(conv.isoFecha(c.cosecha)),
      "notas" := JStr(c.notas),
      "zona" := JStr(c.zona),
      "precio_compra" := JReal(c.precioCompra),
      "precio_venta" := JReal(c.precioVenta),
      "dias_alerta" := JInt(c.diasAlerta)]
  }

  function ADicts(cs: seq<Cultivo>, conv: Conversores): seq<Dict> {
    Mapear(cs, c => ADict(c, conv))
  }

  /** Reading back the dictionary of a crop gives the same crop. */
  lemma ItemDeDict(c: Cultivo, conv: Conversores)
    requires FechasReversibles(conv)
    ensures ItemACultivo(ADict(c, conv), conv) == Success(Some(c))
  {
    assert conv.leerFecha(conv.isoFecha(c.siembra)) == Some(c.siembra);
    assert conv.leerFecha(conv.isoFecha(c.cosecha)) == Some(c.cosecha);
  }

  /** Save then load: the register comes back unchanged and nothing raises. */
  lemma {:induction false} GuardarYCargar(cs: seq<Cultivo>, conv: Conversores)
    requires FechasReversibles(conv)
    ensures CargarItems(ADicts(cs, conv), conv) == Carga(cs, false)
  {
    if cs != [] {
      var init, ultimo := cs[..|cs| - 1], cs[|cs| - 1];
      assert cs == init + [ultimo];
      MapearAgregar(init, ultimo, c => ADict(c, conv));
      var ds := ADicts(init, conv) + [ADict(ultimo, conv)];
      assert ds[..|ds| - 1] == ADicts(init, conv);
      GuardarYCargar(init, conv);
      ItemDeDict(ultimo, conv);
    }
  }

  /** An item that carries only a name and two readable dates gets the defaults for
      `notas`, `zona`, `precio_compra`, `precio_venta` and `dias_alerta`. */
  lemma CamposPorDefecto(nombre: string, siembra: string, cosecha: string, conv: Conversores)
    requires conv.leerFecha(siembra).Some? && conv.leerFecha(cosecha).Some?
    ensures ItemACultivo(map["nombre" := JStr(nombre), "fecha_siembra" := JStr(siembra), "fecha_cosecha" := JStr(cosecha)], conv)
         == Success(Some(Cultivo(nombre, conv.leerFecha(siembra).value, conv.leerFecha(cosecha).value, "", "", 0.0, 0.0, 0)))
  {
    var item := map["nombre" := JStr(nombre), "fecha_siembra" := JStr(siembra), "fecha_cosecha" := JStr(cosecha)];
    assert "notas" !in item && "zona" !in item;
    assert "precio_compra" !in item && "precio_venta" !in item && "dias_alerta" !in item;
  }

  // ----------------------------------------------------------------------------------------
  // Time remaining and the row tag

  /** The three cases `calcular_tiempo_restante` distinguishes. */
  datatype Plazo = Cosechado(hace: nat) | CosechaHoy | Restantes(dias: nat)

  function CalcularPlazo(cosecha: int, hoy: int): (p: Plazo)
    ensures p.Cosechado? <==> cosecha < hoy
    ensures p.CosechaHoy? <==> cosecha == hoy
    ensures p.Restantes? <==> cosecha > hoy
    ensures p.Cosechado? ==> p.hace >= 1 && p.hace == hoy - cosecha
    ensures p.Restantes? ==> p.dias >= 1 && p.dias == cosecha - hoy
  {
    if cosecha < hoy then Cosechado(hoy - cosecha)
    else if cosecha == hoy then CosechaHoy
    else Restantes(cosecha - hoy)
  }

  const TextoHoy: string := "¡COSECHA HOY!"

  /** `calcular_tiempo_restante`: the text shown in the "time remaining" column. */
  function TiempoRestante(cosecha: int, hoy: int): (r: string)
    ensures r == TextoHoy <==> cosecha == hoy
    ensures cosecha > hoy ==>
      && r == Decimal(cosecha - hoy) + " Días Restantes"
      && ParseInt(r) == Some(cosecha - hoy)
    ensures cosecha <= hoy ==> ParseInt(r).None?
    ensures cosecha < hoy ==>
      && r == "¡COSECHADO HACE " + Decimal(hoy - cosecha) + " DÍAS!"
      && ValorDigitos(Decimal(hoy - cosecha)) == hoy - cosecha
  {
    match CalcularPlazo(cosecha, hoy)
    case Cosechado(d) =>
      var r := "¡COSECHADO HACE " + Decimal(d) + " DÍAS!";
      assert r[8] != TextoHoy[8];
      ValorDecimal(d);
      ParseIntNoNumerico(r);
      r
    case CosechaHoy =>
      ParseIntNoNumerico(TextoHoy);
      TextoHoy
    case Restantes(d) =>
      var r := Decimal(d) + " Días Restantes";
      assert r[0] != TextoHoy[0];
      ParseIntDecimal(d, " Días Restantes");
      r
  }

  /** The tag `actualizar_lista_cultivos` gives a row. */
  datatype Etiqueta = CosechaPasada | CosechaDeHoy | CosechaFutura

  function EtiquetaFila(cosecha: int, hoy: int): Etiqueta {
    if cosecha < hoy then CosechaPasada
    else if cosecha == hoy then CosechaDeHoy
    else CosechaFutura
  }

  /** The row tag and the time-remaining text make the same three-way split. */
  lemma EtiquetaSigueAlPlazo(cosecha: int, hoy: int)
    ensures EtiquetaFila(cosecha, hoy) == CosechaPasada <==> CalcularPlazo(cosecha, hoy).Cosechado?
    ensures EtiquetaFila(cosecha, hoy) == CosechaDeHoy <==> TiempoRestante(cosecha, hoy) == TextoHoy
    ensures EtiquetaFila(cosecha, hoy) == CosechaFutura <==> ParseInt(TiempoRestante(cosecha, hoy)).Some?
  {
  }

  // ----------------------------------------------------------------------------------------
  // Financial totals

  function PrecioCompra(c: Cultivo): real { c.precioCompra }
  function PrecioVenta(c: Cultivo): real { c.precioVenta }
  function Margen(c: Cultivo): real { c.precioVenta - c.precioCompra }

  /** The colour of the total margin label. */
  datatype Color = Rojo | Verde | Neutro

  function ColorMargen(margen: real): (r: Color)
    ensures r == Rojo <==> margen < 0.0
    ensures r == Verde <==> margen > 0.0
  {
    if margen < 0.0 then Rojo else if margen > 0.0 then Verde else Neutro
  }

  /** The total margin (total sales minus total cost) is the sum of the per-row margins. */
  lemma MargenTotal(cs: seq<Cultivo>)
    ensures Suma(cs, PrecioVenta) - Suma(cs, PrecioCompra) == Suma(cs, Margen)
  {
    SumaResta(cs, PrecioVenta, PrecioCompra, Margen);
  }

  // ----------------------------------------------------------------------------------------
  // The harvest check (`revisar_cosechas_al_inicio`)

  predicate SeCosechaHoy(c: Cultivo, hoy: int) {
    c.cosecha - hoy == 0
  }

  predicate AlertaTemprana(c: Cultivo, hoy: int) {
    0 < c.cosecha - hoy <= c.diasAlerta
  }

  function CosechasHoy(cs: seq<Cultivo>, hoy: int): seq<Cultivo> {
    Filtrar(cs, c => SeCosechaHoy(c, hoy))
  }

  function AlertasTempranas(cs: seq<Cultivo>, hoy: int): seq<Cultivo> {
    Filtrar(cs, c => AlertaTemprana(c, hoy))
  }

  /** An early-alert entry: the crop's name and the days until harvest. */
  datatype Aviso = Aviso(nombre: string, dias: int)

  function Nombre(c: Cultivo): string { c.nombre }

  function AvisoDe(c: Cultivo, hoy: int): Aviso { Aviso(c.nombre, c.cosecha - hoy) }

  function TextoAviso(a: Aviso): string {
    a.nombre + " (Cosecha en " + Entero(a.dias) + " días)"
  }

  /** Which list a crop lands in: today's harvests exactly when no day remains, early alerts
      exactly when between one and `dias_alerta` days remain, never both. */
  lemma {:induction false} ClasificacionCosechas(cs: seq<Cultivo>, hoy: int, c: Cultivo)
    ensures c in CosechasHoy(cs, hoy) <==> c in cs && c.cosecha - hoy == 0
    ensures c in AlertasTempranas(cs, hoy) <==> c in cs && 1 <= c.cosecha - hoy <= c.diasAlerta
    ensures !(c in CosechasHoy(cs, hoy) && c in AlertasTempranas(cs, hoy))
    ensures multiset(CosechasHoy(cs, hoy))[c] == if c.cosecha - hoy == 0 then multiset(cs)[c] else 0
    ensures multiset(AlertasTempranas(cs, hoy))[c] == if 1 <= c.cosecha - hoy <= c.diasAlerta then multiset(cs)[c] else 0
  {
    FiltrarMiembro(cs, c => SeCosechaHoy(c, hoy), c);
    FiltrarMiembro(cs, c => AlertaTemprana(c, hoy), c);
    FiltrarMultiplicidad(cs, c => SeCosechaHoy(c, hoy), c);
    FiltrarMultiplicidad(cs, c => AlertaTemprana(c, hoy), c);
  }

  /** Both lists keep the order of the register. */
  lemma OrdenCosechas(cs: seq<Cultivo>, hoy: int)
    ensures EsSubsecuencia(CosechasHoy(cs, hoy), cs)
    ensures EsSubsecuencia(AlertasTempranas(cs, hoy), cs)
  {
    FiltrarSubsecuencia(cs, c => SeCosechaHoy(c, hoy));
    FiltrarSubsecuencia(cs, c => AlertaTemprana(c, hoy));
  }

  /** With no crop asking for a positive number of alert days there is no early alert. */
  lemma SinDiasDeAlerta(cs: seq<Cultivo>, hoy: int)
    requires forall c :: c in cs ==> c.diasAlerta <= 0
    ensures AlertasTempranas(cs, hoy) == []
  {
    var r := AlertasTempranas(cs, hoy);
    if r != [] {
      ClasificacionCosechas(cs, hoy, r[0]);
      assert false;
    }
  }

  /** One more crop adds its name to today's harvests or its notice to the early alerts,
      as it qualifies. */
  lemma PasoRevision(ini: seq<Cultivo>, c: Cultivo, hoy: int)
    ensures Mapear(CosechasHoy(ini + [c], hoy), Nombre)
         == Mapear(CosechasHoy(ini, hoy), Nombre) + (if SeCosechaHoy(c, hoy) then [c.nombre] else [])
    ensures Mapear(AlertasTempranas(ini + [c], hoy), c => AvisoDe(c, hoy))
         == Mapear(AlertasTempranas(ini, hoy), c => AvisoDe(c, hoy)) + (if AlertaTemprana(c, hoy) then [AvisoDe(c, hoy)] else [])
  {
    var s := ini + [c];
    assert s[..|s| - 1] == ini && s[|s| - 1] == c;
    MapearAgregar(CosechasHoy(ini, hoy), c, Nombre);
    MapearAgregar(AlertasTempranas(ini, hoy), c, c => AvisoDe(c, hoy));
  }

  /** The scan of the register in `revisar_cosechas_al_inicio`. */
  method RevisarCosechas(cs: seq<Cultivo>, hoy: int) returns (cosechasHoy: seq<string>, alertas: seq<Aviso>)
    ensures cosechasHoy == Mapear(CosechasHoy(cs, hoy), Nombre)
    ensures alertas == Mapear(AlertasTempranas(cs, hoy), c => AvisoDe(c, hoy))
  {
    cosechasHoy, alertas := [], [];
    for k := 0 to |cs|
      invariant cosechasHoy == Mapear(CosechasHoy(cs[..k], hoy), Nombre)
      invariant alertas == Mapear(AlertasTempranas(cs[..k], hoy), c => AvisoDe(c, hoy))
    {
      var c := cs[k];
      assert cs[..k + 1] == cs[..k] + [c];
      PasoRevision(cs[..k], c, hoy);
      var diasRestantes := c.cosecha - hoy;
      if diasRestantes < 0 {
        continue;
      } else if diasRestantes == 0 {
        cosechasHoy := cosechasHoy + [c.nombre];
      } else if 0 < diasRestantes <= c.diasAlerta {
        alertas := alertas + [Aviso(c.nombre, diasRestantes)];
      }
    }
    assert cs[..|cs|] == cs;
  }

  /** The warning the harvest check shows: its message, its title, and the reminder label's
      text (the message, or the all-clear text when there is none). */
  datatype Recordatorio = Recordatorio(mensaje: string, titulo: string, etiqueta: string)

  const TituloMaximo: string := "¡ALERTA MÁXIMA!"
  const TituloTemprano: string := "Alerta Temprana"
  const TodoAlDia: string := "Todo al día. Ninguna cosecha ni alerta activa."

  function ComponerRecordatorio(cosechasHoy: seq<string>, alertas: seq<Aviso>): (r: Recordatorio)
    ensures r.mensaje == "" <==> cosechasHoy == [] && alertas == []
    ensures cosechasHoy != [] ==> r.titulo == TituloMaximo
    ensures r.titulo == TituloTemprano <==> cosechasHoy == [] && alertas != []
    ensures r.titulo == "" <==> r.mensaje == ""
    ensures r.etiqueta == if r.mensaje == "" then TodoAlDia else r.mensaje
  {
    var cabeceraHoy := "\U{26A0}\U{FE0F} ¡COSECHA PENDIENTE HOY! \U{26A0}\U{FE0F}\n";
    var cabeceraTemprana := "\U{1F514} Preparación de Cosecha:\n";
    var m1 := if cosechasHoy != [] then cabeceraHoy + Unir(", ", cosechasHoy) else "";
    var t1 := if cosechasHoy != [] then TituloMaximo else "";
    var m2 := if alertas != [] then
                (if m1 != "" then m1 + "\n\n" else m1) + cabeceraTemprana + Unir("\n", Mapear(alertas, TextoAviso))
              else m1;
    var t2 := if alertas != [] && t1 == "" then TituloTemprano else t1;
    assert cosechasHoy != [] ==> m1[0] == cabeceraHoy[0];
    assert alertas != [] && m1 == "" ==> m2[0] == cabeceraTemprana[0];
    Recordatorio(m2, t2, if m2 != "" then m2 else TodoAlDia)
  }
}
