/** The monthly part of `analizar_ventas_externas` (cultivos.py): rows are cleaned as in the
    sales ledger analysis, summed per month in calendar order, and the month after the last
    one with sales is named for the forecast. The least-squares fit and the plots are not
    part of this model. */
module AnalisisExterno {
  import opened Wrappers
  import opened Texto
  import opened Secuencias
  import opened Ventas

  /** `meses_lista`: the month abbreviations in calendar order. */
  const MesesLista: seq<string> := ["Ene", "Feb", "Mar", "Abr", "May", "Jun", "Jul", "Ago", "Sep", "Oct", "Nov", "Dic"]

  /** `mapa_meses`: abbreviation to month number. */
  const MapaMeses: map<string, int> :=
    map["Ene" := 1, "Feb" := 2, "Mar" := 3, "Abr" := 4, "May" := 5, "Jun" := 6,
        "Jul" := 7, "Ago" := 8, "Sep" := 9, "Oct" := 10, "Nov" := 11, "Dic" := 12]

  /** `df['Mes'].map(mapa_meses)` on one value: the map and the list are inverse. */
  function NumeroMes(m: string): (r: Option<int>)
    ensures r.Some? <==> m in MesesLista
    ensures r.Some? ==> 1 <= r.value <= 12 && MesesLista[r.value - 1] == m
  {
    if m in MapaMeses then Some(MapaMeses[m]) else None
  }

  /** Every abbreviation maps back to its own position, and all are three letters long. */
  lemma NumeroDeEtiqueta(n: int)
    requires 1 <= n <= 12
    ensures NumeroMes(MesesLista[n - 1]) == Some(n)
    ensures |MesesLista[n - 1]| == 3
  {
    var r := NumeroMes(MesesLista[n - 1]);
    assert MesesLista[r.value - 1] == MesesLista[n - 1];
    if r.value != n {
      assert false;
    }
  }

  function Mes(f: Fila): Option<string> { f.mes }

  /** The month number of a row, `NaN` (`None`) for a missing or unknown abbreviation. */
  function MesDe(f: Fila): Option<int> {
    if f.mes.Some? then NumeroMes(f.mes.value) else None
  }

  /** Every row maps to a month, so `Num_Mes` keeps an integer type. */
  predicate MesesConocidos(filas: seq<Fila>) {
    forall i | 0 <= i < |filas| :: MesDe(filas[i]).Some?
  }

  /** One row of `ventas_por_mes_df`. */
  datatype PuntoMes = PuntoMes(numero: int, mes: string, total: real)

  function TotalPunto(p: PuntoMes): real { p.total }

  function MesPunto(p: PuntoMes): string { p.mes }

  /** Some row names month `m`. */
  predicate HayVentasEn(filas: seq<Fila>, m: int) {
    1 <= m <= 12 && ApareceClave(filas, Mes, MesesLista[m - 1])
  }

  /** The point of month `n`: its number, its abbreviation and the total of its rows. */
  function PuntoDe(filas: seq<Fila>, n: int): (p: PuntoMes)
    requires 1 <= n <= 12
  {
    PuntoMes(n, MesesLista[n - 1], SumaClave(filas, Mes, MesesLista[n - 1]))
  }

  /** `groupby(['Num_Mes', 'Mes']).sum()` sorted by `Num_Mes`, from month `n` on: one point
      per month that has rows, in calendar order, each with its rows' total. */
  function SerieDesde(filas: seq<Fila>, n: int): (r: seq<PuntoMes>)
    requires 1 <= n <= 13
    decreases 13 - n
    ensures forall i :: 0 <= i < |r| ==> n <= r[i].numero <= 12
    ensures forall i, j :: 0 <= i < j < |r| ==> r[i].numero < r[j].numero
    ensures forall i :: 0 <= i < |r| ==> HayVentasEn(filas, r[i].numero) && r[i] == PuntoDe(filas, r[i].numero)
  {
    if n == 13 then []
    else
      var resto := SerieDesde(filas, n + 1);
      if HayVentasEn(filas, n) then [PuntoDe(filas, n)] + resto else resto
  }

  /** One step of the series: month `n`'s point, when it has rows, before the later months. */
  lemma SerieDesdePaso(filas: seq<Fila>, n: int)
    requires 1 <= n <= 12
    ensures SerieDesde(filas, n) ==
      (if HayVentasEn(filas, n) then [PuntoDe(filas, n)] else []) + SerieDesde(filas, n + 1)
  {
  }

  /** Every month from `n` on that has rows has its point in the series. */
  lemma {:induction false} SerieCompleta(filas: seq<Fila>, n: int, m: int) returns (i: nat)
    requires 1 <= n <= m && HayVentasEn(filas, m)
    decreases 13 - n
    ensures i < |SerieDesde(filas, n)| && SerieDesde(filas, n)[i].numero == m
  {
    SerieDesdePaso(filas, n);
    var cabeza := if HayVentasEn(filas, n) then [PuntoDe(filas, n)] else [];
    if m == n {
      i := 0;
    } else {
      var j := SerieCompleta(filas, n + 1, m);
      i := |cabeza| + j;
    }
  }

  function SerieMensual(filas: seq<Fila>): seq<PuntoMes> {
    SerieDesde(filas, 1)
  }

  /** The amount of the rows whose month number is at least `n`. */
  function SumaMesesDesde(filas: seq<Fila>, n: int): real {
    if filas == [] then 0.0
    else
      var x := filas[|filas| - 1];
      SumaMesesDesde(filas[..|filas| - 1], n)
      + (if MesDe(x).Some? && MesDe(x).value >= n then Monto(x) else 0.0)
  }

  lemma {:induction false} SumaMesesPartida(filas: seq<Fila>, n: int)
    requires 1 <= n <= 12
    ensures SumaMesesDesde(filas, n) == SumaClave(filas, Mes, MesesLista[n - 1]) + SumaMesesDesde(filas, n + 1)
  {
    if filas != [] {
      var x := filas[|filas| - 1];
      SumaMesesPartida(filas[..|filas| - 1], n);
      NumeroDeEtiqueta(n);
      if x.mes == Some(MesesLista[n - 1]) {
        assert MesDe(x) == Some(n);
      } else if MesDe(x).Some? {
        assert MesDe(x).value != n;
      }
    }
  }

  lemma {:induction false} SumaMesesTrece(filas: seq<Fila>)
    ensures SumaMesesDesde(filas, 13) == 0.0
  {
    if filas != [] {
      SumaMesesTrece(filas[..|filas| - 1]);
    }
  }

  lemma {:induction false} SumaMesesUno(filas: seq<Fila>)
    requires MesesConocidos(filas)
    ensures SumaMesesDesde(filas, 1) == Suma(filas, Monto)
  {
    if filas != [] {
      var init := filas[..|filas| - 1];
      assert MesesConocidos(init) by {
        forall i | 0 <= i < |init| ensures MesDe(init[i]).Some? {
          assert init[i] == filas[i];
        }
      }
      SumaMesesUno(init);
      assert MesDe(filas[|filas| - 1]).Some?;
    }
  }

  lemma {:induction false} SerieSumaDesde(filas: seq<Fila>, n: int)
    requires 1 <= n <= 13
    decreases 13 - n
    ensures Suma(SerieDesde(filas, n), TotalPunto) == SumaMesesDesde(filas, n)
  {
    if n == 13 {
      SumaMesesTrece(filas);
    } else {
      SerieSumaDesde(filas, n + 1);
      SumaMesesPartida(filas, n);
      var etiqueta := MesesLista[n - 1];
      var r := SerieDesde(filas, n);
      if HayVentasEn(filas, n) {
        SumaCabeza(r, TotalPunto);
        assert r[1..] == SerieDesde(filas, n + 1);
      } else {
        SumaClaveAusente(filas, Mes, etiqueta);
      }
    }
  }

  /** When every row has a known month, the monthly series conserves the total sales. */
  lemma SerieConservaTotal(filas: seq<Fila>)
    requires MesesConocidos(filas)
    ensures Suma(SerieMensual(filas), TotalPunto) == Suma(filas, Monto)
  {
    SerieSumaDesde(filas, 1);
    SumaMesesUno(filas);
  }

  /** `ventas_por_mes_df['Num_Mes'].max()`. */
  function UltimoMes(serie: seq<PuntoMes>): (m: int)
    requires serie != []
    ensures exists i :: 0 <= i < |serie| && serie[i].numero == m
    ensures forall i :: 0 <= i < |serie| ==> serie[i].numero <= m
  {
    if |serie| == 1 then serie[0].numero
    else
      var m := UltimoMes(serie[..|serie| - 1]);
      if serie[|serie| - 1].numero > m then serie[|serie| - 1].numero else m
  }

  /** The name of the forecast month: the abbreviation at `(n - 1) % 12`, replaced by
      "Mes n" past December. */
  function NombreMesFuturo(n: int): (r: string)
    ensures 1 <= n <= 12 ==> r == MesesLista[n - 1]
    ensures n > 12 ==> r == "Mes " + Entero(n)
  {
    var nombre := MesesLista[(n - 1) % 12];
    if n > 12 then "Mes " + Entero(n) else nombre
  }

  /** The result of the monthly analysis: the series, the forecast month and its name, and
      the x-axis labels of the trend plot. */
  datatype Pronostico = Pronostico(serie: seq<PuntoMes>, mesFuturo: int, nombreFuturo: string, etiquetasX: seq<string>)

  /** In a series sorted by month the largest month is the last one. */
  lemma UltimoEsMaximo(serie: seq<PuntoMes>)
    requires serie != []
    requires forall i, j :: 0 <= i < j < |serie| ==> serie[i].numero < serie[j].numero
    ensures UltimoMes(serie) == serie[|serie| - 1].numero
  {
    var i :| 0 <= i < |serie| && serie[i].numero == UltimoMes(serie);
    assert serie[|serie| - 1].numero <= UltimoMes(serie);
  }

  /** With at least one row and every month known, the series has a point. */
  lemma SerieNoVacia(filas: seq<Fila>)
    requires filas != [] && MesesConocidos(filas)
    ensures SerieMensual(filas) != []
  {
    var n0 := MesDe(filas[0]).value;
    assert HayVentasEn(filas, n0);
    var i := SerieCompleta(filas, 1, n0);
  }

  /** The forecast after the point `p` is named "Mes 13" exactly when `p` is December. */
  lemma NombreTrasDiciembre(p: PuntoMes)
    requires 1 <= p.numero <= 12 && p.mes == MesesLista[p.numero - 1]
    ensures NombreMesFuturo(p.numero + 1) == "Mes 13" <==> p.mes == "Dic"
  {
    var m := p.numero;
    NumeroDeEtiqueta(m);
    NumeroDeEtiqueta(12);
    if m < 12 {
      NumeroDeEtiqueta(m + 1);
    } else {
      assert Entero(13) == "13";
    }
  }

  /** `labels_x`: the month of each point, then the forecast label. */
  function EtiquetasX(serie: seq<PuntoMes>, nombre: string): (r: seq<string>)
    ensures |r| == |serie| + 1
    ensures forall i :: 0 <= i < |serie| ==> r[i] == serie[i].mes
    ensures r[|serie|] == "Pred. " + nombre
  {
    Mapear(serie, MesPunto) + ["Pred. " + nombre]
  }

  /** What the calendar-ordered series guarantees: months strictly ascending, each point
      labelled with its own abbreviation. */
  predicate SerieOrdenada(serie: seq<PuntoMes>) {
    && (forall i, j :: 0 <= i < j < |serie| ==> serie[i].numero < serie[j].numero)
    && (forall i :: 0 <= i < |serie| ==> 1 <= serie[i].numero <= 12 && serie[i].mes == MesesLista[serie[i].numero - 1])
  }

  lemma SerieMensualOrdenada(filas: seq<Fila>)
    ensures SerieOrdenada(SerieMensual(filas))
  {
    var serie := SerieMensual(filas);
    forall i | 0 <= i < |serie|
      ensures 1 <= serie[i].numero <= 12 && serie[i].mes == MesesLista[serie[i].numero - 1] {
      assert serie[i] == PuntoDe(filas, serie[i].numero);
    }
  }

  /** The forecast month follows the last month with sales, and the trend plot has one label
      per point plus the forecast's. */
  function CalcularPronostico(serie: seq<PuntoMes>): (r: Pronostico)
    requires serie != [] && SerieOrdenada(serie)
    ensures r.serie == serie
    ensures r.mesFuturo == serie[|serie| - 1].numero + 1 && 2 <= r.mesFuturo <= 13
    ensures r.nombreFuturo == NombreMesFuturo(r.mesFuturo)
    ensures r.mesFuturo <= 12 ==> r.nombreFuturo == MesesLista[r.mesFuturo - 1]
    ensures r.nombreFuturo == "Mes 13" <==> serie[|serie| - 1].mes == "Dic"
    ensures |r.etiquetasX| == |serie| + 1
    ensures forall i :: 0 <= i < |serie| ==> r.etiquetasX[i] == serie[i].mes
    ensures r.etiquetasX[|serie|] == "Pred. " + r.nombreFuturo
  {
    var ultimo := UltimoMes(serie);
    UltimoEsMaximo(serie);
    NombreTrasDiciembre(serie[|serie| - 1]);
    var nombre := NombreMesFuturo(ultimo + 1);
    Pronostico(serie, ultimo + 1, nombre, EtiquetasX(serie, nombre))
  }

  // ----------------------------------------------------------------------------------------
  // `analizar_ventas_externas`

  /** Why the analysis showed no charts: the file is missing, the CSV is malformed, another
      read error, no row with a numeric amount, or a month that does not map to a number
      (its `NaN` turns the month column into floats and the list lookup of the forecast
      name raises). */
  datatype ErrorAnalisis = SinArchivo | FormatoCsv | Inesperado | SinDatos | MesDesconocido

  datatype Analisis = Analisis(porProducto: seq<Grupo>, porRegion: seq<Grupo>, pronostico: Pronostico)

  method AnalizarVentasExternas(lectura: Lectura, leer: string -> Option<real>) returns (r: Result<Analisis, ErrorAnalisis>)
    ensures lectura.NoExiste? <==> r == Failure(SinArchivo)
    ensures lectura.ErrorDeFormato? <==> r == Failure(FormatoCsv)
    ensures lectura.OtroError? <==> r == Failure(Inesperado)
    ensures r == Failure(SinDatos) <==> lectura.Leida? && Limpiar(lectura.filas, leer) == []
    ensures r == Failure(MesDesconocido) <==>
      lectura.Leida? && Limpiar(lectura.filas, leer) != [] && !MesesConocidos(Limpiar(lectura.filas, leer))
    ensures r.Success? ==>
      var limpias := Limpiar(lectura.filas, leer);
      && limpias != [] && MesesConocidos(limpias)
      && r.value.porProducto == AgruparOrdenado(limpias, Producto)
      && r.value.porRegion == AgruparOrdenado(limpias, Region)
      && SerieMensual(limpias) != [] && SerieOrdenada(SerieMensual(limpias))
      && r.value.pronostico == CalcularPronostico(SerieMensual(limpias))
  {
    match lectura {
      case NoExiste => return Failure(SinArchivo);
      case ErrorDeFormato => return Failure(FormatoCsv);
      case OtroError => return Failure(Inesperado);
      case Leida(filas) =>
        var df := new TablaVentas(filas);
        df.ConvertirVentas(leer);
        df.DescartarNulos();
        ConvertidaSinTexto(filas, leer);
        if df.filas == [] {
          return Failure(SinDatos);
        }
        var porProducto := AgruparOrdenado(df.filas, Producto);
        var conocidos := MesesConocidos(df.filas);
        if !conocidos {
          return Failure(MesDesconocido);
        }
        var porRegion := AgruparOrdenado(df.filas, Region);
        var serie := SerieMensual(df.filas);
        SerieNoVacia(df.filas);
        SerieMensualOrdenada(df.filas);
        r := Success(Analisis(porProducto, porRegion, CalcularPronostico(serie)));
    }
  }
}
