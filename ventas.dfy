/** The sales ledger analysis (analizador_ventas.py, and the same steps inside
    `analizar_ventas_externas` in cultivos.py): the amount column is coerced to numbers in
    place, rows whose amount did not parse are dropped in place, then the global metrics and
    the per-product totals sorted from largest to smallest are computed.

    The CSV reader is outside the model: a read is one of its outcomes, and a successful
    read is the sequence of rows. `pd.to_numeric` on a text cell is a function argument. */
module Ventas {
  import opened Wrappers
  import opened Secuencias

  /** An amount cell: text as read, a number, or missing (`NaN`). */
  datatype Celda = Texto(s: string) | Numero(x: real) | Nulo

  /** One ledger row; a missing value in a text column is `None`. */
  datatype Fila = Fila(mes: Option<string>, producto: Option<string>, region: Option<string>, venta: Celda)

  /** `pd.to_numeric(celda, errors='coerce')`. */
  function ANumero(c: Celda, leer: string -> Option<real>): (r: Celda)
    ensures r.Texto? == false
    ensures c.Numero? ==> r == c
  {
    match c
    case Texto(s) => if leer(s).Some? then Numero(leer(s).value) else Nulo
    case Numero(_) => c
    case Nulo => Nulo
  }

  function ConVentaNumerica(f: Fila, leer: string -> Option<real>): Fila {
    f.(venta := ANumero(f.venta, leer))
  }

  function ConvertirColumna(filas: seq<Fila>, leer: string -> Option<real>): seq<Fila> {
    Mapear(filas, f => ConVentaNumerica(f, leer))
  }

  predicate TieneVenta(f: Fila) {
    f.venta.Numero?
  }

  /** What `dropna` keeps: a row whose amount is not missing. */
  predicate NoNula(f: Fila) {
    !f.venta.Nulo?
  }

  /** The two cleaning statements together: coerce, then drop the rows left without a number. */
  function Limpiar(filas: seq<Fila>, leer: string -> Option<real>): seq<Fila> {
    Filtrar(ConvertirColumna(filas, leer), TieneVenta)
  }

  /** Once the column is coerced no text is left, so dropping missing amounts keeps exactly
      the numeric ones. */
  lemma ConvertidaSinTexto(filas: seq<Fila>, leer: string -> Option<real>)
    ensures Filtrar(ConvertirColumna(filas, leer), NoNula) == Limpiar(filas, leer)
  {
    var c := ConvertirColumna(filas, leer);
    forall i | 0 <= i < |c| ensures NoNula(c[i]) == TieneVenta(c[i]) {
      assert c[i] == ConVentaNumerica(filas[i], leer);
    }
    FiltrarEquivalente(c, NoNula, TieneVenta);
  }

  /** The pandas frame the script changes in place. */
  class TablaVentas {
    var filas: seq<Fila>

    constructor (filas: seq<Fila>)
      ensures this.filas == filas
    {
      this.filas := filas;
    }

    /** `df['Venta_Total'] = pd.to_numeric(df['Venta_Total'], errors='coerce')`. */
    method ConvertirVentas(leer: string -> Option<real>)
      modifies this
      ensures filas == ConvertirColumna(old(filas), leer)
    {
      filas := ConvertirColumna(filas, leer);
    }

    /** `df.dropna(subset=['Venta_Total'], inplace=True)`. */
    method DescartarNulos()
      modifies this
      ensures filas == Filtrar(old(filas), NoNula)
    {
      filas := Filtrar(filas, NoNula);
    }
  }

  /** Cleaning works row by row: a row survives, with its amount as a number, exactly when
      its amount parses, and the survivors of a concatenation are those of each part, in order. */
  lemma {:induction false} LimpiarConcat(a: seq<Fila>, b: seq<Fila>, leer: string -> Option<real>)
    ensures Limpiar(a + b, leer) == Limpiar(a, leer) + Limpiar(b, leer)
  {
    var conv := f => ConVentaNumerica(f, leer);
    var ca, cb := Mapear(a, conv), Mapear(b, conv);
    assert Mapear(a + b, conv) == ca + cb;
    FiltrarConcat(ca, cb, TieneVenta);
  }

  lemma LimpiarFila(f: Fila, leer: string -> Option<real>)
    ensures Limpiar([f], leer) ==
      if f.venta.Numero? || (f.venta.Texto? && leer(f.venta.s).Some?) then [ConVentaNumerica(f, leer)] else []
  {
    var conv := f => ConVentaNumerica(f, leer);
    assert Mapear([f], conv) == [ConVentaNumerica(f, leer)];
    assert Filtrar([ConVentaNumerica(f, leer)], TieneVenta)
        == Filtrar([], TieneVenta) + (if TieneVenta(ConVentaNumerica(f, leer)) then [ConVentaNumerica(f, leer)] else []);
  }

  /** After cleaning every row has a numeric amount, and the cleaned rows are the converted
      rows in their original order. */
  lemma LimpiezaNumerica(filas: seq<Fila>, leer: string -> Option<real>)
    ensures forall f :: f in Limpiar(filas, leer) ==> f.venta.Numero?
    ensures EsSubsecuencia(Limpiar(filas, leer), ConvertirColumna(filas, leer))
  {
    forall f | f in Limpiar(filas, leer) ensures f.venta.Numero? {
      FiltrarMiembro(ConvertirColumna(filas, leer), TieneVenta, f);
    }
    FiltrarSubsecuencia(ConvertirColumna(filas, leer), TieneVenta);
  }

  // ----------------------------------------------------------------------------------------
  // Global metrics

  function Monto(f: Fila): real {
    if f.venta.Numero? then f.venta.x else 0.0
  }

  function Maximo(filas: seq<Fila>): (m: real)
    requires filas != []
    ensures exists i :: 0 <= i < |filas| && Monto(filas[i]) == m
    ensures forall i :: 0 <= i < |filas| ==> Monto(filas[i]) <= m
  {
    if |filas| == 1 then Monto(filas[0])
    else
      var m := Maximo(filas[..|filas| - 1]);
      if Monto(filas[|filas| - 1]) > m then Monto(filas[|filas| - 1]) else m
  }

  function Minimo(filas: seq<Fila>): (m: real)
    requires filas != []
    ensures exists i :: 0 <= i < |filas| && Monto(filas[i]) == m
    ensures forall i :: 0 <= i < |filas| ==> m <= Monto(filas[i])
  {
    if |filas| == 1 then Monto(filas[0])
    else
      var m := Minimo(filas[..|filas| - 1]);
      if Monto(filas[|filas| - 1]) < m then Monto(filas[|filas| - 1]) else m
  }

  /** A sum of amounts that all lie in [lo, hi] lies between n*lo and n*hi. */
  lemma {:induction false} SumaAcotada(filas: seq<Fila>, lo: real, hi: real)
    requires forall i :: 0 <= i < |filas| ==> lo <= Monto(filas[i]) <= hi
    ensures |filas| as real * lo <= Suma(filas, Monto) <= |filas| as real * hi
  {
    if filas != [] {
      SumaAcotada(filas[..|filas| - 1], lo, hi);
    }
  }

  /** The mean of `n` amounts summing to `total`. */
  function Media(total: real, n: real): (m: real)
    requires n > 0.0
    ensures m * n == total
  {
    total / n
  }

  /** A mean lies between the bounds whose multiples bound the sum. */
  lemma MediaEntre(total: real, n: real, lo: real, hi: real)
    requires n > 0.0 && n * lo <= total <= n * hi
    ensures lo <= Media(total, n) <= hi
  {
    var m := Media(total, n);
    assert (m - lo) * n >= 0.0 && (hi - m) * n >= 0.0;
  }

  /** Mean, maximum and minimum: pandas gives `NaN` for them on an empty column. */
  datatype Estadisticas = Estadisticas(media: real, maxima: real, minima: real)

  datatype Metricas = Metricas(total: real, estadisticas: Option<Estadisticas>)

  function CalcularMetricas(filas: seq<Fila>): (r: Metricas)
    ensures r.total == Suma(filas, Monto)
    ensures r.estadisticas.Some? <==> filas != []
    ensures r.estadisticas.Some? ==>
      && r.estadisticas.value.media * |filas| as real == r.total
      && r.estadisticas.value.minima <= r.estadisticas.value.media <= r.estadisticas.value.maxima
    ensures filas != [] ==>
      r.estadisticas.value.maxima == Maximo(filas) && r.estadisticas.value.minima == Minimo(filas)
  {
    var total := Suma(filas, Monto);
    if filas == [] then Metricas(total, None)
    else
      var n := |filas| as real;
      var mx, mn := Maximo(filas), Minimo(filas);
      SumaAcotada(filas, mn, mx);
      MediaEntre(total, n, mn, mx);
      Metricas(total, Some(Estadisticas(Media(total, n), mx, mn)))
  }

  // ----------------------------------------------------------------------------------------
  // `df.groupby(columna)['Venta_Total'].sum().sort_values(ascending=False)`

  /** One group: its key and the sum of its rows' amounts. */
  datatype Grupo = Grupo(clave: string, total: real)

  function Total(g: Grupo): real { g.total }

  predicate ApareceClave(filas: seq<Fila>, clave: Fila -> Option<string>, k: string) {
    exists i | 0 <= i < |filas| :: clave(filas[i]) == Some(k)
  }

  predicate Distintas(ks: seq<string>) {
    forall i, j :: 0 <= i < j < |ks| ==> ks[i] != ks[j]
  }

  /** The distinct keys, in order of first appearance; rows without a key (`NaN`) are left
      out, as `groupby` does. */
  function Claves(filas: seq<Fila>, clave: Fila -> Option<string>): (r: seq<string>)
    ensures Distintas(r)
    ensures forall k :: k in r <==> ApareceClave(filas, clave, k)
  {
    if filas == [] then []
    else
      var init := filas[..|filas| - 1];
      var previas := Claves(init, clave);
      var k := clave(filas[|filas| - 1]);
      var r := if k.Some? && k.value !in previas then previas + [k.value] else previas;
      assert forall k :: ApareceClave(filas, clave, k) <==>
        ApareceClave(init, clave, k) || clave(filas[|filas| - 1]) == Some(k) by {
        forall k ensures ApareceClave(filas, clave, k) <==>
          ApareceClave(init, clave, k) || clave(filas[|filas| - 1]) == Some(k) {
          if ApareceClave(init, clave, k) {
            var i :| 0 <= i < |init| && clave(init[i]) == Some(k);
            assert filas[i] == init[i];
          }
        }
      }
      r
  }

  /** The sum of the amounts of the rows whose key is `k`. */
  function SumaClave(filas: seq<Fila>, clave: Fila -> Option<string>, k: string): real {
    if filas == [] then 0.0
    else SumaClave(filas[..|filas| - 1], clave, k)
         + (if clave(filas[|filas| - 1]) == Some(k) then Monto(filas[|filas| - 1]) else 0.0)
  }

  /** The sum of the amounts of the rows that have a key at all. */
  function SumaConClave(filas: seq<Fila>, clave: Fila -> Option<string>): real {
    if filas == [] then 0.0
    else SumaConClave(filas[..|filas| - 1], clave)
         + (if clave(filas[|filas| - 1]).Some? then Monto(filas[|filas| - 1]) else 0.0)
  }

  /** When every row has a key, the rows with a key are all the rows. */
  lemma {:induction false} SumaConTodasLasClaves(filas: seq<Fila>, clave: Fila -> Option<string>)
    requires forall i :: 0 <= i < |filas| ==> clave(filas[i]).Some?
    ensures SumaConClave(filas, clave) == Suma(filas, Monto)
  {
    if filas != [] {
      SumaConTodasLasClaves(filas[..|filas| - 1], clave);
    }
  }

  /** One group per key, in the order of `ks`. */
  function GruposDe(ks: seq<string>, filas: seq<Fila>, clave: Fila -> Option<string>): (r: seq<Grupo>)
    ensures |r| == |ks|
    ensures forall i :: 0 <= i < |ks| ==> r[i] == Grupo(ks[i], SumaClave(filas, clave, ks[i]))
  {
    if ks == [] then []
    else GruposDe(ks[..|ks| - 1], filas, clave) + [Grupo(ks[|ks| - 1], SumaClave(filas, clave, ks[|ks| - 1]))]
  }

  lemma {:induction false} SumaClaveAusente(filas: seq<Fila>, clave: Fila -> Option<string>, k: string)
    requires !ApareceClave(filas, clave, k)
    ensures SumaClave(filas, clave, k) == 0.0
  {
    if filas != [] {
      var init := filas[..|filas| - 1];
      forall i | 0 <= i < |init| ensures clave(init[i]) != Some(k) {
        assert init[i] == filas[i];
      }
      SumaClaveAusente(init, clave, k);
    }
  }

  /** Adding one row to the data adds its amount to the group of its key and to no other. */
  lemma {:induction false} GruposConFila(ks: seq<string>, init: seq<Fila>, x: Fila, clave: Fila -> Option<string>)
    requires Distintas(ks)
    ensures Suma(GruposDe(ks, init + [x], clave), Total) ==
      Suma(GruposDe(ks, init, clave), Total) + (if clave(x).Some? && clave(x).value in ks then Monto(x) else 0.0)
  {
    if ks != [] {
      var kinit := ks[..|ks| - 1];
      var k := ks[|ks| - 1];
      assert ks == kinit + [k];
      assert Distintas(kinit);
      GruposConFila(kinit, init, x, clave);
      var filas := init + [x];
      assert filas[..|filas| - 1] == init;
      assert SumaClave(filas, clave, k) == SumaClave(init, clave, k) + (if clave(x) == Some(k) then Monto(x) else 0.0);
      var g1 := GruposDe(ks, filas, clave);
      var g0 := GruposDe(ks, init, clave);
      assert g1[..|g1| - 1] == GruposDe(kinit, filas, clave);
      assert g0[..|g0| - 1] == GruposDe(kinit, init, clave);
      assert Suma(g1, Total) == Suma(GruposDe(kinit, filas, clave), Total) + SumaClave(filas, clave, k);
      assert Suma(g0, Total) == Suma(GruposDe(kinit, init, clave), Total) + SumaClave(init, clave, k);
      assert clave(x) == Some(k) ==> k !in kinit;
    }
  }

  /** Grouping conserves the amount: the group totals add up to the amount of the rows that
      have a key. */
  lemma {:induction false} GruposConservan(filas: seq<Fila>, clave: Fila -> Option<string>)
    ensures Suma(GruposDe(Claves(filas, clave), filas, clave), Total) == SumaConClave(filas, clave)
  {
    if filas != [] {
      var init := filas[..|filas| - 1];
      var x := filas[|filas| - 1];
      assert filas == init + [x];
      var ks := Claves(init, clave);
      var aporte := if clave(x).Some? then Monto(x) else 0.0;
      assert SumaConClave(filas, clave) == SumaConClave(init, clave) + aporte;
      GruposConservan(init, clave);
      GruposConFila(ks, init, x, clave);
      if clave(x).Some? && clave(x).value !in ks {
        GrupoNuevo(init, x, clave);
      }
    }
  }

  /** The last row brings a key not seen before: its group holds just that row. */
  lemma GrupoNuevo(init: seq<Fila>, x: Fila, clave: Fila -> Option<string>)
    requires clave(x).Some? && clave(x).value !in Claves(init, clave)
    ensures Suma(GruposDe(Claves(init + [x], clave), init + [x], clave), Total) ==
      Suma(GruposDe(Claves(init, clave), init + [x], clave), Total) + Monto(x)
  {
    var filas := init + [x];
    assert filas[..|filas| - 1] == init;
    var ks := Claves(init, clave);
    var k := clave(x).value;
    var ks' := ks + [k];
    assert Claves(filas, clave) == ks';
    assert ks'[..|ks'| - 1] == ks;
    SumaClaveAusente(init, clave, k);
    assert SumaClave(filas, clave, k) == Monto(x);
    var g := GruposDe(ks', filas, clave);
    assert g[..|g| - 1] == GruposDe(ks, filas, clave);
  }

  predicate OrdenadoDesc(gs: seq<Grupo>) {
    forall i, j :: 0 <= i < j < |gs| ==> gs[i].total >= gs[j].total
  }

  predicate ClavesUnicas(gs: seq<Grupo>) {
    forall i, j :: 0 <= i < j < |gs| ==> gs[i].clave != gs[j].clave
  }

  /** The head of a list sorted by decreasing total is its largest group. */
  lemma CabezaMaxima(gs: seq<Grupo>)
    requires OrdenadoDesc(gs)
    ensures gs != [] ==> forall y | y in gs :: gs[0].total >= y.total
  {
    forall y | y in gs ensures gs[0].total >= y.total {
      var k :| 0 <= k < |gs| && gs[k] == y;
    }
  }

  /** A group at least as large as every group of a sorted list may go in front of it. */
  lemma AnteponerOrdenado(x: Grupo, rs: seq<Grupo>)
    requires OrdenadoDesc(rs)
    requires forall y | y in rs :: x.total >= y.total
    ensures OrdenadoDesc([x] + rs)
  {
    var s := [x] + rs;
    forall i, j | 0 <= i < j < |s| ensures s[i].total >= s[j].total {
      assert s[j] == rs[j - 1] && rs[j - 1] in rs;
      if i > 0 {
        assert s[i] == rs[i - 1];
      }
    }
  }

  /** Insertion of one group before the first group with a smaller total. */
  function Insertar(g: Grupo, gs: seq<Grupo>): (r: seq<Grupo>)
    ensures multiset(r) == multiset(gs) + multiset{g}
  {
    if gs == [] || g.total >= gs[0].total then
      [g] + gs
    else
      assert gs == [gs[0]] + gs[1..];
      [gs[0]] + Insertar(g, gs[1..])
  }

  /** Insertion keeps a list sorted by decreasing total sorted. */
  lemma {:induction false} InsertarOrdenado(g: Grupo, gs: seq<Grupo>)
    requires OrdenadoDesc(gs)
    ensures OrdenadoDesc(Insertar(g, gs))
  {
    CabezaMaxima(gs);
    if gs == [] || g.total >= gs[0].total {
      AnteponerOrdenado(g, gs);
    } else {
      assert gs == [gs[0]] + gs[1..];
      assert multiset(gs) == multiset{gs[0]} + multiset(gs[1..]);
      assert OrdenadoDesc(gs[1..]);
      var resto := Insertar(g, gs[1..]);
      InsertarOrdenado(g, gs[1..]);
      forall x | x in resto ensures gs[0].total >= x.total {
        assert x in multiset(resto);
        assert x == g || x in multiset(gs[1..]);
        assert x == g || x in gs;
      }
      AnteponerOrdenado(gs[0], resto);
    }
  }

  lemma {:induction false} SumaInsertar(g: Grupo, gs: seq<Grupo>)
    ensures Suma(Insertar(g, gs), Total) == g.total + Suma(gs, Total)
  {
    if gs == [] || g.total >= gs[0].total {
      SumaCabeza([g] + gs, Total);
      assert ([g] + gs)[1..] == gs;
    } else {
      var resto := Insertar(g, gs[1..]);
      SumaInsertar(g, gs[1..]);
      SumaCabeza([gs[0]] + resto, Total);
      assert ([gs[0]] + resto)[1..] == resto;
      SumaCabeza(gs, Total);
    }
  }

  /** Insertion sort by total, largest first. */
  function OrdenarDesc(gs: seq<Grupo>): (r: seq<Grupo>)
    ensures OrdenadoDesc(r)
    ensures multiset(r) == multiset(gs)
    ensures Suma(r, Total) == Suma(gs, Total)
  {
    if gs == [] then []
    else
      SumaCabeza(gs, Total);
      assert gs == [gs[0]] + gs[1..];
      SumaInsertar(gs[0], OrdenarDesc(gs[1..]));
      InsertarOrdenado(gs[0], OrdenarDesc(gs[1..]));
      Insertar(gs[0], OrdenarDesc(gs[1..]))
  }

  lemma {:induction false} InsertarUnicas(g: Grupo, gs: seq<Grupo>)
    requires ClavesUnicas(gs)
    requires forall h :: h in gs ==> h.clave != g.clave
    ensures ClavesUnicas(Insertar(g, gs))
  {
    if gs != [] && g.total < gs[0].total {
      var resto := Insertar(g, gs[1..]);
      assert ClavesUnicas(gs[1..]);
      InsertarUnicas(g, gs[1..]);
      forall x | x in resto ensures x.clave != gs[0].clave {
        assert x in multiset(resto);
        if x != g {
          assert x in gs[1..];
          var j :| 0 <= j < |gs[1..]| && gs[1..][j] == x;
          assert gs[j + 1] == x;
        }
      }
    }
  }

  lemma {:induction false} OrdenarUnicas(gs: seq<Grupo>)
    requires ClavesUnicas(gs)
    ensures ClavesUnicas(OrdenarDesc(gs))
  {
    if gs != [] {
      var resto := gs[1..];
      assert ClavesUnicas(resto);
      OrdenarUnicas(resto);
      forall h | h in OrdenarDesc(resto) ensures h.clave != gs[0].clave {
        assert h in multiset(OrdenarDesc(resto));
        var j :| 0 <= j < |resto| && resto[j] == h;
        assert gs[j + 1] == h;
      }
      InsertarUnicas(gs[0], OrdenarDesc(resto));
    }
  }

  /** The grouped, summed and sorted series: one entry per distinct key, each with the sum of
      its rows, sorted from largest to smallest total (ties in no promised order), and the
      totals add up to the amount of the rows that have a key. */
  function AgruparOrdenado(filas: seq<Fila>, clave: Fila -> Option<string>): (r: seq<Grupo>)
    ensures OrdenadoDesc(r)
    ensures ClavesUnicas(r)
    ensures forall g :: g in r ==> g.total == SumaClave(filas, clave, g.clave) && ApareceClave(filas, clave, g.clave)
    ensures forall k :: ApareceClave(filas, clave, k) ==> exists g :: g in r && g.clave == k
    ensures Suma(r, Total) == SumaConClave(filas, clave)
  {
    var gs := GruposDe(Claves(filas, clave), filas, clave);
    GruposConservan(filas, clave);
    GruposDeUnicos(filas, clave);
    OrdenarUnicas(gs);
    MismosGrupos(gs);
    GruposFieles(filas, clave);
    OrdenarDesc(gs)
  }

  /** The groups of distinct keys have distinct keys. */
  lemma GruposDeUnicos(filas: seq<Fila>, clave: Fila -> Option<string>)
    ensures ClavesUnicas(GruposDe(Claves(filas, clave), filas, clave))
  {
    var ks := Claves(filas, clave);
    var gs := GruposDe(ks, filas, clave);
    forall i, j | 0 <= i < j < |gs| ensures gs[i].clave != gs[j].clave {
      assert gs[i].clave == ks[i] && gs[j].clave == ks[j];
    }
  }

  /** Sorting neither adds nor loses a group. */
  lemma MismosGrupos(gs: seq<Grupo>)
    ensures forall g :: g in OrdenarDesc(gs) <==> g in gs
  {
    var r := OrdenarDesc(gs);
    forall g ensures g in r <==> g in gs {
      assert g in r <==> g in multiset(r);
    }
  }

  /** Each group holds the sum of a key some row has, and each such key has its group. */
  lemma GruposFieles(filas: seq<Fila>, clave: Fila -> Option<string>)
    ensures forall g :: g in GruposDe(Claves(filas, clave), filas, clave) ==>
      g.total == SumaClave(filas, clave, g.clave) && ApareceClave(filas, clave, g.clave)
    ensures forall k :: ApareceClave(filas, clave, k) ==>
      exists g :: g in GruposDe(Claves(filas, clave), filas, clave) && g.clave == k
  {
    var ks := Claves(filas, clave);
    var gs := GruposDe(ks, filas, clave);
    forall g | g in gs ensures g.total == SumaClave(filas, clave, g.clave) && ApareceClave(filas, clave, g.clave) {
      var i :| 0 <= i < |gs| && gs[i] == g;
      assert ks[i] in ks;
    }
    forall k | ApareceClave(filas, clave, k) ensures exists g :: g in gs && g.clave == k {
      var i := IndiceDe(ks, k);
      assert gs[i] in gs;
    }
  }

  function IndiceDe(ks: seq<string>, k: string): (i: nat)
    requires k in ks
    ensures i < |ks| && ks[i] == k
  {
    if ks[0] == k then 0 else 1 + IndiceDe(ks[1..], k)
  }

  function Producto(f: Fila): Option<string> { f.producto }

  function Region(f: Fila): Option<string> { f.region }

  /** When every cleaned row names its product, the per-product totals add up to the global
      total. */
  lemma ProductosSumanTotal(filas: seq<Fila>)
    requires forall i :: 0 <= i < |filas| ==> filas[i].producto.Some?
    ensures Suma(AgruparOrdenado(filas, Producto), Total) == CalcularMetricas(filas).total
  {
    SumaConTodasLasClaves(filas, Producto);
  }

  // ----------------------------------------------------------------------------------------
  // `analizar_ventas`

  /** What `os.path.exists` and `pd.read_csv` produced. */
  datatype Lectura = NoExiste | ErrorDeFormato | OtroError | Leida(filas: seq<Fila>)

  datatype ErrorVentas = ArchivoNoEncontrado | FormatoInvalido | ErrorInesperado

  datatype Informe = Informe(metricas: Metricas, porProducto: seq<Grupo>)

  /** `analizar_ventas`: a missing or unreadable file stops the run before any metric; a
      read file is cleaned in place and summarised. */
  method AnalizarVentas(lectura: Lectura, leer: string -> Option<real>) returns (r: Result<Informe, ErrorVentas>)
    ensures lectura.NoExiste? <==> r == Failure(ArchivoNoEncontrado)
    ensures lectura.ErrorDeFormato? <==> r == Failure(FormatoInvalido)
    ensures lectura.OtroError? <==> r == Failure(ErrorInesperado)
    ensures lectura.Leida? ==>
      var limpias := Limpiar(lectura.filas, leer);
      r == Success(Informe(CalcularMetricas(limpias), AgruparOrdenado(limpias, Producto)))
  {
    match lectura {
      case NoExiste => return Failure(ArchivoNoEncontrado);
      case ErrorDeFormato => return Failure(FormatoInvalido);
      case OtroError => return Failure(ErrorInesperado);
      case Leida(filas) =>
        var df := new TablaVentas(filas);
        df.ConvertirVentas(leer);
        df.DescartarNulos();
        ConvertidaSinTexto(filas, leer);
        var metricas := CalcularMetricas(df.filas);
        var porProducto := AgruparOrdenado(df.filas, Producto);
        r := Success(Informe(metricas, porProducto));
    }
  }
}
