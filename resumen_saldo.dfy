/** `ResumenSaldoEmpresaService` (com.serv): the balance summary by
    business — the query's rows with their share of the grand total, a
    subtotal row after each business and a grand-total row. The native
    query is an input: its rows, in its order. */
module ResumenSaldoEmpresaService {
  import opened Wrappers
  import opened Decimal

  /** `ResumenSaldoEmpresaDto`, restricted to the fields the service
      reads and writes. */
  datatype ResumenSaldoEmpresa = ResumenSaldoEmpresa(
    empresa: string, saldoClp: real, saldoUsd: real,
    porcentaje: Option<real>, styleClass: Option<string>)

  /** Percentages keep two decimals. */
  const ESCALA_PORCENTAJE: nat := 2

  /** `calcularYSetearPorcentaje`: the CLP balance as a percentage of the
      grand total, 0 when the grand total is 0. */
  function Porcentaje(saldoClp: real, granTotalClp: real): (r: real)
    ensures granTotalClp == 0.0 ==> r == 0.0
    ensures granTotalClp != 0.0 ==> -0.005 <= r - saldoClp * 100.0 / granTotalClp <= 0.005
  {
    assert Pow10(ESCALA_PORCENTAJE) == 100;
    if granTotalClp != 0.0 then Divide(saldoClp * 100.0, granTotalClp, ESCALA_PORCENTAJE) else 0.0
  }

  function ConPorcentaje(dto: ResumenSaldoEmpresa, granTotalClp: real): ResumenSaldoEmpresa {
    dto.(porcentaje := Some(Porcentaje(dto.saldoClp, granTotalClp)))
  }

  /** `crearFilaSubtotal`. */
  function Subtotal(empresa: string, subtotalClp: real, subtotalUsd: real, granTotalClp: real): ResumenSaldoEmpresa {
    ResumenSaldoEmpresa("Subtotal " + empresa, subtotalClp, subtotalUsd,
                        Some(Porcentaje(subtotalClp, granTotalClp)), Some("subtotal-row"))
  }

  /** `crearFilaTotal`. */
  function Total(granTotalClp: real, granTotalUsd: real): ResumenSaldoEmpresa {
    ResumenSaldoEmpresa("Total General", granTotalClp, granTotalUsd, Some(100.0), Some("total-row"))
  }

  /** The CLP and USD sums of some rows. */
  function SumaClp(s: seq<ResumenSaldoEmpresa>): real {
    if s == [] then 0.0 else SumaClp(s[..|s| - 1]) + s[|s| - 1].saldoClp
  }

  function SumaUsd(s: seq<ResumenSaldoEmpresa>): real {
    if s == [] then 0.0 else SumaUsd(s[..|s| - 1]) + s[|s| - 1].saldoUsd
  }

  // ---------------------------------------------------------------------
  // The loop, one row at a time
  // ---------------------------------------------------------------------

  /** The loop's variables: current business, running subtotals, output. */
  datatype Estado = Estado(empresaActual: string, subtotalClp: real, subtotalUsd: real,
                           finales: seq<ResumenSaldoEmpresa>)

  /** One iteration of the loop of `procesarResultadosConTotales`. */
  function Paso(e: Estado, dto: ResumenSaldoEmpresa, granTotalClp: real): Estado {
    var actual := if e.empresaActual == [] then dto.empresa else e.empresaActual;
    if dto.empresa != actual then
      Estado(dto.empresa, 0.0 + dto.saldoClp, 0.0 + dto.saldoUsd,
             e.finales + [Subtotal(actual, e.subtotalClp, e.subtotalUsd, granTotalClp), ConPorcentaje(dto, granTotalClp)])
    else
      Estado(actual, e.subtotalClp + dto.saldoClp, e.subtotalUsd + dto.saldoUsd,
             e.finales + [ConPorcentaje(dto, granTotalClp)])
  }

  /** The loop's variables after the rows `s`. */
  function Recorrer(s: seq<ResumenSaldoEmpresa>, granTotalClp: real): Estado {
    if s == [] then Estado("", 0.0, 0.0, [])
    else Paso(Recorrer(s[..|s| - 1], granTotalClp), s[|s| - 1], granTotalClp)
  }

  /** `procesarResultadosConTotales`: the rows with subtotals, the last
      subtotal, and the grand total. */
  function Procesar(s: seq<ResumenSaldoEmpresa>): (r: seq<ResumenSaldoEmpresa>)
    ensures r != [] && r[|r| - 1] == Total(SumaClp(s), SumaUsd(s))
  {
    var granTotalClp := SumaClp(s);
    var e := Recorrer(s, granTotalClp);
    e.finales
    + (if e.empresaActual != [] then [Subtotal(e.empresaActual, e.subtotalClp, e.subtotalUsd, granTotalClp)] else [])
    + [Total(granTotalClp, SumaUsd(s))]
  }

  /** `obtenerResumenSaldos`: no rows give an empty list. */
  function ObtenerResumenSaldos(s: seq<ResumenSaldoEmpresa>): (r: seq<ResumenSaldoEmpresa>)
    ensures s == [] <==> r == []
  {
    if s == [] then [] else Procesar(s)
  }

  /** `procesarResultadosConTotales`, as a loop over the rows. */
  method ProcesarResultadosConTotales(resultados: seq<ResumenSaldoEmpresa>)
    returns (resultadosFinales: seq<ResumenSaldoEmpresa>)
    ensures resultadosFinales == Procesar(resultados)
  {
    var granTotalClp := SumaClp(resultados);
    var granTotalUsd := SumaUsd(resultados);
    var empresaActual := "";
    var subtotalClp := 0.0;
    var subtotalUsd := 0.0;
    resultadosFinales := [];
    var i := 0;
    while i < |resultados|
      invariant 0 <= i <= |resultados|
      invariant Estado(empresaActual, subtotalClp, subtotalUsd, resultadosFinales) == Recorrer(resultados[..i], granTotalClp)
    {
      var dto := resultados[i];
      assert resultados[..i + 1][..i] == resultados[..i];
      if empresaActual == [] {
        empresaActual := dto.empresa;
      }
      if dto.empresa != empresaActual {
        resultadosFinales := resultadosFinales + [Subtotal(empresaActual, subtotalClp, subtotalUsd, granTotalClp)];
        empresaActual := dto.empresa;
        subtotalClp := 0.0;
        subtotalUsd := 0.0;
      }
      subtotalClp := subtotalClp + dto.saldoClp;
      subtotalUsd := subtotalUsd + dto.saldoUsd;
      resultadosFinales := resultadosFinales + [ConPorcentaje(dto, granTotalClp)];
      i := i + 1;
    }
    assert resultados[..i] == resultados;
    if empresaActual != [] {
      resultadosFinales := resultadosFinales + [Subtotal(empresaActual, subtotalClp, subtotalUsd, granTotalClp)];
    }
    resultadosFinales := resultadosFinales + [Total(granTotalClp, granTotalUsd)];
  }

  // ---------------------------------------------------------------------
  // Runs of one business, and what the report is made of
  // ---------------------------------------------------------------------

  /** The maximal runs of consecutive rows of the same business. */
  function Tramos(s: seq<ResumenSaldoEmpresa>): (r: seq<seq<ResumenSaldoEmpresa>>)
    ensures r == [] <==> s == []
    ensures forall k :: 0 <= k < |r| ==> r[k] != []
  {
    if s == [] then []
    else
      var r := Tramos(s[..|s| - 1]);
      var x := s[|s| - 1];
      if r != [] && r[|r| - 1][0].empresa == x.empresa then r[..|r| - 1] + [r[|r| - 1] + [x]]
      else r + [[x]]
  }

  /** The rows of a run with their percentages. */
  function ConPorcentajes(t: seq<ResumenSaldoEmpresa>, granTotalClp: real): (r: seq<ResumenSaldoEmpresa>)
    ensures |r| == |t|
    ensures forall k :: 0 <= k < |t| ==> r[k] == ConPorcentaje(t[k], granTotalClp)
  {
    seq(|t|, i requires 0 <= i < |t| => ConPorcentaje(t[i], granTotalClp))
  }

  /** One run in the report: its rows, then its subtotal. */
  function Bloque(t: seq<ResumenSaldoEmpresa>, granTotalClp: real): seq<ResumenSaldoEmpresa>
    requires t != []
  {
    ConPorcentajes(t, granTotalClp) + [Subtotal(t[0].empresa, SumaClp(t), SumaUsd(t), granTotalClp)]
  }

  /** The blocks of the runs `ts`, one after another. */
  function Emitir(ts: seq<seq<ResumenSaldoEmpresa>>, granTotalClp: real): seq<ResumenSaldoEmpresa>
    requires forall k :: 0 <= k < |ts| ==> ts[k] != []
  {
    if ts == [] then [] else Emitir(ts[..|ts| - 1], granTotalClp) + Bloque(ts[|ts| - 1], granTotalClp)
  }

  /** The subtotal rows of the runs `ts`. */
  function Subtotales(ts: seq<seq<ResumenSaldoEmpresa>>, granTotalClp: real): (r: seq<ResumenSaldoEmpresa>)
    requires forall k :: 0 <= k < |ts| ==> ts[k] != []
    ensures |r| == |ts|
  {
    if ts == [] then []
    else
      var t := ts[|ts| - 1];
      Subtotales(ts[..|ts| - 1], granTotalClp) + [Subtotal(t[0].empresa, SumaClp(t), SumaUsd(t), granTotalClp)]
  }

  /** The runs `ts` laid end to end. */
  function Aplanar(ts: seq<seq<ResumenSaldoEmpresa>>): seq<ResumenSaldoEmpresa> {
    if ts == [] then [] else Aplanar(ts[..|ts| - 1]) + ts[|ts| - 1]
  }

  /** Every business name is non-empty (the loop takes an empty name for
      "no business yet"). */
  predicate NombresNoVacios(s: seq<ResumenSaldoEmpresa>) {
    forall k :: 0 <= k < |s| ==> s[k].empresa != []
  }

  lemma {:induction false} SumasSnoc(s: seq<ResumenSaldoEmpresa>, x: ResumenSaldoEmpresa)
    ensures SumaClp(s + [x]) == SumaClp(s) + x.saldoClp
    ensures SumaUsd(s + [x]) == SumaUsd(s) + x.saldoUsd
  {
    assert (s + [x])[..|s + [x]| - 1] == s;
  }

  lemma {:induction false} SumaClpAppend(a: seq<ResumenSaldoEmpresa>, b: seq<ResumenSaldoEmpresa>)
    ensures SumaClp(a + b) == SumaClp(a) + SumaClp(b)
  {
    if b != [] {
      var v := b[..|b| - 1];
      SumaClpAppend(a, v);
      assert a + b == (a + v) + [b[|b| - 1]];
      SumasSnoc(a + v, b[|b| - 1]);
    } else {
      assert a + b == a;
    }
  }

  /** The runs after one more row of the last run's business. */
  lemma TramosMismo(u: seq<ResumenSaldoEmpresa>, x: ResumenSaldoEmpresa)
    requires u != [] && Tramos(u)[|Tramos(u)| - 1][0].empresa == x.empresa
    ensures var r := Tramos(u);
      Tramos(u + [x]) == r[..|r| - 1] + [r[|r| - 1] + [x]]
  {
    assert (u + [x])[..|u + [x]| - 1] == u;
  }

  /** The runs after a row of another business. */
  lemma TramosOtro(u: seq<ResumenSaldoEmpresa>, x: ResumenSaldoEmpresa)
    requires u != [] && Tramos(u)[|Tramos(u)| - 1][0].empresa != x.empresa
    ensures Tramos(u + [x]) == Tramos(u) + [[x]]
  {
    assert (u + [x])[..|u + [x]| - 1] == u;
  }

  lemma ConPorcentajesSnoc(t: seq<ResumenSaldoEmpresa>, x: ResumenSaldoEmpresa, g: real)
    ensures ConPorcentajes(t + [x], g) == ConPorcentajes(t, g) + [ConPorcentaje(x, g)]
  {
  }

  lemma EmitirSnoc(p: seq<seq<ResumenSaldoEmpresa>>, t: seq<ResumenSaldoEmpresa>, g: real)
    requires forall k :: 0 <= k < |p| ==> p[k] != []
    requires t != []
    ensures forall k :: 0 <= k < |p + [t]| ==> (p + [t])[k] != []
    ensures Emitir(p + [t], g) == Emitir(p, g) + Bloque(t, g)
  {
    assert (p + [t])[..|p|] == p;
  }

  /** The loop's variables as `RecorrerPorTramos` describes them. */
  ghost predicate Describe(e: Estado, ts: seq<seq<ResumenSaldoEmpresa>>, g: real)
    requires ts != [] && forall k :: 0 <= k < |ts| ==> ts[k] != []
  {
    var t := ts[|ts| - 1];
    e == Estado(t[0].empresa, SumaClp(t), SumaUsd(t), Emitir(ts[..|ts| - 1], g) + ConPorcentajes(t, g))
  }

  /** One more row of the current business extends the last run. */
  lemma PasoMismo(e: Estado, r: seq<seq<ResumenSaldoEmpresa>>, x: ResumenSaldoEmpresa, g: real)
    requires r != [] && forall k :: 0 <= k < |r| ==> r[k] != []
    requires Describe(e, r, g)
    requires r[|r| - 1][0].empresa == x.empresa
    ensures var r2 := r[..|r| - 1] + [r[|r| - 1] + [x]];
      (forall k :: 0 <= k < |r2| ==> r2[k] != []) && Describe(Paso(e, x, g), r2, g)
  {
    var t := r[|r| - 1];
    SumasSnoc(t, x);
    ConPorcentajesSnoc(t, x, g);
    var r2 := r[..|r| - 1] + [t + [x]];
    assert r2[..|r2| - 1] == r[..|r| - 1];
  }

  /** A run of one row. */
  lemma UnaFila(x: ResumenSaldoEmpresa, g: real)
    ensures SumaClp([x]) == 0.0 + x.saldoClp && SumaUsd([x]) == 0.0 + x.saldoUsd
    ensures ConPorcentajes([x], g) == [ConPorcentaje(x, g)]
  {
    SumasSnoc([], x);
    assert [] + [x] == [x];
  }

  /** A row of another business closes the last run with its subtotal
      and opens a new one. */
  lemma PasoOtro(e: Estado, r: seq<seq<ResumenSaldoEmpresa>>, x: ResumenSaldoEmpresa, g: real)
    requires r != [] && forall k :: 0 <= k < |r| ==> r[k] != []
    requires Describe(e, r, g) && e.empresaActual != []
    requires r[|r| - 1][0].empresa != x.empresa
    ensures (forall k :: 0 <= k < |r + [[x]]| ==> (r + [[x]])[k] != []) && Describe(Paso(e, x, g), r + [[x]], g)
  {
    var t := r[|r| - 1];
    var p := r[..|r| - 1];
    UnaFila(x, g);
    assert r == p + [t];
    assert Emitir(r, g) == Emitir(p, g) + Bloque(t, g);
    var r2: seq<seq<ResumenSaldoEmpresa>> := r + [[x]];
    assert r2[..|r2| - 1] == r;
    assert Paso(e, x, g).finales == Emitir(r, g) + ConPorcentajes([x], g);
  }

  /** Once a row has been read, the loop has a current business. */
  lemma {:induction false} RecorrerTieneEmpresa(s: seq<ResumenSaldoEmpresa>, g: real)
    requires s != [] && NombresNoVacios(s)
    ensures Recorrer(s, g).empresaActual != []
  {
    var u := s[..|s| - 1];
    if u != [] {
      assert NombresNoVacios(u);
      RecorrerTieneEmpresa(u, g);
    }
  }

  lemma RecorrerSnoc(u: seq<ResumenSaldoEmpresa>, x: ResumenSaldoEmpresa, g: real)
    ensures Recorrer(u + [x], g) == Paso(Recorrer(u, g), x, g)
  {
    assert (u + [x])[..|u|] == u;
  }

  /** The first row opens the first run. */
  lemma PasoInicial(x: ResumenSaldoEmpresa, g: real)
    ensures Describe(Recorrer([x], g), Tramos([x]), g)
  {
    RecorrerSnoc([], x, g);
    assert [] + [x] == [x];
    assert Tramos([x]) == [[x]];
    SumasSnoc([], x);
  }

  /** One more row, whichever run it falls in, keeps the description. */
  lemma PasoTramo(u: seq<ResumenSaldoEmpresa>, x: ResumenSaldoEmpresa, g: real)
    requires u != [] && NombresNoVacios(u)
    requires Describe(Recorrer(u, g), Tramos(u), g)
    ensures Describe(Recorrer(u + [x], g), Tramos(u + [x]), g)
  {
    RecorrerSnoc(u, x, g);
    var e := Recorrer(u, g);
    var r: seq<seq<ResumenSaldoEmpresa>> := Tramos(u);
    if r[|r| - 1][0].empresa == x.empresa {
      TramosMismo(u, x);
      PasoMismo(e, r, x, g);
    } else {
      RecorrerTieneEmpresa(u, g);
      TramosOtro(u, x);
      PasoOtro(e, r, x, g);
    }
  }

  /** With non-empty names, after a non-empty prefix the loop's variables
      are: the business of the last run, that run's sums, and the blocks
      of the earlier runs followed by the rows of the last one. */
  lemma {:induction false} RecorrerPorTramos(s: seq<ResumenSaldoEmpresa>, g: real)
    requires s != [] && NombresNoVacios(s)
    ensures Describe(Recorrer(s, g), Tramos(s), g)
  {
    var u := s[..|s| - 1];
    var x := s[|s| - 1];
    assert s == u + [x];
    if u == [] {
      PasoInicial(x, g);
    } else {
      assert NombresNoVacios(u);
      RecorrerPorTramos(u, g);
      PasoTramo(u, x, g);
    }
  }

  /** With non-empty names, the report is the block of each run — its
      rows with their percentages, then its subtotal — followed by the
      grand total. */
  lemma ProcesarPorTramos(s: seq<ResumenSaldoEmpresa>)
    requires s != [] && NombresNoVacios(s)
    ensures Procesar(s) == Emitir(Tramos(s), SumaClp(s)) + [Total(SumaClp(s), SumaUsd(s))]
  {
    var g := SumaClp(s);
    RecorrerPorTramos(s, g);
    RecorrerTieneEmpresa(s, g);
    var ts := Tramos(s);
    var t := ts[|ts| - 1];
    var e := Recorrer(s, g);
    assert ts == ts[..|ts| - 1] + [t];
    EmitirSnoc(ts[..|ts| - 1], t, g);
    assert e.finales + [Subtotal(e.empresaActual, e.subtotalClp, e.subtotalUsd, g)] == Emitir(ts, g);
  }

  /** Laid end to end, the runs give back the rows. */
  lemma {:induction false} TramosAplanan(s: seq<ResumenSaldoEmpresa>)
    ensures Aplanar(Tramos(s)) == s
  {
    if s != [] {
      var u := s[..|s| - 1];
      var x := s[|s| - 1];
      TramosAplanan(u);
      var r: seq<seq<ResumenSaldoEmpresa>> := Tramos(u);
      if r != [] && r[|r| - 1][0].empresa == x.empresa {
        var r2 := r[..|r| - 1] + [r[|r| - 1] + [x]];
        assert r2[..|r2| - 1] == r[..|r| - 1];
        assert r == r[..|r| - 1] + [r[|r| - 1]];
        assert Aplanar(r) == Aplanar(r[..|r| - 1]) + r[|r| - 1];
      } else {
        assert (r + [[x]])[..|r|] == r;
      }
    }
  }

  /** Every run holds one business. */
  ghost predicate Homogeneos(ts: seq<seq<ResumenSaldoEmpresa>>) {
    forall k, j :: 0 <= k < |ts| && 0 <= j < |ts[k]| ==> ts[k][j].empresa == ts[k][0].empresa
  }

  /** Consecutive runs hold different businesses. */
  ghost predicate Alternan(ts: seq<seq<ResumenSaldoEmpresa>>)
    requires forall k :: 0 <= k < |ts| ==> ts[k] != []
  {
    forall k :: 0 < k < |ts| ==> ts[k][0].empresa != ts[k - 1][0].empresa
  }

  lemma HomogeneosMismo(r: seq<seq<ResumenSaldoEmpresa>>, x: ResumenSaldoEmpresa)
    requires r != [] && r[|r| - 1] != [] && Homogeneos(r)
    requires r[|r| - 1][0].empresa == x.empresa
    ensures Homogeneos(r[..|r| - 1] + [r[|r| - 1] + [x]])
  {
    var r2: seq<seq<ResumenSaldoEmpresa>> := r[..|r| - 1] + [r[|r| - 1] + [x]];
    forall k, j | 0 <= k < |r2| && 0 <= j < |r2[k]| ensures r2[k][j].empresa == r2[k][0].empresa {
      if k < |r| - 1 {
        assert r2[k] == r[k];
      } else {
        assert r2[k] == r[|r| - 1] + [x];
      }
    }
  }

  lemma HomogeneosOtro(r: seq<seq<ResumenSaldoEmpresa>>, x: ResumenSaldoEmpresa)
    requires Homogeneos(r)
    ensures Homogeneos(r + [[x]])
  {
    var r2: seq<seq<ResumenSaldoEmpresa>> := r + [[x]];
    forall k, j | 0 <= k < |r2| && 0 <= j < |r2[k]| ensures r2[k][j].empresa == r2[k][0].empresa {
      if k < |r| {
        assert r2[k] == r[k];
      }
    }
  }

  lemma AlternanMismo(r: seq<seq<ResumenSaldoEmpresa>>, x: ResumenSaldoEmpresa)
    requires r != [] && (forall k :: 0 <= k < |r| ==> r[k] != []) && Alternan(r)
    ensures var r2 := r[..|r| - 1] + [r[|r| - 1] + [x]];
      (forall k :: 0 <= k < |r2| ==> r2[k] != []) && Alternan(r2)
  {
    var r2: seq<seq<ResumenSaldoEmpresa>> := r[..|r| - 1] + [r[|r| - 1] + [x]];
    assert forall k :: 0 <= k < |r2| ==> r2[k][0] == r[k][0];
  }

  lemma AlternanOtro(r: seq<seq<ResumenSaldoEmpresa>>, x: ResumenSaldoEmpresa)
    requires (forall k :: 0 <= k < |r| ==> r[k] != []) && Alternan(r)
    requires r != [] ==> r[|r| - 1][0].empresa != x.empresa
    ensures (forall k :: 0 <= k < |r + [[x]]| ==> (r + [[x]])[k] != []) && Alternan(r + [[x]])
  {
    var r2: seq<seq<ResumenSaldoEmpresa>> := r + [[x]];
    assert forall k :: 0 <= k < |r| ==> r2[k] == r[k];
  }

  lemma {:induction false} TramosHomogeneosAlternan(s: seq<ResumenSaldoEmpresa>)
    ensures Homogeneos(Tramos(s)) && Alternan(Tramos(s))
  {
    if s != [] {
      var u := s[..|s| - 1];
      var x := s[|s| - 1];
      assert s == u + [x];
      TramosHomogeneosAlternan(u);
      var r: seq<seq<ResumenSaldoEmpresa>> := Tramos(u);
      if u == [] {
        assert Tramos(s) == [[x]];
      } else if r[|r| - 1][0].empresa == x.empresa {
        TramosMismo(u, x);
        HomogeneosMismo(r, x);
        AlternanMismo(r, x);
      } else {
        TramosOtro(u, x);
        HomogeneosOtro(r, x);
        AlternanOtro(r, x);
      }
    }
  }

  /** Every run holds one business, and consecutive runs hold different
      ones: the runs are maximal. */
  lemma TramosMaximales(s: seq<ResumenSaldoEmpresa>)
    ensures var ts := Tramos(s);
      (forall k, j :: 0 <= k < |ts| && 0 <= j < |ts[k]| ==> ts[k][j].empresa == ts[k][0].empresa)
      && (forall k :: 0 < k < |ts| ==> ts[k][0].empresa != ts[k - 1][0].empresa)
  {
    TramosHomogeneosAlternan(s);
  }

  /** A block has one row per row of its run plus the subtotal. */
  lemma {:induction false} EmitirLongitud(ts: seq<seq<ResumenSaldoEmpresa>>, g: real)
    requires forall k :: 0 <= k < |ts| ==> ts[k] != []
    ensures |Emitir(ts, g)| == |Aplanar(ts)| + |ts|
  {
    if ts != [] {
      EmitirLongitud(ts[..|ts| - 1], g);
    }
  }

  /** The subtotals add up to the sum of all rows of the runs. */
  lemma {:induction false} SubtotalesSuman(ts: seq<seq<ResumenSaldoEmpresa>>, g: real)
    requires forall k :: 0 <= k < |ts| ==> ts[k] != []
    ensures SumaClp(Subtotales(ts, g)) == SumaClp(Aplanar(ts))
  {
    if ts != [] {
      var p := ts[..|ts| - 1];
      var t := ts[|ts| - 1];
      SubtotalesSuman(p, g);
      SumasSnoc(Subtotales(p, g), Subtotal(t[0].empresa, SumaClp(t), SumaUsd(t), g));
      SumaClpAppend(Aplanar(p), t);
    }
  }

  /** The report's length is rows + runs + 1; its subtotals add up to the
      grand total on the last row, whose percentage is 100. */
  lemma ReporteCuadra(s: seq<ResumenSaldoEmpresa>)
    requires s != [] && NombresNoVacios(s)
    ensures var r := ObtenerResumenSaldos(s);
      var ts := Tramos(s);
      |r| == |s| + |ts| + 1
      && SumaClp(Subtotales(ts, SumaClp(s))) == r[|r| - 1].saldoClp == SumaClp(s)
      && r[|r| - 1].porcentaje == Some(100.0)
  {
    ProcesarPorTramos(s);
    var ts := Tramos(s);
    EmitirLongitud(ts, SumaClp(s));
    TramosAplanan(s);
    SubtotalesSuman(ts, SumaClp(s));
  }

  /** A non-negative balance no larger than a positive grand total has a
      percentage between 0 and 100. */
  lemma PorcentajeAcotado(saldoClp: real, granTotalClp: real)
    requires granTotalClp > 0.0 && 0.0 <= saldoClp <= granTotalClp
    ensures 0.0 <= Porcentaje(saldoClp, granTotalClp) <= 100.0
  {
    var x := saldoClp * 100.0 / granTotalClp;
    assert 0.0 <= x <= 100.0 by {
      assert saldoClp * 100.0 <= granTotalClp * 100.0;
    }
    assert Pow10(ESCALA_PORCENTAJE) == 100;
    var t := RoundHalfUpInt(x * 100.0);
    assert t as real <= 10000.5;
    assert t <= 10000;
  }
}
