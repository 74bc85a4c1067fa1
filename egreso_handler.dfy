/** `EgresoHandler`: a sale. A shortfall of at most 0.5 is first covered
    by an automatic adjustment lot; a larger one is refused. The quantity
    sold is then consumed lot by lot from the head of the FIFO queue, with
    one kardex record and one costing detail per lot touched. */
module EgresoHandler {
  import opened Wrappers
  import opened Costeo
  import opened KardexFactory

  /** `TOLERANCIA_AJUSTE`. */
  const TOLERANCIA_AJUSTE: real := 0.5

  function Abs(x: real): real {
    if x < 0.0 then -x else x
  }

  /** The balance after a sale, quantity and value. */
  datatype EgresoResult = EgresoResult(nuevoSaldoCantidad: real, nuevoSaldoValor: real)

  // ---------------------------------------------------------------------
  // FIFO consumption
  // ---------------------------------------------------------------------

  /** One turn of the loop: the head lot as it was and the quantity taken
      from it. */
  datatype Consumo = Consumo(lote: Lot, cantidadUsada: real)

  /** The cost of a turn: the quantity taken at the lot's unit cost. */
  function CostoParcial(c: Consumo): real {
    Monto(c.cantidadUsada, c.lote.kardex.costoUnitario)
  }

  /** The queue left behind, the turns taken, and the quantity still
      pending when the loop stopped. */
  datatype Fifo = Fifo(lotes: seq<Lot>, consumos: seq<Consumo>, pendiente: real)

  /** `BigDecimal.min`: the receiver when it is not larger. */
  function Min(a: real, b: real): (m: real)
    ensures a <= b ==> m == a
    ensures b < a ==> m == b
  {
    if a <= b then a else b
  }

  /** The queue after `usada` was taken from its head lot: the head is
      removed once nothing is left in it, and otherwise keeps the rest. */
  function Siguiente(lotes: seq<Lot>, usada: real): seq<Lot>
    requires lotes != []
  {
    var resto := lotes[0].disponible - usada;
    if resto <= 0.0 then lotes[1..] else [lotes[0].(disponible := resto)] + lotes[1..]
  }

  /** The consumption loop: while quantity is pending, take
      `min(pending, available)` from the head lot at its unit cost, and
      remove the head once nothing is left in it; stop early when the queue
      is empty. */
  function ConsumirFifo(lotes: seq<Lot>, pendiente: real): (r: Fifo)
    decreases |lotes| + (if pendiente > 0.0 then 1 else 0)
  {
    if pendiente <= 0.0 then Fifo(lotes, [], pendiente)
    else if lotes == [] then Fifo([], [], pendiente)
    else
      var usada := Min(pendiente, lotes[0].disponible);
      var r := ConsumirFifo(Siguiente(lotes, usada), pendiente - usada);
      Fifo(r.lotes, [Consumo(lotes[0], usada)] + r.consumos, r.pendiente)
  }

  /** The quantity taken over a sequence of turns. */
  function SumUsada(cs: seq<Consumo>): real {
    if cs == [] then 0.0 else SumUsada(cs[..|cs| - 1]) + cs[|cs| - 1].cantidadUsada
  }

  /** The cost of a sequence of turns. */
  function SumCosto(cs: seq<Consumo>): real {
    if cs == [] then 0.0 else SumCosto(cs[..|cs| - 1]) + CostoParcial(cs[|cs| - 1])
  }

  lemma {:induction false} SumCons(c: Consumo, cs: seq<Consumo>)
    ensures SumUsada([c] + cs) == c.cantidadUsada + SumUsada(cs)
    ensures SumCosto([c] + cs) == CostoParcial(c) + SumCosto(cs)
    decreases |cs|
  {
    if cs != [] {
      SumCons(c, cs[..|cs| - 1]);
      assert ([c] + cs)[..|cs|] == [c] + cs[..|cs| - 1];
    }
  }

  lemma MontoResta(total: real, usada: real, p: real)
    ensures Monto(total, p) == Monto(usada, p) + Monto(total - usada, p)
  {
    assert total * p == usada * p + (total - usada) * p;
  }

  lemma SumasCabeza(lotes: seq<Lot>)
    requires lotes != []
    ensures SumDisponible(lotes) == lotes[0].disponible + SumDisponible(lotes[1..])
    ensures SumValor(lotes) == Monto(lotes[0].disponible, lotes[0].kardex.costoUnitario) + SumValor(lotes[1..])
  {
  }

  /** Taking part of a lot at the head leaves the rest in it. */
  lemma SumasParte(l: Lot, resto: seq<Lot>, usada: real)
    ensures SumDisponible([l] + resto) == usada + SumDisponible([l.(disponible := l.disponible - usada)] + resto)
    ensures SumValor([l] + resto) == Monto(usada, l.kardex.costoUnitario) + SumValor([l.(disponible := l.disponible - usada)] + resto)
  {
    var a := [l] + resto;
    var b := [l.(disponible := l.disponible - usada)] + resto;
    assert a[1..] == resto && b[1..] == resto;
    SumasCabeza(a);
    SumasCabeza(b);
    MontoResta(l.disponible, usada, l.kardex.costoUnitario);
  }

  /** Taking `usada` from the head lot moves exactly `usada` and its cost
      out of the queue. */
  lemma SiguienteSumas(lotes: seq<Lot>, usada: real)
    requires lotes != [] && usada <= lotes[0].disponible
    ensures SumDisponible(lotes) == usada + SumDisponible(Siguiente(lotes, usada))
    ensures SumValor(lotes) == Monto(usada, lotes[0].kardex.costoUnitario) + SumValor(Siguiente(lotes, usada))
  {
    var l := lotes[0];
    var sig := Siguiente(lotes, usada);
    if l.disponible - usada > 0.0 {
      assert sig == [l.(disponible := l.disponible - usada)] + lotes[1..];
      assert lotes == [l] + lotes[1..];
      SumasParte(l, lotes[1..], usada);
    } else {
      assert sig == lotes[1..];
      SumasCabeza(lotes);
      assert usada == l.disponible;
    }
  }

  /** In quantity: what the queue held is what was taken plus what is
      left, and what was taken is what was asked for, less what is still
      pending when the queue ran out. */
  lemma {:induction false} ConsumirFifoCantidad(lotes: seq<Lot>, pendiente: real)
    ensures var r := ConsumirFifo(lotes, pendiente);
      SumDisponible(lotes) == SumUsada(r.consumos) + SumDisponible(r.lotes)
      && (pendiente > 0.0 ==> SumUsada(r.consumos) == pendiente - r.pendiente && r.pendiente >= 0.0)
      && (r.pendiente > 0.0 ==> r.lotes == [])
    decreases |lotes| + (if pendiente > 0.0 then 1 else 0)
  {
    if pendiente > 0.0 && lotes != [] {
      var usada := Min(pendiente, lotes[0].disponible);
      var c := Consumo(lotes[0], usada);
      var siguiente := Siguiente(lotes, usada);
      ConsumirFifoCantidad(siguiente, pendiente - usada);
      var r := ConsumirFifo(siguiente, pendiente - usada);
      ConsumirFifoPaso(lotes, pendiente);
      SumCons(c, r.consumos);
      SiguienteSumas(lotes, usada);
      if lotes[0].disponible - usada > 0.0 {
        assert pendiente - usada == 0.0;
      }
    }
  }

  /** In cost: what the queue held is the cost of what was taken plus that
      of what is left. */
  lemma {:induction false} ConsumirFifoValor(lotes: seq<Lot>, pendiente: real)
    ensures var r := ConsumirFifo(lotes, pendiente);
      SumValor(lotes) == SumCosto(r.consumos) + SumValor(r.lotes)
    decreases |lotes| + (if pendiente > 0.0 then 1 else 0)
  {
    if pendiente > 0.0 && lotes != [] {
      var usada := Min(pendiente, lotes[0].disponible);
      var c := Consumo(lotes[0], usada);
      var siguiente := Siguiente(lotes, usada);
      ConsumirFifoValor(siguiente, pendiente - usada);
      var r := ConsumirFifo(siguiente, pendiente - usada);
      ConsumirFifoPaso(lotes, pendiente);
      SumCons(c, r.consumos);
      SiguienteSumas(lotes, usada);
    }
  }

  /** Nothing is lost or created: what the queue held is what was taken
      plus what is left, in quantity and in cost; and the quantity taken is
      the quantity asked for, less what is still pending when the queue ran
      out. */
  lemma ConsumirFifoConserva(lotes: seq<Lot>, pendiente: real)
    ensures var r := ConsumirFifo(lotes, pendiente);
      SumDisponible(lotes) == SumUsada(r.consumos) + SumDisponible(r.lotes)
      && SumValor(lotes) == SumCosto(r.consumos) + SumValor(r.lotes)
      && (pendiente > 0.0 ==> SumUsada(r.consumos) == pendiente - r.pendiente && r.pendiente >= 0.0)
      && (r.pendiente > 0.0 ==> r.lotes == [])
  {
    ConsumirFifoCantidad(lotes, pendiente);
    ConsumirFifoValor(lotes, pendiente);
  }

  /** One turn of the loop. */
  lemma ConsumirFifoPaso(lotes: seq<Lot>, pendiente: real)
    requires pendiente > 0.0 && lotes != []
    ensures var usada := Min(pendiente, lotes[0].disponible);
      var r := ConsumirFifo(Siguiente(lotes, usada), pendiente - usada);
      ConsumirFifo(lotes, pendiente) == Fifo(r.lotes, [Consumo(lotes[0], usada)] + r.consumos, r.pendiente)
  {
  }

  /** The run of the loop seen after the turns `hechos`. */
  function Prefijar(hechos: seq<Consumo>, f: Fifo): (r: Fifo)
    ensures r.lotes == f.lotes && r.pendiente == f.pendiente && r.consumos == hechos + f.consumos
  {
    Fifo(f.lotes, hechos + f.consumos, f.pendiente)
  }

  lemma SumSnoc(cs: seq<Consumo>, c: Consumo)
    ensures SumUsada(cs + [c]) == SumUsada(cs) + c.cantidadUsada
    ensures SumCosto(cs + [c]) == SumCosto(cs) + CostoParcial(c)
  {
    assert (cs + [c])[..|cs|] == cs;
  }

  /** Where the imperative loop stands: `total` is the run of
      `ConsumirFifo` on the whole request, seen as the turns `hechos`
      already taken followed by the run from the queue `lotes` and the
      quantity `pendiente`; `pendiente` and `costo` are what the turns
      taken leave pending and cost. */
  ghost predicate Avance(total: Fifo, cantidad: real, hechos: seq<Consumo>, lotes: seq<Lot>, pendiente: real, costo: real) {
    total == Prefijar(hechos, ConsumirFifo(lotes, pendiente))
    && pendiente == cantidad - SumUsada(hechos) && costo == SumCosto(hechos)
  }

  /** One turn seen from the run of the whole request: the turn just
      taken joins those already taken. */
  lemma PrefijarPaso(total: Fifo, hechos: seq<Consumo>, antes: seq<Lot>, pendiente: real)
    requires total == Prefijar(hechos, ConsumirFifo(antes, pendiente))
    requires pendiente > 0.0 && antes != []
    ensures var usada := Min(pendiente, antes[0].disponible);
      total == Prefijar(hechos + [Consumo(antes[0], usada)], ConsumirFifo(Siguiente(antes, usada), pendiente - usada))
  {
    var usada := Min(pendiente, antes[0].disponible);
    var c := Consumo(antes[0], usada);
    var r := ConsumirFifo(Siguiente(antes, usada), pendiente - usada);
    ConsumirFifoPaso(antes, pendiente);
    assert hechos + ([c] + r.consumos) == (hechos + [c]) + r.consumos;
  }

  /** The measure of the loop goes down with each turn. */
  lemma MedidaPaso(antes: seq<Lot>, pendiente: real)
    requires pendiente > 0.0 && antes != []
    ensures var usada := Min(pendiente, antes[0].disponible);
      |Siguiente(antes, usada)| + (if pendiente - usada > 0.0 then 1 else 0) < |antes| + 1
  {
  }

  /** Where the loop stops, the turns taken are the whole run. */
  lemma Termina(total: Fifo, cantidad: real, hechos: seq<Consumo>, lotes: seq<Lot>, pendiente: real, costo: real)
    requires Avance(total, cantidad, hechos, lotes, pendiente, costo)
    requires pendiente <= 0.0 || lotes == []
    ensures total == Fifo(lotes, hechos, pendiente) && costo == SumCosto(hechos)
  {
    assert ConsumirFifo(lotes, pendiente) == Fifo(lotes, [], pendiente);
    assert hechos + [] == hechos;
  }

  /** One turn of the imperative loop keeps it in step with
      `ConsumirFifo`, and the measure of the loop goes down: `nuevos`,
      `pendiente'`, `costo'` and `hechos'` are the queue, the pending
      quantity, the cost and the turns after the turn that took
      `min(pendiente, available)` from the head of `antes`. */
  lemma VueltaCola(total: Fifo, cantidad: real, hechos: seq<Consumo>, antes: seq<Lot>, pendiente: real, costo: real,
                   hechos': seq<Consumo>, nuevos: seq<Lot>, pendiente': real, costo': real)
    requires Avance(total, cantidad, hechos, antes, pendiente, costo)
    requires pendiente > 0.0 && antes != []
    requires var c := Consumo(antes[0], Min(pendiente, antes[0].disponible));
      hechos' == hechos + [c] && nuevos == Siguiente(antes, c.cantidadUsada)
      && pendiente' == pendiente - c.cantidadUsada && costo' == costo + CostoParcial(c)
    ensures Avance(total, cantidad, hechos', nuevos, pendiente', costo')
    ensures |nuevos| + (if pendiente' > 0.0 then 1 else 0) < |antes| + (if pendiente > 0.0 then 1 else 0)
  {
    PrefijarPaso(total, hechos, antes, pendiente);
    MedidaPaso(antes, pendiente);
    SumSnoc(hechos, Consumo(antes[0], Min(pendiente, antes[0].disponible)));
  }

  /** Turn i took from the i-th lot of the queue. */
  predicate EnOrden(cs: seq<Consumo>, lotes: seq<Lot>) {
    |cs| <= |lotes| && forall i :: 0 <= i < |cs| ==> cs[i].lote == lotes[i]
  }

  /** Every turn but the last took all that was left in its lot. */
  predicate VaciaAnteriores(cs: seq<Consumo>) {
    forall i :: 0 <= i < |cs| - 1 ==> cs[i].cantidadUsada == cs[i].lote.disponible
  }

  /** What the turns `cs` leave of the queue `lotes`: the lots not
      touched, after the remainder of the last lot touched when some was
      left in it. */
  predicate Resto(cs: seq<Consumo>, lotes: seq<Lot>, quedan: seq<Lot>)
    requires |cs| <= |lotes|
  {
    var k := |cs|;
    quedan == lotes[k..]
    || (k > 0 && quedan == [lotes[k - 1].(disponible := lotes[k - 1].disponible - cs[k - 1].cantidadUsada)] + lotes[k..])
  }

  lemma OrdenCons(c: Consumo, cs: seq<Consumo>, lotes: seq<Lot>)
    requires lotes != [] && c.lote == lotes[0] && EnOrden(cs, lotes[1..])
    ensures EnOrden([c] + cs, lotes)
  {
    forall i | 0 <= i < |cs| + 1 ensures ([c] + cs)[i].lote == lotes[i] {
      if i > 0 {
        assert ([c] + cs)[i] == cs[i - 1];
      }
    }
  }

  lemma VaciaCons(c: Consumo, cs: seq<Consumo>)
    requires cs == [] || c.cantidadUsada == c.lote.disponible
    requires VaciaAnteriores(cs)
    ensures VaciaAnteriores([c] + cs)
  {
    forall i | 0 <= i < |cs| ensures ([c] + cs)[i].cantidadUsada == ([c] + cs)[i].lote.disponible {
      if i > 0 {
        assert ([c] + cs)[i] == cs[i - 1];
      }
    }
  }

  lemma RestoCons(c: Consumo, cs: seq<Consumo>, lotes: seq<Lot>, quedan: seq<Lot>)
    requires lotes != [] && |cs| <= |lotes| - 1 && Resto(cs, lotes[1..], quedan)
    ensures Resto([c] + cs, lotes, quedan)
  {
    assert lotes[1..][|cs|..] == lotes[|cs| + 1..];
    if cs != [] {
      assert ([c] + cs)[|cs|] == cs[|cs| - 1];
      assert lotes[1..][|cs| - 1] == lotes[|cs|];
    }
  }

  /** Turn i took from the i-th lot of the queue. */
  lemma {:induction false} ConsumirFifoEnOrden(lotes: seq<Lot>, pendiente: real)
    ensures EnOrden(ConsumirFifo(lotes, pendiente).consumos, lotes)
    decreases |lotes| + (if pendiente > 0.0 then 1 else 0)
  {
    if pendiente > 0.0 && lotes != [] {
      var usada := Min(pendiente, lotes[0].disponible);
      var c := Consumo(lotes[0], usada);
      var siguiente := Siguiente(lotes, usada);
      ConsumirFifoPaso(lotes, pendiente);
      var r := ConsumirFifo(siguiente, pendiente - usada);
      assert ConsumirFifo(lotes, pendiente).consumos == [c] + r.consumos;
      if lotes[0].disponible - usada <= 0.0 {
        assert siguiente == lotes[1..];
        ConsumirFifoEnOrden(siguiente, pendiente - usada);
        OrdenCons(c, r.consumos, lotes);
      } else {
        assert usada == pendiente;
        assert r.consumos == [];
        assert [c] + r.consumos == [c];
        assert EnOrden([c], lotes);
      }
    }
  }

  /** Every turn but the last emptied its lot. */
  lemma {:induction false} ConsumirFifoVacia(lotes: seq<Lot>, pendiente: real)
    ensures VaciaAnteriores(ConsumirFifo(lotes, pendiente).consumos)
    decreases |lotes| + (if pendiente > 0.0 then 1 else 0)
  {
    if pendiente > 0.0 && lotes != [] {
      var usada := Min(pendiente, lotes[0].disponible);
      var c := Consumo(lotes[0], usada);
      var siguiente := Siguiente(lotes, usada);
      ConsumirFifoPaso(lotes, pendiente);
      var r := ConsumirFifo(siguiente, pendiente - usada);
      if lotes[0].disponible - usada <= 0.0 {
        ConsumirFifoVacia(siguiente, pendiente - usada);
        VaciaCons(c, r.consumos);
      } else {
        assert r.consumos == [];
        assert [c] + r.consumos == [c];
      }
    }
  }

  /** What is left is the untouched tail, after the remainder of the last
      lot touched when that lot was not emptied. */
  lemma {:induction false} ConsumirFifoResto(lotes: seq<Lot>, pendiente: real)
    ensures var r := ConsumirFifo(lotes, pendiente);
      |r.consumos| <= |lotes| && Resto(r.consumos, lotes, r.lotes)
    decreases |lotes| + (if pendiente > 0.0 then 1 else 0)
  {
    var total := ConsumirFifo(lotes, pendiente);
    if pendiente > 0.0 && lotes != [] {
      var usada := Min(pendiente, lotes[0].disponible);
      var c := Consumo(lotes[0], usada);
      var siguiente := Siguiente(lotes, usada);
      ConsumirFifoPaso(lotes, pendiente);
      var r := ConsumirFifo(siguiente, pendiente - usada);
      assert total.consumos == [c] + r.consumos && total.lotes == r.lotes;
      if lotes[0].disponible - usada <= 0.0 {
        assert siguiente == lotes[1..];
        ConsumirFifoResto(siguiente, pendiente - usada);
        RestoCons(c, r.consumos, lotes, r.lotes);
      } else {
        assert r == Fifo(siguiente, [], pendiente - usada);
        assert total.consumos == [c];
        assert total.lotes == [lotes[0].(disponible := lotes[0].disponible - c.cantidadUsada)] + lotes[1..];
      }
    } else {
      assert total.consumos == [] && total.lotes == lotes[0..];
    }
  }

  /** FIFO order: turn i took from the i-th lot of the queue; every lot but
      the last one touched was emptied; what is left is the untouched tail,
      after the remainder of the last lot touched when that lot was not
      emptied. */
  lemma ConsumirFifoOrden(lotes: seq<Lot>, pendiente: real)
    ensures var r := ConsumirFifo(lotes, pendiente);
      EnOrden(r.consumos, lotes) && VaciaAnteriores(r.consumos) && Resto(r.consumos, lotes, r.lotes)
  {
    ConsumirFifoEnOrden(lotes, pendiente);
    ConsumirFifoVacia(lotes, pendiente);
    ConsumirFifoResto(lotes, pendiente);
  }

  /** Lots with positive quantities stay positive. */
  lemma {:induction false} ConsumirFifoPositivos(lotes: seq<Lot>, pendiente: real)
    requires LotesPositivos(lotes)
    ensures LotesPositivos(ConsumirFifo(lotes, pendiente).lotes)
    decreases |lotes| + (if pendiente > 0.0 then 1 else 0)
  {
    if pendiente > 0.0 && lotes != [] {
      var l := lotes[0];
      var usada := Min(pendiente, l.disponible);
      var resto := l.disponible - usada;
      var siguiente := Siguiente(lotes, usada);
      assert LotesPositivos(siguiente) by {
        forall i | 0 <= i < |siguiente| ensures siguiente[i].disponible > 0.0 {
          if i > 0 || resto <= 0.0 {
            assert siguiente[i] == lotes[if resto <= 0.0 then i + 1 else i];
          }
        }
      }
      ConsumirFifoPositivos(siguiente, pendiente - usada);
    }
  }

  lemma {:induction false} SumPositivos(lotes: seq<Lot>)
    requires LotesPositivos(lotes)
    ensures SumDisponible(lotes) >= 0.0
  {
    if lotes != [] {
      assert LotesPositivos(lotes[1..]) by {
        forall i | 0 <= i < |lotes| - 1 ensures lotes[1..][i].disponible > 0.0 {
          assert lotes[1..][i] == lotes[i + 1];
        }
      }
      SumPositivos(lotes[1..]);
    }
  }

  /** With lots of positive quantity, the queue runs out before the
      request is met exactly when it held less than what was asked. */
  lemma ConsumirFifoAgota(lotes: seq<Lot>, pendiente: real)
    requires LotesPositivos(lotes) && pendiente > 0.0
    ensures ConsumirFifo(lotes, pendiente).pendiente > 0.0 <==> SumDisponible(lotes) < pendiente
  {
    ConsumirFifoConserva(lotes, pendiente);
    ConsumirFifoPositivos(lotes, pendiente);
    SumPositivos(ConsumirFifo(lotes, pendiente).lotes);
  }

  // ---------------------------------------------------------------------
  // The handler
  // ---------------------------------------------------------------------

  /** The adjustment transaction `crearAjusteAutomatico` persists: the
      sale's group and date, the shortfall as quantity, the sale's price
      (0 when null), already costed. */
  function AjusteTx(original: Tx, cantidad: real, tipo: TipoMovimiento): (t: Tx)
    ensures t.cantidad == cantidad && t.precio.Some? && t.costeado && !t.paraRevision
    ensures Clave(t) == Clave(original) && t.fecha == original.fecha
  {
    Tx(None, original.empresaId, original.cuenta, original.custodioId, original.instrumentoId,
       original.fecha, None, tipo, cantidad, Some(original.precio.GetOr(0.0)), true, false)
  }

  /** The kardex record of each turn: the quantity and cost taken, and the
      balance once that turn is taken. */
  function KardexParciales(egreso: Tx, cs: seq<Consumo>, qty: real, val: real, clave: string): (ks: seq<Kardex>)
    ensures |ks| == |cs|
  {
    if cs == [] then []
    else
      var c := cs[|cs| - 1];
      KardexParciales(egreso, cs[..|cs| - 1], qty, val, clave)
        + [CreateFromEgreso(egreso, c.cantidadUsada, CostoParcial(c), qty - SumUsada(cs), val - SumCosto(cs), clave)]
  }

  /** The costing detail of each turn: which purchase fed the sale. */
  function Detalles(egreso: Tx, cs: seq<Consumo>, clave: string): (ds: seq<Detalle>)
    ensures |ds| == |cs|
  {
    if cs == [] then []
    else
      var c := cs[|cs| - 1];
      Detalles(egreso, cs[..|cs| - 1], clave) + [Detalle(c.lote.kardex.tx, egreso, c.cantidadUsada, CostoParcial(c), clave)]
  }

  /** The FIFO part of the handler from the state `e1` reached after any
      adjustment; on an empty queue the balance stays that of `e0`. */
  function Consumir(e0: Estado, e1: Estado, egreso: Tx, clave: string): Paso {
    var f := ConsumirFifo(e1.lotes, egreso.cantidad);
    var ks := e1.kardex + KardexParciales(egreso, f.consumos, e1.cantidad, e1.valor, clave);
    var ds := e1.detalles + Detalles(egreso, f.consumos, clave);
    if f.pendiente > 0.0 then Paso(Estado(e0.cantidad, e0.valor, f.lotes, ks, ds, e1.ajustes), Some(ColaVacia))
    else Paso(Estado(e1.cantidad - egreso.cantidad, e1.valor - SumCosto(f.consumos), f.lotes, ks, ds, e1.ajustes), None)
  }

  /** What the FIFO part leaves, field by field. */
  lemma ConsumirEfecto(e0: Estado, e1: Estado, egreso: Tx, clave: string)
    ensures var f := ConsumirFifo(e1.lotes, egreso.cantidad);
      var p := Consumir(e0, e1, egreso, clave);
      p.estado.lotes == f.lotes
      && p.estado.kardex == e1.kardex + KardexParciales(egreso, f.consumos, e1.cantidad, e1.valor, clave)
      && p.estado.detalles == e1.detalles + Detalles(egreso, f.consumos, clave)
      && p.estado.ajustes == e1.ajustes
      && (f.pendiente > 0.0 <==> p.falla == Some(ColaVacia))
      && (f.pendiente <= 0.0 ==>
            p.falla.None? && p.estado.cantidad == e1.cantidad - egreso.cantidad
            && p.estado.valor == e1.valor - SumCosto(f.consumos))
  {
  }

  /** The state after the automatic adjustment of a shortfall `dif`: the
      adjustment transaction persisted, its lot queued, the balance raised. */
  function Ajustar(e: Estado, egreso: Tx, dif: real, tipo: TipoMovimiento): Estado {
    var aj := AjusteTx(egreso, dif, tipo);
    var k := CreateFromIngreso(aj, e.cantidad + dif, e.valor + Monto(dif, aj.precio.value), Clave(egreso));
    Estado(e.cantidad + k.cantidad, e.valor + k.costoTotal, e.lotes + [Disponible(k)], e.kardex, e.detalles, e.ajustes + [aj])
  }

  /** `handle` on the state `e`. `tipoAjuste` is what the movement-type
      repository finds under AJUSTE_AUTO_TOLERANCIA. */
  function Egresar(e: Estado, egreso: Tx, clave: string, tipoAjuste: Option<TipoMovimiento>): (p: Paso)
    ensures p.falla == Some(SaldoInsuficiente) <==> egreso.cantidad - e.cantidad > TOLERANCIA_AJUSTE
    ensures p.falla == Some(SaldoInsuficiente) ==> p.estado == e
  {
    if e.cantidad < egreso.cantidad then
      var dif := egreso.cantidad - e.cantidad;
      if Abs(dif) <= TOLERANCIA_AJUSTE then
        if tipoAjuste.None? then Paso(e, Some(SinTipoAjuste))
        else Consumir(e, Ajustar(e, egreso, dif, tipoAjuste.value), egreso, clave)
      else Paso(e, Some(SaldoInsuficiente))
    else Consumir(e, e, egreso, clave)
  }

  /** The state the FIFO part of a sale starts from: after the automatic
      adjustment when the balance falls short and the adjustment type
      exists, and the state itself otherwise. */
  function Ajustado(e: Estado, egreso: Tx, tipoAjuste: Option<TipoMovimiento>): Estado {
    if e.cantidad < egreso.cantidad && tipoAjuste.Some? then Ajustar(e, egreso, egreso.cantidad - e.cantidad, tipoAjuste.value)
    else e
  }

  /** A sale that is not refused for the shortfall or for the missing
      adjustment type is the FIFO part run from the adjusted state. */
  lemma EgresarConsume(e: Estado, egreso: Tx, clave: string, tipoAjuste: Option<TipoMovimiento>)
    requires egreso.cantidad - e.cantidad <= TOLERANCIA_AJUSTE
    requires e.cantidad < egreso.cantidad ==> tipoAjuste.Some?
    ensures Egresar(e, egreso, clave, tipoAjuste) == Consumir(e, Ajustado(e, egreso, tipoAjuste), egreso, clave)
  {
  }

  /** The FIFO part ends in a queue accounting for the balance when it
      starts from one and completes a sale of non-negative quantity. */
  lemma ConsumirCuadra(e0: Estado, e1: Estado, egreso: Tx, clave: string)
    requires Cuadra(e1) && egreso.cantidad >= 0.0
    requires Consumir(e0, e1, egreso, clave).falla.None?
    ensures Cuadra(Consumir(e0, e1, egreso, clave).estado)
  {
    ConsumirFifoConserva(e1.lotes, egreso.cantidad);
  }

  /** A successful sale lowers the balance quantity by exactly the quantity
      sold and the value by the cost of the turns, which took exactly the
      quantity sold from the queue. */
  lemma EgresarExito(e: Estado, egreso: Tx, clave: string, tipoAjuste: Option<TipoMovimiento>)
    requires egreso.cantidad > 0.0
    requires Egresar(e, egreso, clave, tipoAjuste).falla.None?
    ensures var s := Egresar(e, egreso, clave, tipoAjuste).estado;
      var e1 := Ajustado(e, egreso, tipoAjuste);
      var f := ConsumirFifo(e1.lotes, egreso.cantidad);
      SumUsada(f.consumos) == egreso.cantidad
      && s.cantidad == e1.cantidad - egreso.cantidad
      && s.valor == e1.valor - SumCosto(f.consumos)
      && s.lotes == f.lotes
  {
    EgresarConsume(e, egreso, clave, tipoAjuste);
    ConsumirFifoConserva(Ajustado(e, egreso, tipoAjuste).lotes, egreso.cantidad);
  }

  /** A shortfall within the tolerance is adjusted so that the sale leaves
      the balance at exactly zero, with one adjustment transaction for the
      shortfall. */
  lemma EgresarTolerancia(e: Estado, egreso: Tx, clave: string, tipo: TipoMovimiento)
    requires e.cantidad < egreso.cantidad <= e.cantidad + TOLERANCIA_AJUSTE
    requires Egresar(e, egreso, clave, Some(tipo)).falla.None?
    ensures var s := Egresar(e, egreso, clave, Some(tipo)).estado;
      s.cantidad == 0.0 && s.ajustes == e.ajustes + [AjusteTx(egreso, egreso.cantidad - e.cantidad, tipo)]
  {
  }

  /** A sale of a non-negative quantity keeps the queue accounting for
      the balance. (A negative quantity skips the loop and still lowers the
      balance, which then no longer matches the queue.) */
  lemma EgresarCuadra(e: Estado, egreso: Tx, clave: string, tipoAjuste: Option<TipoMovimiento>)
    requires Cuadra(e) && egreso.cantidad >= 0.0
    requires Egresar(e, egreso, clave, tipoAjuste).falla.None?
    ensures Cuadra(Egresar(e, egreso, clave, tipoAjuste).estado)
  {
    EgresarConsume(e, egreso, clave, tipoAjuste);
    if e.cantidad < egreso.cantidad {
      AjustarCuadra(e, egreso, egreso.cantidad - e.cantidad, tipoAjuste.value);
    }
    ConsumirCuadra(e, Ajustado(e, egreso, tipoAjuste), egreso, clave);
  }

  lemma AjustarCuadra(e: Estado, egreso: Tx, dif: real, tipo: TipoMovimiento)
    requires Cuadra(e)
    ensures Cuadra(Ajustar(e, egreso, dif, tipo))
  {
    var aj := AjusteTx(egreso, dif, tipo);
    var k := CreateFromIngreso(aj, e.cantidad + dif, e.valor + Monto(dif, aj.precio.value), Clave(egreso));
    SumAppend(e.lotes, Disponible(k));
  }

  /** The adjustment lot, queued at the tail, holds the shortfall. */
  lemma AjustarPositivos(e: Estado, egreso: Tx, dif: real, tipo: TipoMovimiento)
    requires LotesPositivos(e.lotes) && dif > 0.0
    ensures LotesPositivos(Ajustar(e, egreso, dif, tipo).lotes)
  {
    var e1 := Ajustar(e, egreso, dif, tipo);
    forall i | 0 <= i < |e1.lotes| ensures e1.lotes[i].disponible > 0.0 {
      if i < |e.lotes| {
        assert e1.lotes[i] == e.lotes[i];
      }
    }
  }

  /** The FIFO part does not run out of lots when it starts from a queue
      of positive lots that accounts for a balance covering the sale. */
  lemma ConsumirSinColaVacia(e0: Estado, e1: Estado, egreso: Tx, clave: string)
    requires Cuadra(e1) && LotesPositivos(e1.lotes) && 0.0 < egreso.cantidad <= e1.cantidad
    ensures Consumir(e0, e1, egreso, clave).falla != Some(ColaVacia)
  {
    ConsumirFifoAgota(e1.lotes, egreso.cantidad);
    ConsumirEfecto(e0, e1, egreso, clave);
  }

  /** When the queue accounts for the balance with positive lots and the
      adjustment type exists, the queue never runs out in the middle of a
      sale of positive quantity. */
  lemma EgresarSinColaVacia(e: Estado, egreso: Tx, clave: string, tipo: TipoMovimiento)
    requires Cuadra(e) && LotesPositivos(e.lotes) && egreso.cantidad > 0.0
    ensures Egresar(e, egreso, clave, Some(tipo)).falla != Some(ColaVacia)
  {
    if egreso.cantidad - e.cantidad <= TOLERANCIA_AJUSTE {
      EgresarConsume(e, egreso, clave, Some(tipo));
      var e1 := Ajustado(e, egreso, Some(tipo));
      if e.cantidad < egreso.cantidad {
        AjustarCuadra(e, egreso, egreso.cantidad - e.cantidad, tipo);
        AjustarPositivos(e, egreso, egreso.cantidad - e.cantidad, tipo);
        assert e1.cantidad == egreso.cantidad;
      }
      ConsumirSinColaVacia(e, e1, egreso, clave);
    }
  }

  /** The records persisted so far are `kardex0` and `detalles0`
      followed by those of the turns `hechos`. */
  ghost predicate Registrado(kardex: seq<Kardex>, detalles: seq<Detalle>, kardex0: seq<Kardex>, detalles0: seq<Detalle>,
                             egreso: Tx, hechos: seq<Consumo>, qty: real, val: real, clave: string) {
    kardex == kardex0 + KardexParciales(egreso, hechos, qty, val, clave)
    && detalles == detalles0 + Detalles(egreso, hechos, clave)
  }

  /** The records one turn of the loop persists extend those of the turns
      before it. */
  lemma LibroVuelta(egreso: Tx, hechos: seq<Consumo>, c: Consumo,
                    usada: real, costo: real, qty: real, val: real, clave: string, saldoQty: real, saldoVal: real)
    requires usada == c.cantidadUsada && costo == CostoParcial(c)
    requires saldoQty == qty - SumUsada(hechos + [c]) && saldoVal == val - SumCosto(hechos + [c])
    ensures KardexParciales(egreso, hechos, qty, val, clave) + [CreateFromEgreso(egreso, usada, costo, saldoQty, saldoVal, clave)]
         == KardexParciales(egreso, hechos + [c], qty, val, clave)
    ensures Detalles(egreso, hechos, clave) + [Detalle(c.lote.kardex.tx, egreso, usada, costo, clave)]
         == Detalles(egreso, hechos + [c], clave)
  {
    assert (hechos + [c])[..|hechos|] == hechos;
  }

  /** `handle`, updating the queue and the persisted records in place. */
  method Handle(egreso: Tx, cola: ColaFifo, libro: Libro, currentQty: real, currentVal: real, clave: string,
                tipoAjuste: Option<TipoMovimiento>)
    returns (r: Result<EgresoResult, Falla>)
    modifies cola, libro
    ensures var p := Egresar(Estado(currentQty, currentVal, old(cola.lotes), old(libro.kardex), old(libro.detalles), old(libro.ajustes)), egreso, clave, tipoAjuste);
      cola.lotes == p.estado.lotes && libro.kardex == p.estado.kardex
      && libro.detalles == p.estado.detalles && libro.ajustes == p.estado.ajustes
      && (if p.falla.None? then r == Ok(EgresoResult(p.estado.cantidad, p.estado.valor)) else r == Err(p.falla.value))
  {
    ghost var e0 := Estado(currentQty, currentVal, cola.lotes, libro.kardex, libro.detalles, libro.ajustes);
    ghost var p := Egresar(e0, egreso, clave, tipoAjuste);
    var cantidadEgreso := egreso.cantidad;
    var qty := currentQty;
    var val := currentVal;
    if qty < cantidadEgreso {
      var diferencia := cantidadEgreso - qty;
      if Abs(diferencia) <= TOLERANCIA_AJUSTE {
        if tipoAjuste.None? {
          assert p == Paso(e0, Some(SinTipoAjuste));
          return Err(SinTipoAjuste);
        }
        qty, val := AplicarAjuste(egreso, cola, libro, qty, val, diferencia, tipoAjuste.value);
      } else {
        assert p == Paso(e0, Some(SaldoInsuficiente));
        return Err(SaldoInsuficiente);
      }
    }
    ghost var e1 := Estado(qty, val, cola.lotes, libro.kardex, libro.detalles, libro.ajustes);
    assert e1 == Ajustado(e0, egreso, tipoAjuste);
    EgresarConsume(e0, egreso, clave, tipoAjuste);
    r := HandleFifo(egreso, cola, libro, qty, val, clave, e0);
  }

  /** The FIFO part of `handle`, from the balance `qty`, `val` reached
      after any adjustment; `e0` is the state before the sale. */
  method HandleFifo(egreso: Tx, cola: ColaFifo, libro: Libro, qty: real, val: real, clave: string, ghost e0: Estado)
    returns (r: Result<EgresoResult, Falla>)
    modifies cola, libro
    ensures var p := Consumir(e0, Estado(qty, val, old(cola.lotes), old(libro.kardex), old(libro.detalles), old(libro.ajustes)), egreso, clave);
      cola.lotes == p.estado.lotes && libro.kardex == p.estado.kardex
      && libro.detalles == p.estado.detalles && libro.ajustes == p.estado.ajustes
      && (if p.falla.None? then r == Ok(EgresoResult(p.estado.cantidad, p.estado.valor)) else r == Err(p.falla.value))
  {
    ghost var e1 := Estado(qty, val, cola.lotes, libro.kardex, libro.detalles, libro.ajustes);
    ConsumirEfecto(e0, e1, egreso, clave);
    var completo, costoTotal := ConsumirCola(egreso, cola, libro, qty, val, clave);
    if !completo {
      return Err(ColaVacia);
    }
    r := Ok(EgresoResult(qty - egreso.cantidad, val - costoTotal));
  }

  /** `crearAjusteAutomatico` and the lot it queues: the adjustment
      transaction for the shortfall `diferencia` is persisted, the lot of
      its kardex record joins the queue, and the balance rises by the
      shortfall and its cost. */
  method AplicarAjuste(egreso: Tx, cola: ColaFifo, libro: Libro, qty: real, val: real, diferencia: real, tipo: TipoMovimiento)
    returns (nuevaQty: real, nuevoVal: real)
    modifies cola, libro
    ensures Estado(nuevaQty, nuevoVal, cola.lotes, libro.kardex, libro.detalles, libro.ajustes)
         == Ajustar(Estado(qty, val, old(cola.lotes), old(libro.kardex), old(libro.detalles), old(libro.ajustes)), egreso, diferencia, tipo)
  {
    var ajusteTx := AjusteTx(egreso, diferencia, tipo);
    libro.PersistAjuste(ajusteTx);
    var kardexAjuste := CreateFromIngreso(ajusteTx, qty + diferencia, val + Monto(diferencia, ajusteTx.precio.value), Clave(egreso));
    nuevaQty := qty + kardexAjuste.cantidad;
    nuevoVal := val + kardexAjuste.costoTotal;
    cola.Add(Disponible(kardexAjuste));
  }

  /** The FIFO loop of `handle`, from the balance `qty`, `val` reached
      after any adjustment: `completo` is false when the queue ran out
      first, and `costoTotal` is the cost of what was taken. */
  method ConsumirCola(egreso: Tx, cola: ColaFifo, libro: Libro, qty: real, val: real, clave: string)
    returns (completo: bool, costoTotal: real)
    modifies cola, libro
    ensures var f := ConsumirFifo(old(cola.lotes), egreso.cantidad);
      cola.lotes == f.lotes
      && libro.kardex == old(libro.kardex) + KardexParciales(egreso, f.consumos, qty, val, clave)
      && libro.detalles == old(libro.detalles) + Detalles(egreso, f.consumos, clave)
      && libro.ajustes == old(libro.ajustes)
      && completo == (f.pendiente <= 0.0) && costoTotal == SumCosto(f.consumos)
  {
    ghost var kardex0 := libro.kardex;
    ghost var detalles0 := libro.detalles;
    var cantidadEgreso := egreso.cantidad;
    var pendiente := cantidadEgreso;
    costoTotal := 0.0;
    ghost var hechos: seq<Consumo> := [];
    ghost var total := ConsumirFifo(cola.lotes, cantidadEgreso);
    assert Avance(total, cantidadEgreso, hechos, cola.lotes, pendiente, costoTotal);
    assert Registrado(libro.kardex, libro.detalles, kardex0, detalles0, egreso, hechos, qty, val, clave) by {
      assert kardex0 + [] == kardex0 && detalles0 + [] == detalles0;
    }
    while pendiente > 0.0
      invariant Avance(total, cantidadEgreso, hechos, cola.lotes, pendiente, costoTotal)
      invariant Registrado(libro.kardex, libro.detalles, kardex0, detalles0, egreso, hechos, qty, val, clave)
      invariant libro.ajustes == old(libro.ajustes)
      decreases |cola.lotes| + (if pendiente > 0.0 then 1 else 0)
    {
      if cola.lotes == [] {
        Termina(total, cantidadEgreso, hechos, cola.lotes, pendiente, costoTotal);
        return false, costoTotal;
      }
      ghost var antes, pendienteAntes, costoAntes, hechosAntes := cola.lotes, pendiente, costoTotal, hechos;
      ghost var c := Consumo(antes[0], Min(pendiente, antes[0].disponible));
      var cantidadUsada, costoParcial := TomarDeCabeza(egreso, cola, libro, pendiente, costoTotal, qty, val, clave,
                                                      hechos, kardex0, detalles0);
      costoTotal := costoTotal + costoParcial;
      pendiente := pendiente - cantidadUsada;
      hechos := hechos + [c];
      VueltaCola(total, cantidadEgreso, hechosAntes, antes, pendienteAntes, costoAntes,
                 hechos, cola.lotes, pendiente, costoTotal);
    }
    Termina(total, cantidadEgreso, hechos, cola.lotes, pendiente, costoTotal);
    completo := true;
  }

  /** One turn of the FIFO loop of `handle`, after the turns `hechos`:
      take `min(pendiente, available)` from the head lot at its unit cost,
      leave the rest in it or remove it once empty, and persist the turn's
      kardex record, with the balance once the turn is taken, and its
      costing detail. */
  method TomarDeCabeza(egreso: Tx, cola: ColaFifo, libro: Libro, pendiente: real, costoTotal: real,
                       qty: real, val: real, clave: string,
                       ghost hechos: seq<Consumo>, ghost kardex0: seq<Kardex>, ghost detalles0: seq<Detalle>)
    returns (cantidadUsada: real, costoParcial: real)
    requires cola.lotes != []
    requires pendiente == egreso.cantidad - SumUsada(hechos) && costoTotal == SumCosto(hechos)
    requires Registrado(libro.kardex, libro.detalles, kardex0, detalles0, egreso, hechos, qty, val, clave)
    modifies cola, libro
    ensures cantidadUsada == Min(pendiente, old(cola.lotes[0]).disponible)
    ensures costoParcial == CostoParcial(Consumo(old(cola.lotes[0]), cantidadUsada))
    ensures cola.lotes == Siguiente(old(cola.lotes), cantidadUsada)
    ensures Registrado(libro.kardex, libro.detalles, kardex0, detalles0, egreso,
                       hechos + [Consumo(old(cola.lotes[0]), cantidadUsada)], qty, val, clave)
    ensures libro.ajustes == old(libro.ajustes)
  {
    var ingresoFifo := cola.lotes[0];
    cantidadUsada := Min(pendiente, ingresoFifo.disponible);
    costoParcial := Monto(cantidadUsada, ingresoFifo.kardex.costoUnitario);
    ActualizarCabeza(cola, cantidadUsada);
    RegistrarVuelta(egreso, libro, ingresoFifo, cantidadUsada, costoParcial, pendiente, costoTotal, qty, val, clave,
                    hechos, kardex0, detalles0);
  }

  /** The head lot after `usada` was taken from it: its available
      quantity lowered in place, and the lot polled once nothing is left. */
  method ActualizarCabeza(cola: ColaFifo, usada: real)
    requires cola.lotes != []
    modifies cola
    ensures cola.lotes == Siguiente(old(cola.lotes), usada)
  {
    cola.SetHeadDisponible(cola.lotes[0].disponible - usada);
    if cola.lotes[0].disponible <= 0.0 {
      cola.Poll();
    }
  }

  /** The kardex record and the costing detail of the turn that took
      `cantidadUsada` from `ingreso` at the cost `costoParcial`. */
  method RegistrarVuelta(egreso: Tx, libro: Libro, ingreso: Lot, cantidadUsada: real, costoParcial: real,
                         pendiente: real, costoTotal: real, qty: real, val: real, clave: string,
                         ghost hechos: seq<Consumo>, ghost kardex0: seq<Kardex>, ghost detalles0: seq<Detalle>)
    requires costoParcial == CostoParcial(Consumo(ingreso, cantidadUsada))
    requires pendiente == egreso.cantidad - SumUsada(hechos) && costoTotal == SumCosto(hechos)
    requires Registrado(libro.kardex, libro.detalles, kardex0, detalles0, egreso, hechos, qty, val, clave)
    modifies libro
    ensures Registrado(libro.kardex, libro.detalles, kardex0, detalles0, egreso,
                       hechos + [Consumo(ingreso, cantidadUsada)], qty, val, clave)
    ensures libro.ajustes == old(libro.ajustes)
  {
    var saldoCantidad := qty - egreso.cantidad + (pendiente - cantidadUsada);
    var saldoValor := val - (costoTotal + costoParcial);
    var kardexParcial := CreateFromEgreso(egreso, cantidadUsada, costoParcial, saldoCantidad, saldoValor, clave);
    libro.PersistKardex(kardexParcial);
    libro.PersistDetalle(Detalle(ingreso.kardex.tx, egreso, cantidadUsada, costoParcial, clave));
    ghost var c := Consumo(ingreso, cantidadUsada);
    SumSnoc(hechos, c);
    LibroVuelta(egreso, hechos, c, cantidadUsada, costoParcial, qty, val, clave, saldoCantidad, saldoValor);
  }
}
