/** `SaldoActualService.obtenerSaldosValorizados`: the costed inventory
    of a group valued at the latest market prices. The kardex query and
    the price query are inputs: the inventory rows in the order the
    query returns them, and a map from instrument id to price. */
module SaldoActualService {
  import opened Wrappers
  import opened Decimal

  /** `InventarioCostoDto`: the final FIFO balance of one instrument. The
      final quantity may be null. */
  datatype InventarioCosto = InventarioCosto(
    instrumentoId: int, nemo: string, nombre: string,
    saldoCantidadFinal: Option<real>, costoTotalFifo: real)

  /** `ResumenSaldoDto`: one valued position. */
  datatype ResumenSaldo = ResumenSaldo(
    instrumentoId: int, nemo: string, nombre: string,
    saldoCantidad: real, costoTotal: real, costoUnitario: real,
    precioMercado: real, valorMercado: real, utilidadNoRealizada: real)

  /** Unit costs keep four decimals. */
  const ESCALA_COSTO_UNITARIO: nat := 4

  /** Only items with a non-null, positive final quantity are valued. */
  predicate ConSaldo(item: InventarioCosto) {
    item.saldoCantidadFinal.Some? && item.saldoCantidadFinal.value > 0.0
  }

  /** `mapaDePrecios.getOrDefault(id, ZERO)`. */
  function PrecioDe(precios: map<int, real>, id: int): real {
    if id in precios then precios[id] else 0.0
  }

  /** The valuation of one item with a positive quantity. */
  function Valorizar(item: InventarioCosto, precios: map<int, real>): ResumenSaldo
    requires ConSaldo(item)
  {
    var cantidad := item.saldoCantidadFinal.value;
    var precio := PrecioDe(precios, item.instrumentoId);
    var valor := cantidad * precio;
    ResumenSaldo(
      item.instrumentoId, item.nemo, item.nombre,
      cantidad, item.costoTotalFifo, Divide(item.costoTotalFifo, cantidad, ESCALA_COSTO_UNITARIO),
      precio, valor, if precio == 0.0 then 0.0 else valor - item.costoTotalFifo)
  }

  /** What the loop has appended after reading `items`, one item at a
      time from the left. */
  function Valorizados(items: seq<InventarioCosto>, precios: map<int, real>): seq<ResumenSaldo> {
    if items == [] then []
    else
      var previos := Valorizados(items[..|items| - 1], precios);
      var item := items[|items| - 1];
      if ConSaldo(item) then previos + [Valorizar(item, precios)] else previos
  }

  /** Every item has a positive quantity. */
  predicate TodosConSaldo(items: seq<InventarioCosto>) {
    forall k :: 0 <= k < |items| ==> ConSaldo(items[k])
  }

  /** The items with a positive quantity, in input order. */
  function ConSaldoPositivo(items: seq<InventarioCosto>): (r: seq<InventarioCosto>)
    ensures |r| <= |items|
    ensures forall k :: 0 <= k < |r| ==> ConSaldo(r[k]) && r[k] in items
    ensures TodosConSaldo(r)
  {
    if items == [] then []
    else if ConSaldo(items[0]) then [items[0]] + ConSaldoPositivo(items[1..])
    else ConSaldoPositivo(items[1..])
  }

  /** Each of a sequence of items with a positive quantity, valued. */
  function ValorizarTodos(items: seq<InventarioCosto>, precios: map<int, real>): (r: seq<ResumenSaldo>)
    requires TodosConSaldo(items)
    ensures |r| == |items|
    ensures forall k :: 0 <= k < |items| ==> r[k] == Valorizar(items[k], precios)
  {
    if items == [] then [] else [Valorizar(items[0], precios)] + ValorizarTodos(items[1..], precios)
  }

  // ---------------------------------------------------------------------
  // The loop
  // ---------------------------------------------------------------------

  /** `obtenerSaldosValorizados`: an empty inventory gives an empty list;
      otherwise every item with a positive quantity is valued, in order. */
  method ObtenerSaldosValorizados(inventario: seq<InventarioCosto>, precios: map<int, real>)
    returns (resultados: seq<ResumenSaldo>)
    ensures resultados == Valorizados(inventario, precios)
  {
    if inventario == [] {
      return [];
    }
    resultados := [];
    var i := 0;
    while i < |inventario|
      invariant 0 <= i <= |inventario|
      invariant resultados == Valorizados(inventario[..i], precios)
    {
      var item := inventario[i];
      assert inventario[..i + 1][..i] == inventario[..i];
      if item.saldoCantidadFinal.Some? && item.saldoCantidadFinal.value > 0.0 {
        resultados := resultados + [Valorizar(item, precios)];
      }
      i := i + 1;
    }
    assert inventario[..i] == inventario;
  }

  // ---------------------------------------------------------------------
  // What the valuation means
  // ---------------------------------------------------------------------

  lemma {:induction false} ValorizadosSnoc(a: seq<InventarioCosto>, x: InventarioCosto, precios: map<int, real>)
    ensures Valorizados(a + [x], precios)
         == Valorizados(a, precios) + (if ConSaldo(x) then [Valorizar(x, precios)] else [])
  {
    assert (a + [x])[..|a + [x]| - 1] == a;
  }

  lemma {:induction false} ConSaldoPositivoSnoc(a: seq<InventarioCosto>, x: InventarioCosto)
    ensures ConSaldoPositivo(a + [x]) == ConSaldoPositivo(a) + (if ConSaldo(x) then [x] else [])
  {
    if a == [] {
      assert ConSaldoPositivo([x]) == (if ConSaldo(x) then [x] else []) + ConSaldoPositivo([]);
      assert [] + [x] == [x];
    } else {
      ConSaldoPositivoSnoc(a[1..], x);
      assert (a + [x])[1..] == a[1..] + [x];
      assert (a + [x])[0] == a[0];
    }
  }

  lemma TodosConSaldoAppend(a: seq<InventarioCosto>, b: seq<InventarioCosto>)
    requires TodosConSaldo(a) && TodosConSaldo(b)
    ensures TodosConSaldo(a + b)
  {
    forall k | 0 <= k < |a + b| ensures ConSaldo((a + b)[k]) {
      if k < |a| { assert (a + b)[k] == a[k]; } else { assert (a + b)[k] == b[k - |a|]; }
    }
  }

  lemma ValorizarTodosAppend(a: seq<InventarioCosto>, b: seq<InventarioCosto>, precios: map<int, real>)
    requires TodosConSaldo(a) && TodosConSaldo(b)
    ensures TodosConSaldo(a + b)
    ensures ValorizarTodos(a + b, precios) == ValorizarTodos(a, precios) + ValorizarTodos(b, precios)
  {
    TodosConSaldoAppend(a, b);
    var l := ValorizarTodos(a + b, precios);
    var r := ValorizarTodos(a, precios) + ValorizarTodos(b, precios);
    forall k | 0 <= k < |l| ensures l[k] == r[k] {
      if k < |a| {
        assert (a + b)[k] == a[k];
      } else {
        assert (a + b)[k] == b[k - |a|];
      }
    }
  }

  /** The result is exactly the items with a positive quantity, kept in
      input order, each valued: the loop filters and never reorders. */
  lemma {:induction false} ValorizadosFiltra(items: seq<InventarioCosto>, precios: map<int, real>)
    ensures Valorizados(items, precios) == ValorizarTodos(ConSaldoPositivo(items), precios)
  {
    if items != [] {
      var a := items[..|items| - 1];
      var x := items[|items| - 1];
      assert items == a + [x];
      ValorizadosFiltra(a, precios);
      ConSaldoPositivoSnoc(a, x);
      var extra := if ConSaldo(x) then [x] else [];
      ValorizarTodosAppend(ConSaldoPositivo(a), extra, precios);
      assert ValorizarTodos(extra, precios) == (if ConSaldo(x) then [Valorizar(x, precios)] else []);
    }
  }

  /** One valued position: a positive quantity, the price from the map or
      0 when it has none, market value = quantity × price, the unit cost
      within half a unit of the fourth decimal of cost / quantity, and an
      unrealised result of 0 without a price and of value − cost with one. */
  lemma ValorizarFila(item: InventarioCosto, precios: map<int, real>)
    requires ConSaldo(item)
    ensures var r := Valorizar(item, precios);
      r.instrumentoId == item.instrumentoId
      && r.saldoCantidad > 0.0 && Some(r.saldoCantidad) == item.saldoCantidadFinal
      && r.costoTotal == item.costoTotalFifo
      && (item.instrumentoId !in precios ==> r.precioMercado == 0.0)
      && (item.instrumentoId in precios ==> r.precioMercado == precios[item.instrumentoId])
      && r.valorMercado == r.saldoCantidad * r.precioMercado
      && -0.00005 <= r.costoUnitario - r.costoTotal / r.saldoCantidad <= 0.00005
      && (r.precioMercado == 0.0 ==> r.utilidadNoRealizada == 0.0)
      && (r.precioMercado != 0.0 ==> r.utilidadNoRealizada + r.costoTotal == r.valorMercado)
  {
    var q := item.saldoCantidadFinal.value;
    assert Pow10(ESCALA_COSTO_UNITARIO) == 10000;
    RoundToBound(item.costoTotalFifo / q, 10000);
  }

  /** Every position returned has a positive quantity and comes from an
      inventory item; there is one per item with a positive quantity. */
  lemma ValorizadosPositivos(items: seq<InventarioCosto>, precios: map<int, real>)
    ensures var r := Valorizados(items, precios);
      |r| == |ConSaldoPositivo(items)|
      && forall k :: 0 <= k < |r| ==>
           (r[k].saldoCantidad > 0.0
            && exists j :: 0 <= j < |items| && ConSaldo(items[j]) && r[k] == Valorizar(items[j], precios))
  {
    ValorizadosFiltra(items, precios);
    var f := ConSaldoPositivo(items);
    var r := Valorizados(items, precios);
    forall k | 0 <= k < |r|
      ensures r[k].saldoCantidad > 0.0
      ensures exists j :: 0 <= j < |items| && ConSaldo(items[j]) && r[k] == Valorizar(items[j], precios)
    {
      assert r[k] == Valorizar(f[k], precios);
      var j :| 0 <= j < |items| && items[j] == f[k];
    }
  }
}
