/** `KardexFactory`: the kardex record of an ingreso and of one partial
    consumption of an egreso. */
module KardexFactory {
  import opened Wrappers
  import opened Decimal
  import opened Costeo

  /** `ROUNDING_SCALE`: egreso unit costs keep six decimals. */
  const ROUNDING_SCALE: nat := 6

  /** `createFromIngreso`: the price is the unit cost, the whole quantity
      is available, and the balances and key are copied. Java multiplies
      the quantity by a null price with a NullPointerException, so callers
      must supply a price. */
  function CreateFromIngreso(tx: Tx, saldoQty: real, saldoVal: real, clave: string): (k: Kardex)
    requires tx.precio.Some?
    ensures k.tx == tx && k.clave == clave && k.tipo == Ingreso
    ensures k.cantidad == tx.cantidad && k.costoUnitario == tx.precio.value
    ensures k.costoTotal == Monto(k.cantidad, k.costoUnitario)
    ensures k.cantidadDisponible == Some(k.cantidad)
    ensures k.saldoCantidad == saldoQty && k.saldoValor == saldoVal
  {
    var costoUnitario := tx.precio.value;
    Kardex(tx, clave, Ingreso, tx.cantidad, costoUnitario, Monto(tx.cantidad, costoUnitario),
           saldoQty, saldoVal, Some(tx.cantidad))
  }

  /** The unit cost of a partial egreso: the partial cost over the quantity
      used, rounded HALF_UP to six decimals, and 0 for a zero quantity. */
  function CostoUnitarioEgreso(cantidadUsada: real, costoParcial: real): real {
    if cantidadUsada != 0.0 then Divide(costoParcial, cantidadUsada, ROUNDING_SCALE) else 0.0
  }

  /** `createFromEgreso`: the quantity used and its cost, nothing left
      available, and the balances and key copied. */
  function CreateFromEgreso(tx: Tx, cantidadUsada: real, costoParcial: real, saldoQty: real, saldoVal: real, clave: string): (k: Kardex)
    ensures k.tx == tx && k.clave == clave && k.tipo == Egreso
    ensures k.cantidad == cantidadUsada && k.costoTotal == costoParcial
    ensures k.cantidadDisponible == None
    ensures k.saldoCantidad == saldoQty && k.saldoValor == saldoVal
    ensures cantidadUsada == 0.0 ==> k.costoUnitario == 0.0
  {
    Kardex(tx, clave, Egreso, cantidadUsada, CostoUnitarioEgreso(cantidadUsada, costoParcial),
           costoParcial, saldoQty, saldoVal, None)
  }

  /** The egreso kardex's unit cost is within half a millionth of the
      partial cost per unit used. */
  lemma EgresoUnitCostBound(tx: Tx, cantidadUsada: real, costoParcial: real, saldoQty: real, saldoVal: real, clave: string)
    requires cantidadUsada != 0.0
    ensures var k := CreateFromEgreso(tx, cantidadUsada, costoParcial, saldoQty, saldoVal, clave);
      -0.0000005 <= k.costoUnitario - costoParcial / cantidadUsada <= 0.0000005
  {
    assert Pow10(ROUNDING_SCALE) == 1000000;
    RoundToBound(costoParcial / cantidadUsada, 1000000);
  }

  /** A partial egreso that consumed a lot whose unit cost has at most six
      decimals records exactly that unit cost. */
  lemma EgresoUnitCostOfLot(tx: Tx, cantidadUsada: real, c: real, n: int, saldoQty: real, saldoVal: real, clave: string)
    requires cantidadUsada != 0.0 && c * 1000000.0 == n as real
    ensures CreateFromEgreso(tx, cantidadUsada, cantidadUsada * c, saldoQty, saldoVal, clave).costoUnitario == c
  {
    var z := cantidadUsada * c / cantidadUsada;
    assert z == c;
    assert c == n as real / 1000000 as real;
    assert CostoUnitarioEgreso(cantidadUsada, cantidadUsada * c) == RoundHalfUp(z, ROUNDING_SCALE);
    assert RoundHalfUp(z, ROUNDING_SCALE) == RoundTo(z, Pow10(ROUNDING_SCALE));
    assert Pow10(ROUNDING_SCALE) == 1000000;
    RoundToMultiple(z, n, 1000000);
    assert CreateFromEgreso(tx, cantidadUsada, cantidadUsada * c, saldoQty, saldoVal, clave).costoUnitario
        == CostoUnitarioEgreso(cantidadUsada, cantidadUsada * c);
  }
}
