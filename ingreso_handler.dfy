/** `IngresoHandler`: a purchase raises the balance, is recorded in the
    kardex, and becomes a new lot at the tail of the FIFO queue. */
module IngresoHandler {
  import opened Wrappers
  import opened Costeo
  import opened KardexFactory

  /** The balance after an ingreso, quantity and value. */
  datatype IngresoResult = IngresoResult(nuevoSaldoCantidad: real, nuevoSaldoValor: real)

  /** An ingreso on the state `e`. A null price throws before anything is
      persisted or queued. */
  function Ingresar(e: Estado, tx: Tx, clave: string): (p: Paso)
    ensures tx.precio.None? ==> p == Paso(e, Some(PrecioNulo))
    ensures tx.precio.Some? ==> p.falla.None?
  {
    if tx.precio.None? then Paso(e, Some(PrecioNulo))
    else
      var newQty := e.cantidad + tx.cantidad;
      var newVal := e.valor + Monto(tx.cantidad, tx.precio.value);
      var k := CreateFromIngreso(tx, newQty, newVal, clave);
      Paso(Estado(newQty, newVal, e.lotes + [Disponible(k)], e.kardex + [k], e.detalles, e.ajustes), None)
  }

  /** An ingreso adds its quantity and its quantity times its price to the
      balance, appends exactly one lot holding its whole quantity at its
      price, and leaves the lots already queued as they were. */
  lemma IngresarEffect(e: Estado, tx: Tx, clave: string)
    requires tx.precio.Some?
    ensures var s := Ingresar(e, tx, clave).estado;
      s.cantidad == e.cantidad + tx.cantidad
      && s.valor == e.valor + Monto(tx.cantidad, tx.precio.value)
      && |s.lotes| == |e.lotes| + 1 && s.lotes[..|e.lotes|] == e.lotes
      && s.lotes[|e.lotes|].disponible == tx.cantidad
      && s.lotes[|e.lotes|].kardex.costoUnitario == tx.precio.value
      && s.kardex == e.kardex + [s.lotes[|e.lotes|].kardex]
  {
    var s := Ingresar(e, tx, clave).estado;
    assert s.lotes[..|e.lotes|] == e.lotes;
  }

  /** An ingreso keeps the queue accounting for the balance. */
  lemma IngresarCuadra(e: Estado, tx: Tx, clave: string)
    requires Cuadra(e)
    ensures Cuadra(Ingresar(e, tx, clave).estado)
  {
    if tx.precio.Some? {
      var k := CreateFromIngreso(tx, e.cantidad + tx.cantidad, e.valor + Monto(tx.cantidad, tx.precio.value), clave);
      SumAppend(e.lotes, Disponible(k));
    }
  }

  /** `handle`: updates the queue and the persisted records in place and
      returns the new balance, or the exception. */
  method Handle(tx: Tx, cola: ColaFifo, libro: Libro, currentQty: real, currentVal: real, clave: string)
    returns (r: Result<IngresoResult, Falla>)
    modifies cola, libro
    ensures var p := Ingresar(Estado(currentQty, currentVal, old(cola.lotes), old(libro.kardex), old(libro.detalles), old(libro.ajustes)), tx, clave);
      cola.lotes == p.estado.lotes && libro.kardex == p.estado.kardex
      && libro.detalles == p.estado.detalles && libro.ajustes == p.estado.ajustes
      && (if p.falla.None? then r == Ok(IngresoResult(p.estado.cantidad, p.estado.valor)) else r == Err(p.falla.value))
  {
    if tx.precio.None? {
      return Err(PrecioNulo);
    }
    var newQty := currentQty + tx.cantidad;
    var newVal := currentVal + Monto(tx.cantidad, tx.precio.value);
    var kardex := CreateFromIngreso(tx, newQty, newVal, clave);
    libro.PersistKardex(kardex);
    cola.Add(Disponible(kardex));
    r := Ok(IngresoResult(newQty, newVal));
  }
}
