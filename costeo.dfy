/** The entities the FIFO costing engine reads and writes: transactions,
    kardex records, the lots of the FIFO queue and the costing details,
    with `BigDecimal` amounts as `real`s and dates as day numbers
    (`plusDays(1)` is `+ 1`). */
module Costeo {
  import opened Wrappers
  import opened Text

  /** `TipoEnumsCosteo`: how a movement type affects the inventory. */
  datatype TipoContable = Ingreso | Egreso | NoCostear

  /** A movement type: its name, its accounting kind, and whether it opens
      a history (`esSaldoInicial`). */
  datatype TipoMovimiento = TipoMovimiento(nombre: string, contable: TipoContable, esSaldoInicial: bool)

  /** `TransaccionEntity`, restricted to what the engine uses. `id` is
      absent until the entity is persisted; `precio` is nullable. */
  datatype Tx = Tx(
    id: Option<int>, empresaId: int, cuenta: string, custodioId: int, instrumentoId: int,
    fecha: int, folio: Option<string>, tipo: TipoMovimiento,
    cantidad: real, precio: Option<real>,
    costeado: bool, paraRevision: bool)

  /** `KardexEntity`. The date, folio, company, account, custodian and
      instrument a kardex record carries are those of `tx`. */
  datatype Kardex = Kardex(
    tx: Tx, clave: string, tipo: TipoContable,
    cantidad: real, costoUnitario: real, costoTotal: real,
    saldoCantidad: real, saldoValor: real,
    cantidadDisponible: Option<real>)

  /** `IngresoDisponible`: a lot of the FIFO queue, the ingreso kardex it
      comes from and the quantity still available in it. */
  datatype Lot = Lot(kardex: Kardex, disponible: real)

  /** `new IngresoDisponible(k)`: the lot starts with the kardex's
      available quantity. */
  function Disponible(k: Kardex): (l: Lot)
    requires k.cantidadDisponible.Some?
    ensures l.kardex == k && l.disponible == k.cantidadDisponible.value
  {
    Lot(k, k.cantidadDisponible.value)
  }

  /** `DetalleCosteoEntity`: which ingreso an egreso consumed, how much and
      at what cost. */
  datatype Detalle = Detalle(ingreso: Tx, egreso: Tx, cantidadUsada: real, costoParcial: real, clave: string)

  /** The exceptions the handlers throw. */
  datatype Falla =
    | SaldoInsuficiente   // InsufficientBalanceException, shortfall above tolerance
    | ColaVacia           // InsufficientBalanceException, queue exhausted
    | SinTipoAjuste       // IllegalStateException, no AJUSTE_AUTO_TOLERANCIA type
    | PrecioNulo          // NullPointerException on a null price

  /** The group key "empresaId|cuenta|custodioId|instrumentoId" of a
      transaction, built the same way by the engine's grouping and by the
      tolerance adjustment. */
  function Clave(tx: Tx): string {
    IntToString(tx.empresaId) + "|" + tx.cuenta + "|" + IntToString(tx.custodioId) + "|" + IntToString(tx.instrumentoId)
  }

  /** `cantidad.multiply(precio)`: the cost of a quantity at a unit price. */
  function Monto(cantidad: real, precio: real): real {
    cantidad * precio
  }

  /** The quantity still available in the queue. */
  function SumDisponible(lotes: seq<Lot>): real {
    if lotes == [] then 0.0 else lotes[0].disponible + SumDisponible(lotes[1..])
  }

  /** The cost of what is still available in the queue, at each lot's
      unit cost. */
  function SumValor(lotes: seq<Lot>): real {
    if lotes == [] then 0.0
    else Monto(lotes[0].disponible, lotes[0].kardex.costoUnitario) + SumValor(lotes[1..])
  }

  lemma {:induction false} SumAppend(a: seq<Lot>, l: Lot)
    ensures SumDisponible(a + [l]) == SumDisponible(a) + l.disponible
    ensures SumValor(a + [l]) == SumValor(a) + Monto(l.disponible, l.kardex.costoUnitario)
  {
    if a != [] {
      SumAppend(a[1..], l);
      assert (a + [l])[1..] == a[1..] + [l];
    }
  }

  /** The state a group processor threads through its transactions: the
      running balance, the FIFO queue, and what has been persisted. */
  datatype Estado = Estado(
    cantidad: real, valor: real, lotes: seq<Lot>,
    kardex: seq<Kardex>, detalles: seq<Detalle>, ajustes: seq<Tx>)

  /** The queue accounts for the balance: its lots add up to the balance
      quantity, and their remaining cost to the balance value. */
  predicate Cuadra(e: Estado) {
    SumDisponible(e.lotes) == e.cantidad && SumValor(e.lotes) == e.valor
  }

  /** Every lot of the queue still holds a positive quantity. */
  predicate LotesPositivos(lotes: seq<Lot>) {
    forall i :: 0 <= i < |lotes| ==> lotes[i].disponible > 0.0
  }

  /** What a handler leaves behind: the new state and, when it threw, the
      exception. After an exception the balance is the one before the
      call, while the queue and the persisted records keep whatever the
      handler had already done. */
  datatype Paso = Paso(estado: Estado, falla: Option<Falla>)

  /** The FIFO queue the group processor owns and lends to the handlers. */
  class ColaFifo {
    var lotes: seq<Lot>

    constructor ()
      ensures lotes == []
    {
      lotes := [];
    }

    /** `queue.add(lot)`. */
    method Add(l: Lot)
      modifies this
      ensures lotes == old(lotes) + [l]
    {
      lotes := lotes + [l];
    }

    /** The head lot's available quantity set to `d` in place. */
    method SetHeadDisponible(d: real)
      requires lotes != []
      modifies this
      ensures lotes == [old(lotes[0]).(disponible := d)] + old(lotes[1..])
    {
      lotes := [lotes[0].(disponible := d)] + lotes[1..];
    }

    /** `queue.poll()` on a non-empty queue. */
    method Poll()
      requires lotes != []
      modifies this
      ensures lotes == old(lotes[1..])
    {
      lotes := lotes[1..];
    }
  }

  /** What the `EntityManager` has been asked to persist, in call order. */
  class Libro {
    var kardex: seq<Kardex>
    var detalles: seq<Detalle>
    var ajustes: seq<Tx>

    constructor ()
      ensures kardex == [] && detalles == [] && ajustes == []
    {
      kardex := [];
      detalles := [];
      ajustes := [];
    }

    method PersistKardex(k: Kardex)
      modifies this
      ensures kardex == old(kardex) + [k] && detalles == old(detalles) && ajustes == old(ajustes)
    {
      kardex := kardex + [k];
    }

    method PersistDetalle(d: Detalle)
      modifies this
      ensures detalles == old(detalles) + [d] && kardex == old(kardex) && ajustes == old(ajustes)
    {
      detalles := detalles + [d];
    }

    method PersistAjuste(t: Tx)
      modifies this
      ensures ajustes == old(ajustes) + [t] && kardex == old(kardex) && detalles == old(detalles)
    {
      ajustes := ajustes + [t];
    }
  }
}
