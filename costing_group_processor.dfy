/** `CostingGroupProcessor`: costs the transactions of one group in order,
    threading the balance and the FIFO queue through the ingreso and egreso
    handlers. Once a transaction fails, it and every later one are left
    for revision, and only a group with no failure gets its daily balances
    rewritten. The repositories are abstracted as the answers they give
    (`Consultas`). */
module CostingGroupProcessor {
  import opened Wrappers
  import opened Costeo
  import IngresoHandler
  import EgresoHandler

  /** A quantity and value pair: an opening balance or a daily balance. */
  datatype Saldo = Saldo(cantidad: real, valor: real)

  /** `SaldoKardexEntity`: the group's current balance and the date of the
      transaction that last changed it. */
  datatype SaldoKardex = SaldoKardex(
    empresaId: int, custodioId: int, instrumentoId: int, cuenta: string,
    saldoCantidad: real, costoTotal: real, fechaUltimaActualizacion: int)

  /** A kardex row as the repositories return it, with its id. */
  datatype KardexGuardado = KardexGuardado(id: int, kardex: Kardex)

  /** What the repositories answer for one group. */
  datatype Consultas = Consultas(
    ultimoKardex: Option<Kardex>,          // findLastByGroupBeforeDate
    kardexGuardados: seq<KardexGuardado>,  // the kardex table the historic-lots query reads
    saldoGuardado: Option<SaldoKardex>,    // findByGrupo
    saldoPrevio: Option<Saldo>,            // findLastBeforeDate
    movimientos: seq<KardexGuardado>,      // findByGroupAndDateRange
    tipoAjuste: Option<TipoMovimiento>)    // the AJUSTE_AUTO_TOLERANCIA movement type

  // ---------------------------------------------------------------------
  // Costing the transactions
  // ---------------------------------------------------------------------

  /** One transaction through the handler its movement type selects; a
      type that is neither ingreso nor egreso changes nothing. */
  function Costear(e: Estado, tx: Tx, clave: string, tipoAjuste: Option<TipoMovimiento>): (p: Paso)
    ensures p.falla.Some? ==> p.estado.cantidad == e.cantidad && p.estado.valor == e.valor
    ensures tx.tipo.contable == NoCostear ==> p == Paso(e, None)
  {
    match tx.tipo.contable
    case Ingreso => IngresoHandler.Ingresar(e, tx, clave)
    case Egreso => EgresoHandler.Egresar(e, tx, clave, tipoAjuste)
    case NoCostear => Paso(e, None)
  }

  /** The outcome of the main loop: the final state, how many transactions
      were costed, and whether one failed. */
  datatype Corrida = Corrida(estado: Estado, costeadas: nat, fallo: bool)

  /** The main loop of `process` on the state `e`: transactions are costed
      in order until the first one that fails. */
  function Procesar(e: Estado, txs: seq<Tx>, clave: string, tipoAjuste: Option<TipoMovimiento>): (r: Corrida)
    ensures r.costeadas <= |txs|
    ensures !r.fallo ==> r.costeadas == |txs|
    decreases |txs|
  {
    if txs == [] then Corrida(e, 0, false)
    else
      var p := Costear(e, txs[0], clave, tipoAjuste);
      if p.falla.Some? then Corrida(p.estado, 0, true)
      else
        var r := Procesar(p.estado, txs[1..], clave, tipoAjuste);
        r.(costeadas := r.costeadas + 1)
  }

  /** One more transaction: nothing happens after a failure; otherwise it
      is costed on the state the earlier ones left. */
  lemma {:induction false} ProcesarSnoc(e: Estado, txs: seq<Tx>, t: Tx, clave: string, tipoAjuste: Option<TipoMovimiento>)
    ensures var r := Procesar(e, txs, clave, tipoAjuste);
      var p := Costear(r.estado, t, clave, tipoAjuste);
      Procesar(e, txs + [t], clave, tipoAjuste) ==
        if r.fallo then r
        else if p.falla.Some? then Corrida(p.estado, r.costeadas, true)
        else Corrida(p.estado, r.costeadas + 1, false)
    decreases |txs|
  {
    if txs == [] {
      assert [t][1..] == [];
    } else {
      assert (txs + [t])[0] == txs[0];
      assert (txs + [t])[1..] == txs[1..] + [t];
      ProcesarSnoc(Costear(e, txs[0], clave, tipoAjuste).estado, txs[1..], t, clave, tipoAjuste);
    }
  }

  /** `Procesar` on a non-empty sequence, by its first transaction. */
  lemma PrefijoCons(e: Estado, t: Tx, txs: seq<Tx>, clave: string, tipoAjuste: Option<TipoMovimiento>)
    ensures var p := Costear(e, t, clave, tipoAjuste);
      var r := Procesar(p.estado, txs, clave, tipoAjuste);
      Procesar(e, [t] + txs, clave, tipoAjuste)
        == if p.falla.Some? then Corrida(p.estado, 0, true) else r.(costeadas := r.costeadas + 1)
  {
    assert ([t] + txs)[0] == t && ([t] + txs)[1..] == txs;
  }

  /** The costed transactions are a prefix, all of them succeed, and when
      the run failed it was the very next transaction that failed, on the
      state the prefix left. */
  lemma {:induction false} ProcesarFalla(e: Estado, txs: seq<Tx>, clave: string, tipoAjuste: Option<TipoMovimiento>)
    ensures var r := Procesar(e, txs, clave, tipoAjuste);
      var antes := Procesar(e, txs[..r.costeadas], clave, tipoAjuste);
      !antes.fallo && antes.costeadas == r.costeadas
      && (r.fallo ==> r.costeadas < |txs|
                      && Costear(antes.estado, txs[r.costeadas], clave, tipoAjuste).falla.Some?
                      && Costear(antes.estado, txs[r.costeadas], clave, tipoAjuste).estado == r.estado)
      && (!r.fallo ==> antes.estado == r.estado)
    decreases |txs|
  {
    var r := Procesar(e, txs, clave, tipoAjuste);
    if txs == [] {
    } else {
      var p := Costear(e, txs[0], clave, tipoAjuste);
      if p.falla.Some? {
        assert txs[..0] == [];
      } else {
        var resto := txs[1..];
        var r' := Procesar(p.estado, resto, clave, tipoAjuste);
        ProcesarFalla(p.estado, resto, clave, tipoAjuste);
        var k := r.costeadas;
        assert r == r'.(costeadas := r'.costeadas + 1);
        var pre := txs[..k];
        assert pre == [txs[0]] + resto[..r'.costeadas];
        PrefijoCons(e, txs[0], resto[..r'.costeadas], clave, tipoAjuste);
        var antes' := Procesar(p.estado, resto[..r'.costeadas], clave, tipoAjuste);
        assert Procesar(e, pre, clave, tipoAjuste) == antes'.(costeadas := antes'.costeadas + 1);
        if r.fallo {
          assert txs[k] == resto[r'.costeadas];
        }
      }
    }
  }

  /** A run that does not fail keeps the queue accounting for the balance,
      as long as no transaction has a negative quantity. */
  lemma {:induction false} ProcesarCuadra(e: Estado, txs: seq<Tx>, clave: string, tipoAjuste: Option<TipoMovimiento>)
    requires Cuadra(e)
    requires forall i :: 0 <= i < |txs| ==> txs[i].cantidad >= 0.0
    ensures !Procesar(e, txs, clave, tipoAjuste).fallo ==> Cuadra(Procesar(e, txs, clave, tipoAjuste).estado)
    decreases |txs|
  {
    if txs != [] {
      var p := Costear(e, txs[0], clave, tipoAjuste);
      if p.falla.None? {
        match txs[0].tipo.contable {
          case Ingreso => IngresoHandler.IngresarCuadra(e, txs[0], clave);
          case Egreso => EgresoHandler.EgresarCuadra(e, txs[0], clave, tipoAjuste);
          case NoCostear =>
        }
        ProcesarCuadra(p.estado, txs[1..], clave, tipoAjuste);
      }
    }
  }

  // ---------------------------------------------------------------------
  // Marks
  // ---------------------------------------------------------------------

  /** `markTransactionAsCosted` (`costeada`) or `markTransactionForRevision`
      (not `costeada`): the two flags set, nothing else touched. */
  function Marca(tx: Tx, costeada: bool): Tx {
    tx.(costeado := costeada, paraRevision := !costeada)
  }

  /** The first `k` transactions marked costed, the rest for revision. */
  function Marcadas(txs: seq<Tx>, k: nat): seq<Tx> {
    seq(|txs|, i requires 0 <= i < |txs| => Marca(txs[i], i < k))
  }

  /** After `process`, a transaction is costed exactly when it comes before
      the first failure, and marked for revision exactly when it does not;
      each keeps everything but its two flags. */
  lemma MarcadasFlags(txs: seq<Tx>, k: nat, i: int)
    requires 0 <= i < |txs|
    ensures var t := Marcadas(txs, k)[i];
      (t.costeado <==> i < k) && (t.paraRevision <==> k <= i)
      && t.(costeado := txs[i].costeado, paraRevision := txs[i].paraRevision) == txs[i]
  {
  }

  // ---------------------------------------------------------------------
  // Opening balance and FIFO queue
  // ---------------------------------------------------------------------

  /** The balance costing starts from: zero when the group's first
      transaction opens its history, otherwise the balance of the last
      kardex record before that transaction's date, or zero if there is
      none. */
  function SaldoInicial(primera: Tx, ultimoKardex: Option<Kardex>): Saldo {
    if primera.tipo.esSaldoInicial || ultimoKardex.None? then Saldo(0.0, 0.0)
    else Saldo(ultimoKardex.value.saldoCantidad, ultimoKardex.value.saldoValor)
  }

  /** The WHERE clause of the historic-lots query: an ingreso record of the
      group, dated before `hasta`, with a positive available quantity. */
  predicate Seleccionado(r: KardexGuardado, clave: string, hasta: int) {
    r.kardex.clave == clave && r.kardex.tipo == Ingreso
    && r.kardex.cantidadDisponible.Some? && r.kardex.cantidadDisponible.value > 0.0
    && r.kardex.tx.fecha < hasta
  }

  /** The rows the historic-lots query selects from the kardex table. */
  function Consulta(tabla: seq<KardexGuardado>, clave: string, hasta: int): (r: seq<KardexGuardado>)
    ensures forall x :: x in r <==> x in tabla && Seleccionado(x, clave, hasta)
  {
    if tabla == [] then []
    else (if Seleccionado(tabla[0], clave, hasta) then [tabla[0]] else []) + Consulta(tabla[1..], clave, hasta)
  }

  /** The comparator `comparing(fechaTransaccion).thenComparing(id)`. */
  predicate NoDespues(a: KardexGuardado, b: KardexGuardado) {
    a.kardex.tx.fecha < b.kardex.tx.fecha || (a.kardex.tx.fecha == b.kardex.tx.fecha && a.id <= b.id)
  }

  predicate Ordenada(s: seq<KardexGuardado>) {
    forall i, j :: 0 <= i < j < |s| ==> NoDespues(s[i], s[j])
  }

  /** `x` inserted into `s` before the first row it does not come after. */
  function Insertar(x: KardexGuardado, s: seq<KardexGuardado>): (r: seq<KardexGuardado>)
    ensures multiset(r) == multiset{x} + multiset(s)
  {
    if s == [] then [x]
    else if NoDespues(x, s[0]) then [x] + s
    else
      assert s == [s[0]] + s[1..];
      [s[0]] + Insertar(x, s[1..])
  }

  /** A row that comes before every row of a sorted sequence can head it. */
  lemma OrdenadaCons(x: KardexGuardado, s: seq<KardexGuardado>)
    requires Ordenada(s) && forall k :: 0 <= k < |s| ==> NoDespues(x, s[k])
    ensures Ordenada([x] + s)
  {
    var r := [x] + s;
    forall i, j | 0 <= i < j < |r| ensures NoDespues(r[i], r[j]) {
      assert r[j] == s[j - 1];
      if i > 0 {
        assert r[i] == s[i - 1];
      }
    }
  }

  lemma {:induction false} InsertarOrdenada(x: KardexGuardado, s: seq<KardexGuardado>)
    requires Ordenada(s)
    ensures Ordenada(Insertar(x, s))
  {
    if s == [] {
      assert Insertar(x, s) == [x];
    } else if NoDespues(x, s[0]) {
      OrdenadaCons(x, s);
    } else {
      var t := Insertar(x, s[1..]);
      InsertarOrdenada(x, s[1..]);
      forall k | 0 <= k < |t| ensures NoDespues(s[0], t[k]) {
        assert t[k] in multiset(t);
        if t[k] != x {
          assert t[k] in multiset(s[1..]);
          var j :| 0 <= j < |s[1..]| && s[1..][j] == t[k];
          assert s[1 + j] == t[k];
        }
      }
      OrdenadaCons(s[0], t);
    }
  }

  /** `sorted(...)`: the rows in comparator order. */
  function Ordenar(s: seq<KardexGuardado>): (r: seq<KardexGuardado>)
    ensures multiset(r) == multiset(s)
  {
    if s == [] then []
    else
      assert s == [s[0]] + s[1..];
      Insertar(s[0], Ordenar(s[1..]))
  }

  /** `sorted` returns a permutation of its input in comparator order. */
  lemma {:induction false} OrdenarOrdenada(s: seq<KardexGuardado>)
    ensures Ordenada(Ordenar(s)) && multiset(Ordenar(s)) == multiset(s)
  {
    if s != [] {
      OrdenarOrdenada(s[1..]);
      InsertarOrdenada(s[0], Ordenar(s[1..]));
    }
  }

  predicate ConDisponible(s: seq<KardexGuardado>) {
    forall i :: 0 <= i < |s| ==> s[i].kardex.cantidadDisponible.Some?
  }

  /** The historic lots in the order they are queued: exactly the
      selected rows, oldest first by (date, id). */
  function ColaHistorica(tabla: seq<KardexGuardado>, clave: string, hasta: int): (c: seq<KardexGuardado>)
    ensures Ordenada(c) && ConDisponible(c)
    ensures forall x :: x in c <==> x in tabla && Seleccionado(x, clave, hasta)
  {
    var sel := Consulta(tabla, clave, hasta);
    var c := Ordenar(sel);
    OrdenarOrdenada(sel);
    Seleccionados(c, sel, tabla, clave, hasta);
    c
  }

  /** A permutation of the selected rows holds exactly the selected rows,
      each with an available quantity. */
  lemma Seleccionados(c: seq<KardexGuardado>, sel: seq<KardexGuardado>, tabla: seq<KardexGuardado>, clave: string, hasta: int)
    requires multiset(c) == multiset(sel)
    requires forall x :: x in sel <==> x in tabla && Seleccionado(x, clave, hasta)
    ensures ConDisponible(c)
    ensures forall x :: x in c <==> x in tabla && Seleccionado(x, clave, hasta)
  {
    assert forall x :: x in c <==> x in multiset(c);
    assert forall x :: x in sel <==> x in multiset(sel);
    assert forall i :: 0 <= i < |c| ==> c[i] in c;
  }

  /** `new IngresoDisponible(k)` for each row, in order. */
  function Lotes(s: seq<KardexGuardado>): (r: seq<Lot>)
    requires ConDisponible(s)
    ensures |r| == |s|
    ensures forall i :: 0 <= i < |s| ==> r[i] == Disponible(s[i].kardex)
  {
    if s == [] then [] else [Disponible(s[0].kardex)] + Lotes(s[1..])
  }

  // ---------------------------------------------------------------------
  // Daily balances
  // ---------------------------------------------------------------------

  /** The earliest transaction date of the group. */
  function MinFecha(txs: seq<Tx>): (m: int)
    requires txs != []
    ensures exists i :: 0 <= i < |txs| && txs[i].fecha == m
    ensures forall i :: 0 <= i < |txs| ==> m <= txs[i].fecha
  {
    if |txs| == 1 then txs[0].fecha
    else
      var r := MinFecha(txs[1..]);
      assert forall i :: 1 <= i < |txs| ==> txs[i] == txs[1..][i - 1];
      if txs[0].fecha <= r then txs[0].fecha else r
  }

  /** The latest transaction date of the group. */
  function MaxFecha(txs: seq<Tx>): (m: int)
    requires txs != []
    ensures exists i :: 0 <= i < |txs| && txs[i].fecha == m
    ensures forall i :: 0 <= i < |txs| ==> txs[i].fecha <= m
  {
    if |txs| == 1 then txs[0].fecha
    else
      var r := MaxFecha(txs[1..]);
      assert forall i :: 1 <= i < |txs| ==> txs[i] == txs[1..][i - 1];
      if txs[0].fecha >= r then txs[0].fecha else r
  }

  /** Marking does not move a transaction's date, so the date range is the
      one of the transactions as fetched. */
  lemma FechasMarcadas(txs: seq<Tx>, k: nat)
    requires txs != []
    ensures MinFecha(Marcadas(txs, k)) == MinFecha(txs) && MaxFecha(Marcadas(txs, k)) == MaxFecha(txs)
  {
    var m := Marcadas(txs, k);
    assert forall i :: 0 <= i < |txs| ==> m[i].fecha == txs[i].fecha;
  }

  /** The movement that closes day `dia`: among the movements of that day,
      the one with the highest id (the earliest of equal ids, as
      `Stream.max` keeps). */
  function UltimoDelDia(movs: seq<KardexGuardado>, dia: int): (r: Option<KardexGuardado>)
    ensures r.Some? ==> r.value in movs && r.value.kardex.tx.fecha == dia
    ensures r.Some? ==> forall m :: m in movs && m.kardex.tx.fecha == dia ==> m.id <= r.value.id
    ensures r.None? ==> forall m :: m in movs ==> m.kardex.tx.fecha != dia
  {
    if movs == [] then None
    else
      var resto := UltimoDelDia(movs[1..], dia);
      assert forall m :: m in movs ==> m == movs[0] || m in movs[1..];
      if movs[0].kardex.tx.fecha != dia then resto
      else if resto.Some? && resto.value.id > movs[0].id then resto
      else Some(movs[0])
  }

  /** The closing balance of day `dia`: that of the day's last movement,
      or the previous day's carried forward; `previo` closes the day
      before `inicio`. */
  function Cierre(movs: seq<KardexGuardado>, previo: Saldo, inicio: int, dia: int): Saldo
    requires inicio <= dia + 1
    decreases dia - inicio + 1
  {
    if dia < inicio then previo
    else match UltimoDelDia(movs, dia)
      case Some(m) => Saldo(m.kardex.saldoCantidad, m.kardex.saldoValor)
      case None => Cierre(movs, previo, inicio, dia - 1)
  }

  /** Days without movements carry the balance of the last day that had
      one (or of the day before the range) unchanged. */
  lemma {:induction false} CierreArrastra(movs: seq<KardexGuardado>, previo: Saldo, inicio: int, d0: int, d: int)
    requires inicio <= d0 + 1 && d0 <= d
    requires forall x :: d0 < x <= d ==> UltimoDelDia(movs, x).None?
    ensures Cierre(movs, previo, inicio, d) == Cierre(movs, previo, inicio, d0)
    decreases d - d0
  {
    if d > d0 {
      assert UltimoDelDia(movs, d).None?;
      CierreArrastra(movs, previo, inicio, d0, d - 1);
    }
  }

  /** The group's daily-balance table once every day from `inicio` to
      `hasta` has been written with its closing balance, day by day. */
  function Diarios(d0: map<int, Saldo>, movs: seq<KardexGuardado>, previo: Saldo, inicio: int, hasta: int): map<int, Saldo>
    requires inicio <= hasta + 1
    decreases hasta - inicio + 1
  {
    if hasta < inicio then d0
    else Diarios(d0, movs, previo, inicio, hasta - 1)[hasta := Cierre(movs, previo, inicio, hasta)]
  }

  /** Exactly one record per day of the range, holding that day's closing
      balance; the records of other days are untouched. */
  lemma {:induction false} DiariosUnoPorDia(d0: map<int, Saldo>, movs: seq<KardexGuardado>, previo: Saldo,
                                            inicio: int, hasta: int, d: int)
    requires inicio <= hasta + 1
    ensures var t := Diarios(d0, movs, previo, inicio, hasta);
      (inicio <= d <= hasta ==> d in t && t[d] == Cierre(movs, previo, inicio, d))
      && (!(inicio <= d <= hasta) ==> (d in t <==> d in d0) && (d in d0 ==> t[d] == d0[d]))
    decreases hasta - inicio + 1
  {
    if hasta >= inicio {
      DiariosUnoPorDia(d0, movs, previo, inicio, hasta - 1, d);
    }
  }

  /** One turn of the day loop: the balance it carries or takes is the
      day's closing balance, and the table gains that day's record. */
  lemma DiaPaso(d0: map<int, Saldo>, movs: seq<KardexGuardado>, previo: Saldo, inicio: int, dia: int, saldo: Saldo)
    requires inicio <= dia
    requires var u := UltimoDelDia(movs, dia);
      saldo == if u.Some? then Saldo(u.value.kardex.saldoCantidad, u.value.kardex.saldoValor)
               else Cierre(movs, previo, inicio, dia - 1)
    ensures saldo == Cierre(movs, previo, inicio, dia)
    ensures Diarios(d0, movs, previo, inicio, dia) == Diarios(d0, movs, previo, inicio, dia - 1)[dia := saldo]
  {
  }

  // ---------------------------------------------------------------------
  // The balance record
  // ---------------------------------------------------------------------

  /** The entity `updateSaldoKardex` writes into: the cached one, else the
      one the repository finds, else a new one for the group of `tx`. */
  function SaldoBase(cache: map<string, SaldoKardex>, clave: string, guardado: Option<SaldoKardex>, tx: Tx): SaldoKardex {
    if clave in cache then cache[clave]
    else guardado.GetOr(SaldoKardex(tx.empresaId, tx.custodioId, tx.instrumentoId, tx.cuenta, 0.0, 0.0, tx.fecha))
  }

  /** The balance cache after `k` costed transactions whose last one left
      the balance `s`. */
  function SaldoTras(cache0: map<string, SaldoKardex>, clave: string, guardado: Option<SaldoKardex>,
                     txs: seq<Tx>, k: nat, s: Saldo): map<string, SaldoKardex>
    requires k <= |txs|
  {
    if k == 0 then cache0
    else cache0[clave := SaldoBase(cache0, clave, guardado, txs[0]).(
      saldoCantidad := s.cantidad, costoTotal := s.valor, fechaUltimaActualizacion := txs[k - 1].fecha)]
  }

  /** One more costed transaction: the record is written over with the
      new balance and that transaction's date. */
  lemma SaldoTrasPaso(cache0: map<string, SaldoKardex>, clave: string, guardado: Option<SaldoKardex>,
                      txs: seq<Tx>, k: nat, s0: Saldo, s: Saldo)
    requires k < |txs|
    ensures var c := SaldoTras(cache0, clave, guardado, txs, k, s0);
      SaldoTras(cache0, clave, guardado, txs, k + 1, s) == c[clave := SaldoBase(c, clave, guardado, txs[k]).(
        saldoCantidad := s.cantidad, costoTotal := s.valor, fechaUltimaActualizacion := txs[k].fecha)]
  {
  }

  // ---------------------------------------------------------------------
  // The processor
  // ---------------------------------------------------------------------

  /** The processor of one group. */
  class GroupProcessor {
    const clave: string
    var transacciones: seq<Tx>
    var saldoCantidad: real
    var saldoValor: real
    const cola: ColaFifo
    const libro: Libro
    var cacheSaldos: map<string, SaldoKardex>
    /** The group's rows of the daily-balance table, by day. */
    var diarios: map<int, Saldo>

    constructor (clave: string, transacciones: seq<Tx>, libro: Libro, diarios: map<int, Saldo>)
      ensures this.clave == clave && this.transacciones == transacciones
      ensures this.libro == libro && this.diarios == diarios
      ensures fresh(cola) && cola.lotes == [] && cacheSaldos == map[]
      ensures saldoCantidad == 0.0 && saldoValor == 0.0
    {
      this.clave := clave;
      this.transacciones := transacciones;
      this.libro := libro;
      this.diarios := diarios;
      cola := new ColaFifo();
      cacheSaldos := map[];
      saldoCantidad := 0.0;
      saldoValor := 0.0;
    }

    /** The costing state the handlers see. */
    ghost function Actual(): Estado
      reads this, cola, libro
    {
      Estado(saldoCantidad, saldoValor, cola.lotes, libro.kardex, libro.detalles, libro.ajustes)
    }

    /** `process`. */
    method Process(q: Consultas) returns (ghost costeadas: nat)
      modifies this, cola, libro
      ensures costeadas <= |old(transacciones)| && transacciones == Marcadas(old(transacciones), costeadas)
      ensures old(transacciones) == [] ==>
        transacciones == [] && saldoCantidad == old(saldoCantidad) && saldoValor == old(saldoValor)
        && cacheSaldos == old(cacheSaldos) && diarios == old(diarios)
        && cola.lotes == old(cola.lotes) && libro.kardex == old(libro.kardex)
        && libro.detalles == old(libro.detalles) && libro.ajustes == old(libro.ajustes)
      ensures old(transacciones) != [] ==>
        var txs := old(transacciones);
        var s0 := SaldoInicial(txs[0], q.ultimoKardex);
        var e0 := Estado(s0.cantidad, s0.valor, old(cola.lotes) + Lotes(ColaHistorica(q.kardexGuardados, clave, txs[0].fecha)),
                         old(libro.kardex), old(libro.detalles), old(libro.ajustes));
        var r := Procesar(e0, txs, clave, q.tipoAjuste);
        transacciones == Marcadas(txs, r.costeadas)
        && Actual() == r.estado
        && cacheSaldos == SaldoTras(old(cacheSaldos), clave, q.saldoGuardado, txs, r.costeadas, Saldo(r.estado.cantidad, r.estado.valor))
        && diarios == (if r.fallo then old(diarios)
                       else Diarios(old(diarios), q.movimientos, q.saldoPrevio.GetOr(Saldo(0.0, 0.0)), MinFecha(txs), MaxFecha(txs)))
    {
      if transacciones == [] {
        costeadas := 0;
        assert Marcadas(transacciones, 0) == [];
        return;
      }
      InitializeBalances(q.ultimoKardex);
      InitializeFifoQueue(q.kardexGuardados);
      ghost var txs, e0, cache0, diarios0 := transacciones, Actual(), cacheSaldos, diarios;
      RecorridoInicio(txs, e0, q, cache0, diarios0);
      var processedCount, hasFailed := CostTransactions(q, txs, e0, cache0, diarios0);
      RecorridoFin(txs, e0, q, cache0, diarios0, processedCount, hasFailed);
      costeadas := processedCount;
      if !hasFailed {
        FechasMarcadas(txs, processedCount);
        UpdateSaldosDiarios(q.movimientos, q.saldoPrevio);
      }
    }

    /** The `for` loop of `process`: each transaction is costed and marked
        costed until one fails; that one and every later one are marked
        for revision. */
    method CostTransactions(q: Consultas, ghost txs: seq<Tx>, ghost e0: Estado,
                            ghost cache0: map<string, SaldoKardex>, ghost diarios0: map<int, Saldo>)
      returns (processedCount: nat, hasFailed: bool)
      requires Recorrido(txs, e0, q, cache0, diarios0, 0, 0, false)
      modifies this, cola, libro
      ensures Recorrido(txs, e0, q, cache0, diarios0, |txs|, processedCount, hasFailed)
    {
      hasFailed := false;
      processedCount := 0;
      var n := |transacciones|;
      var i := 0;
      while i < n
        invariant n == |txs| && 0 <= i <= n
        invariant Recorrido(txs, e0, q, cache0, diarios0, i, processedCount, hasFailed)
        decreases n - i
      {
        processedCount, hasFailed := CostTurn(i, processedCount, hasFailed, q, txs, e0, cache0, diarios0);
        i := i + 1;
      }
    }

    /** One turn of the `for` loop of `process`, on the `i`-th
        transaction. */
    method CostTurn(i: int, k0: nat, fallo0: bool, q: Consultas, ghost txs: seq<Tx>, ghost e0: Estado,
                    ghost cache0: map<string, SaldoKardex>, ghost diarios0: map<int, Saldo>)
      returns (processedCount: nat, hasFailed: bool)
      requires i < |txs|
      requires Recorrido(txs, e0, q, cache0, diarios0, i, k0, fallo0)
      modifies this, cola, libro
      ensures Recorrido(txs, e0, q, cache0, diarios0, i + 1, processedCount, hasFailed)
    {
      if fallo0 {
        ghost var antes := Actual();
        MarkTransactionForRevision(i);
        processedCount, hasFailed := k0, true;
        RecorridoPaso(txs, e0, q, cache0, diarios0, i, k0, processedCount, hasFailed, antes);
      } else {
        processedCount, hasFailed := CostPending(i, k0, q, txs, e0, cache0, diarios0);
      }
    }

    /** A turn on the `i`-th transaction while nothing has failed yet: it is
        costed, then marked costed and its balance record updated, or marked
        for revision if costing failed. */
    method CostPending(i: int, k0: nat, q: Consultas, ghost txs: seq<Tx>, ghost e0: Estado,
                       ghost cache0: map<string, SaldoKardex>, ghost diarios0: map<int, Saldo>)
      returns (processedCount: nat, hasFailed: bool)
      requires i < |txs|
      requires Recorrido(txs, e0, q, cache0, diarios0, i, k0, false)
      modifies this, cola, libro
      ensures Recorrido(txs, e0, q, cache0, diarios0, i + 1, processedCount, hasFailed)
    {
      ghost var antes := Actual();
      ghost var cacheAntes := cacheSaldos;
      var ok := CostTransaction(transacciones[i], q.tipoAjuste);
      if ok {
        MarkTransactionAsCosted(i);
        UpdateSaldoKardex(transacciones[i], saldoCantidad, saldoValor, q.saldoGuardado);
        processedCount, hasFailed := k0 + 1, false;
        SaldoTrasPaso(cache0, clave, q.saldoGuardado, txs, k0, Saldo(antes.cantidad, antes.valor), Saldo(saldoCantidad, saldoValor));
      } else {
        MarkTransactionForRevision(i);
        processedCount, hasFailed := k0, true;
      }
      RecorridoPaso(txs, e0, q, cache0, diarios0, i, k0, processedCount, hasFailed, antes);
    }

    /** What the main loop keeps: the state is the spec's on the prefix seen
        so far, that prefix is marked, the rest is untouched, and the
        balance record holds the balance of the last costed transaction. */
    ghost predicate Recorrido(txs: seq<Tx>, e0: Estado, q: Consultas, cache0: map<string, SaldoKardex>,
                              diarios0: map<int, Saldo>, i: int, k: int, fallo: bool)
      reads this, cola, libro
    {
      0 <= k <= i <= |txs| && |transacciones| == |txs|
      && Procesar(e0, txs[..i], clave, q.tipoAjuste) == Corrida(Actual(), k, fallo)
      && (forall j :: 0 <= j < i ==> transacciones[j] == Marca(txs[j], j < k))
      && (forall j :: i <= j < |txs| ==> transacciones[j] == txs[j])
      && cacheSaldos == SaldoTras(cache0, clave, q.saldoGuardado, txs, k, Saldo(saldoCantidad, saldoValor))
      && diarios == diarios0
    }

    lemma RecorridoInicio(txs: seq<Tx>, e0: Estado, q: Consultas, cache0: map<string, SaldoKardex>, diarios0: map<int, Saldo>)
      requires transacciones == txs && Actual() == e0 && cacheSaldos == cache0 && diarios == diarios0
      ensures Recorrido(txs, e0, q, cache0, diarios0, 0, 0, false)
    {
      assert txs[..0] == [];
    }

    lemma RecorridoFin(txs: seq<Tx>, e0: Estado, q: Consultas, cache0: map<string, SaldoKardex>,
                       diarios0: map<int, Saldo>, k: int, fallo: bool)
      requires Recorrido(txs, e0, q, cache0, diarios0, |txs|, k, fallo)
      ensures var r := Procesar(e0, txs, clave, q.tipoAjuste);
        k == r.costeadas && fallo == r.fallo && Actual() == r.estado
        && transacciones == Marcadas(txs, r.costeadas)
        && cacheSaldos == SaldoTras(cache0, clave, q.saldoGuardado, txs, r.costeadas, Saldo(r.estado.cantidad, r.estado.valor))
        && diarios == diarios0
    {
      assert txs[..|txs|] == txs;
    }

    /** One turn of the main loop keeps `Recorrido`. */
    lemma RecorridoPaso(txs: seq<Tx>, e0: Estado, q: Consultas, cache0: map<string, SaldoKardex>,
                        diarios0: map<int, Saldo>, i: int, k0: int, k: int, fallo: bool, antes: Estado)
      requires 0 <= i < |txs| && 0 <= k0 <= i && |transacciones| == |txs|
      requires var r := Procesar(e0, txs[..i], clave, q.tipoAjuste);
        r.estado == antes && r.costeadas == k0
      requires var r := Procesar(e0, txs[..i], clave, q.tipoAjuste);
        var p := Costear(antes, txs[i], clave, q.tipoAjuste);
        if r.fallo then Actual() == antes && fallo && k == k0
        else Actual() == p.estado && (fallo <==> p.falla.Some?) && (k == if fallo then k0 else k0 + 1)
      requires forall j :: 0 <= j < i ==> transacciones[j] == Marca(txs[j], j < k0)
      requires transacciones[i] == Marca(txs[i], i < k)
      requires forall j :: i < j < |txs| ==> transacciones[j] == txs[j]
      requires cacheSaldos == SaldoTras(cache0, clave, q.saldoGuardado, txs, k, Saldo(saldoCantidad, saldoValor))
      requires diarios == diarios0
      ensures Recorrido(txs, e0, q, cache0, diarios0, i + 1, k, fallo)
    {
      var r := Procesar(e0, txs[..i], clave, q.tipoAjuste);
      ProcesarSnoc(e0, txs[..i], txs[i], clave, q.tipoAjuste);
      assert txs[..i + 1] == txs[..i] + [txs[i]];
      if !r.fallo {
        assert k0 == i;
      }
      assert forall j :: 0 <= j < i + 1 ==> transacciones[j] == Marca(txs[j], j < k);
    }

    /** `initializeBalances`. */
    method InitializeBalances(ultimoKardex: Option<Kardex>)
      requires transacciones != []
      modifies this
      ensures transacciones == old(transacciones) && cacheSaldos == old(cacheSaldos) && diarios == old(diarios)
      ensures Saldo(saldoCantidad, saldoValor) == SaldoInicial(transacciones[0], ultimoKardex)
    {
      var firstTx := transacciones[0];
      if firstTx.tipo.esSaldoInicial {
        saldoCantidad := 0.0;
        saldoValor := 0.0;
      } else {
        saldoCantidad := if ultimoKardex.Some? then ultimoKardex.value.saldoCantidad else 0.0;
        saldoValor := if ultimoKardex.Some? then ultimoKardex.value.saldoValor else 0.0;
      }
    }

    /** `initializeFifoQueue`: the selected historic lots, sorted, each
        added at the tail of the queue. */
    method InitializeFifoQueue(tabla: seq<KardexGuardado>)
      requires transacciones != []
      modifies cola
      ensures cola.lotes == old(cola.lotes) + Lotes(ColaHistorica(tabla, clave, transacciones[0].fecha))
    {
      var ingresos := ColaHistorica(tabla, clave, transacciones[0].fecha);
      AddLots(ingresos);
    }

    /** The `forEach` of `initializeFifoQueue`: one lot per row, in order,
        at the tail of the queue. */
    method AddLots(ingresos: seq<KardexGuardado>)
      requires ConDisponible(ingresos)
      modifies cola
      ensures cola.lotes == old(cola.lotes) + Lotes(ingresos)
    {
      ghost var lotes0 := cola.lotes;
      ghost var lotes := Lotes(ingresos);
      var i := 0;
      while i < |ingresos|
        invariant 0 <= i <= |ingresos|
        invariant cola.lotes == lotes0 + lotes[..i]
      {
        cola.Add(Disponible(ingresos[i].kardex));
        assert (lotes0 + lotes[..i]) + [lotes[i]] == lotes0 + (lotes[..i] + [lotes[i]]);
        assert lotes[..i + 1] == lotes[..i] + [lotes[i]];
        i := i + 1;
      }
      assert lotes[..i] == lotes;
    }

    /** The handler call of one turn of the main loop; `ok` is false when
        the handler threw. */
    method CostTransaction(tx: Tx, tipoAjuste: Option<TipoMovimiento>) returns (ok: bool)
      modifies this`saldoCantidad, this`saldoValor, cola, libro
      ensures var p := Costear(old(Actual()), tx, clave, tipoAjuste);
        Actual() == p.estado && (ok <==> p.falla.None?)
    {
      match tx.tipo.contable
      case Ingreso =>
        var r := IngresoHandler.Handle(tx, cola, libro, saldoCantidad, saldoValor, clave);
        if r.Ok? {
          saldoCantidad := r.value.nuevoSaldoCantidad;
          saldoValor := r.value.nuevoSaldoValor;
        }
        ok := r.Ok?;
      case Egreso =>
        var r := EgresoHandler.Handle(tx, cola, libro, saldoCantidad, saldoValor, clave, tipoAjuste);
        if r.Ok? {
          saldoCantidad := r.value.nuevoSaldoCantidad;
          saldoValor := r.value.nuevoSaldoValor;
        }
        ok := r.Ok?;
      case NoCostear =>
        ok := true;
    }

    /** `updateSaldoKardex`. */
    method UpdateSaldoKardex(tx: Tx, nuevoSaldoCantidad: real, nuevoCostoTotal: real, guardado: Option<SaldoKardex>)
      modifies this`cacheSaldos
      ensures cacheSaldos == old(cacheSaldos)[clave := SaldoBase(old(cacheSaldos), clave, guardado, tx).(
        saldoCantidad := nuevoSaldoCantidad, costoTotal := nuevoCostoTotal, fechaUltimaActualizacion := tx.fecha)]
    {
      var saldo := SaldoBase(cacheSaldos, clave, guardado, tx);
      if clave !in cacheSaldos {
        cacheSaldos := cacheSaldos[clave := saldo];
      }
      saldo := saldo.(saldoCantidad := nuevoSaldoCantidad, costoTotal := nuevoCostoTotal, fechaUltimaActualizacion := tx.fecha);
      cacheSaldos := cacheSaldos[clave := saldo];
    }

    /** `updateSaldosDiarios`: one record per day of the transactions' date
        range, each holding that day's closing balance. */
    method UpdateSaldosDiarios(movimientos: seq<KardexGuardado>, saldoPrevio: Option<Saldo>)
      modifies this
      ensures transacciones == [] ==> diarios == old(diarios)
      ensures transacciones != [] ==>
        diarios == Diarios(old(diarios), movimientos, saldoPrevio.GetOr(Saldo(0.0, 0.0)), MinFecha(transacciones), MaxFecha(transacciones))
      ensures transacciones == old(transacciones) && cacheSaldos == old(cacheSaldos)
      ensures saldoCantidad == old(saldoCantidad) && saldoValor == old(saldoValor)
    {
      if transacciones == [] {
        return;
      }
      var fechaInicio := MinFecha(transacciones);
      var fechaFin := MaxFecha(transacciones);
      var previo := if saldoPrevio.Some? then saldoPrevio.value else Saldo(0.0, 0.0);
      WriteDays(movimientos, previo, fechaInicio, fechaFin);
    }

    /** The day-by-day loop of `updateSaldosDiarios`. */
    method WriteDays(movimientos: seq<KardexGuardado>, previo: Saldo, fechaInicio: int, fechaFin: int)
      requires fechaInicio <= fechaFin
      modifies this`diarios
      ensures diarios == Diarios(old(diarios), movimientos, previo, fechaInicio, fechaFin)
    {
      var anterior := previo;
      var dia := fechaInicio;
      ghost var d0 := diarios;
      while dia <= fechaFin
        invariant fechaInicio <= dia <= fechaFin + 1
        invariant anterior == Cierre(movimientos, previo, fechaInicio, dia - 1)
        invariant diarios == Diarios(d0, movimientos, previo, fechaInicio, dia - 1)
        decreases fechaFin - dia
      {
        var ultimo := UltimoDelDia(movimientos, dia);
        if ultimo.Some? {
          anterior := Saldo(ultimo.value.kardex.saldoCantidad, ultimo.value.kardex.saldoValor);
        }
        diarios := diarios[dia := anterior];
        DiaPaso(d0, movimientos, previo, fechaInicio, dia, anterior);
        dia := dia + 1;
      }
    }

    /** `markTransactionForRevision` on the `i`-th transaction. */
    method MarkTransactionForRevision(i: int)
      requires 0 <= i < |transacciones|
      modifies this`transacciones
      ensures transacciones == old(transacciones)[i := Marca(old(transacciones)[i], false)]
    {
      transacciones := transacciones[i := transacciones[i].(costeado := false, paraRevision := true)];
    }

    /** `markTransactionAsCosted` on the `i`-th transaction. */
    method MarkTransactionAsCosted(i: int)
      requires 0 <= i < |transacciones|
      modifies this`transacciones
      ensures transacciones == old(transacciones)[i := Marca(old(transacciones)[i], true)]
    {
      transacciones := transacciones[i := transacciones[i].(costeado := true, paraRevision := false)];
    }
  }
}
