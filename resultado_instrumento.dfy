/** `ResultadoInstrumentoService` (com.serv): the result history of one
    instrument — its operations and dividends merged and sorted, expenses
    assigned, the realised result per row, a TOTALES row and an
    unrealised-result row. The repository, kardex and balance queries are
    inputs: the rows and values they return for the requested group. */
module ResultadoInstrumentoService {
  import opened Wrappers
  import opened Text
  import opened Calendar

  /** `ResultadoInstrumentoDto`, restricted to the fields the service
      reads and writes; every one of them may be null. */
  datatype Fila = Fila(
    fecha: Option<Date>, idTransaccion: Option<int>, tipoMovimiento: Option<string>,
    compras: Option<real>, ventas: Option<real>, costoDeVenta: Option<real>,
    dividendos: Option<real>, gastos: Option<real>, utilidadRealizada: Option<real>)

  /** The last kardex row of the group: quantity and value balances. */
  datatype Kardex = Kardex(saldoCantidad: Option<real>, saldoValor: Option<real>)

  /** The last balance of the group: its market price. */
  datatype Saldo = Saldo(precio: Option<real>)

  /** What `ResultadoRepository` returns for the group. */
  datatype Repositorio = Repositorio(operaciones: seq<Fila>, dividendos: seq<Fila>, gastos: map<int, real>)

  /** The three dependencies: `KardexApi.findLastByGroup`,
      `SaldoApi.obtenerUltimoSaldo` and the repository. */
  datatype Servicio = Servicio(ultimoKardex: Option<Kardex>, ultimoSaldo: Option<Saldo>, repositorio: Repositorio)

  /** The `IllegalArgumentException`s the service throws. */
  datatype Falla = KardexNulo | SaldoNulo | RepositorioNulo | IdsNulos | CuentaVacia

  const TOTALES := "TOTALES"
  const NO_REALIZADA := "Utilidad/Pérdida no Realizada"
  /** `Long.MAX_VALUE`, the sort key of a row without an id. */
  const LONG_MAX: int := 0x7fff_ffff_ffff_ffff

  /** The constructor: the null checks, kardex first, then balance, then
      repository. */
  function Crear(saldo: Option<Option<Saldo>>, kardex: Option<Option<Kardex>>, repositorio: Option<Repositorio>)
    : (r: Result<Servicio, Falla>)
    ensures r.Ok? <==> saldo.Some? && kardex.Some? && repositorio.Some?
    ensures kardex.None? ==> r == Err(KardexNulo)
    ensures r.Ok? ==> r.value == Servicio(kardex.value, saldo.value, repositorio.value)
  {
    if kardex.None? then Err(KardexNulo)
    else if saldo.None? then Err(SaldoNulo)
    else if repositorio.None? then Err(RepositorioNulo)
    else Ok(Servicio(kardex.value, saldo.value, repositorio.value))
  }

  // ---------------------------------------------------------------------
  // The sort order
  // ---------------------------------------------------------------------

  /** The sort key: the date (null last) and the id (null as `Long.MAX_VALUE`). */
  datatype Clave = Clave(fecha: Option<Date>, id: int)

  function ClaveDe(f: Fila): Clave {
    Clave(f.fecha, if f.idTransaccion.Some? then f.idTransaccion.value else LONG_MAX)
  }

  /** `nullsLast(naturalOrder())` on dates, strictly. */
  predicate FechaMenor(a: Option<Date>, b: Option<Date>) {
    a.Some? && (b.None? || Before(a.value, b.value))
  }

  /** The comparator, strictly: by date, then by id. */
  predicate Menor(a: Clave, b: Clave) {
    FechaMenor(a.fecha, b.fecha) || (a.fecha == b.fecha && a.id < b.id)
  }

  /** No row is followed by one with a smaller key. */
  predicate Ordenada(s: seq<Fila>) {
    forall i, j :: 0 <= i < j < |s| ==> !Menor(ClaveDe(s[j]), ClaveDe(s[i]))
  }

  /** The rows of `s` with key `c`, in order. */
  function ConClave(s: seq<Fila>, c: Clave): seq<Fila> {
    if s == [] then []
    else ConClave(s[..|s| - 1], c) + (if ClaveDe(s[|s| - 1]) == c then [s[|s| - 1]] else [])
  }

  /** `x` placed after every row of `t` whose key is not greater. */
  function Insertar(x: Fila, t: seq<Fila>): seq<Fila> {
    if t == [] then [x]
    else if Menor(ClaveDe(x), ClaveDe(t[|t| - 1])) then Insertar(x, t[..|t| - 1]) + [t[|t| - 1]]
    else t + [x]
  }

  /** `List.sort` with the comparator: a stable sort. */
  function Ordenar(s: seq<Fila>): seq<Fila> {
    if s == [] then [] else Insertar(s[|s| - 1], Ordenar(s[..|s| - 1]))
  }

  lemma MenorIrreflexivo(a: Clave)
    ensures !Menor(a, a)
  {
  }

  lemma MenorTransitivo(a: Clave, b: Clave, c: Clave)
    requires !Menor(b, a) && !Menor(c, b)
    ensures !Menor(c, a)
  {
  }

  lemma MenorTotal(a: Clave, b: Clave)
    ensures Menor(a, b) || a == b || Menor(b, a)
  {
    if a.fecha.Some? && b.fecha.Some? {
      BeforeTotal(a.fecha.value, b.fecha.value);
    }
  }

  lemma {:induction false} InsertarMultiset(x: Fila, t: seq<Fila>)
    ensures multiset(Insertar(x, t)) == multiset(t) + multiset{x}
  {
    if t != [] && Menor(ClaveDe(x), ClaveDe(t[|t| - 1])) {
      var u := t[..|t| - 1];
      InsertarMultiset(x, u);
      assert t == u + [t[|t| - 1]];
    }
  }

  lemma {:induction false} InsertarOrdenada(x: Fila, t: seq<Fila>)
    requires Ordenada(t)
    ensures Ordenada(Insertar(x, t))
  {
    if t == [] {
    } else {
      var u := t[..|t| - 1];
      var y := t[|t| - 1];
      if Menor(ClaveDe(x), ClaveDe(y)) {
        InsertarOrdenada(x, u);
        InsertarMultiset(x, u);
        var v := Insertar(x, u);
        forall i | 0 <= i < |v|
          ensures !Menor(ClaveDe(y), ClaveDe(v[i]))
        {
          assert v[i] in multiset(v);
          if v[i] != x {
            assert v[i] in multiset(u);
            var k :| 0 <= k < |u| && u[k] == v[i];
            assert t[k] == u[k];
          } else {
            MenorTotal(ClaveDe(x), ClaveDe(y));
          }
        }
      } else {
        forall i | 0 <= i < |t|
          ensures !Menor(ClaveDe(x), ClaveDe(t[i]))
        {
          if i < |t| - 1 {
            MenorTransitivo(ClaveDe(t[i]), ClaveDe(y), ClaveDe(x));
          }
        }
      }
    }
  }

  lemma {:induction false} ConClaveSnoc(s: seq<Fila>, x: Fila, c: Clave)
    ensures ConClave(s + [x], c) == ConClave(s, c) + (if ClaveDe(x) == c then [x] else [])
  {
    assert (s + [x])[..|s + [x]| - 1] == s;
  }

  lemma {:induction false} InsertarEstable(x: Fila, t: seq<Fila>, c: Clave)
    ensures ConClave(Insertar(x, t), c) == ConClave(t, c) + (if ClaveDe(x) == c then [x] else [])
  {
    if t == [] {
      ConClaveSnoc([], x, c);
      assert [] + [x] == [x];
    } else {
      var u := t[..|t| - 1];
      var y := t[|t| - 1];
      assert t == u + [y];
      if Menor(ClaveDe(x), ClaveDe(y)) {
        InsertarEstable(x, u, c);
        ConClaveSnoc(Insertar(x, u), y, c);
        ConClaveSnoc(u, y, c);
        MenorIrreflexivo(ClaveDe(x));
      } else {
        ConClaveSnoc(t, x, c);
      }
    }
  }

  /** The sort returns a permutation of its input in key order, and keeps
      the input order of rows with equal keys: it is stable. */
  lemma {:induction false} OrdenarEsOrdenEstable(s: seq<Fila>)
    ensures Ordenada(Ordenar(s))
    ensures multiset(Ordenar(s)) == multiset(s)
    ensures forall c :: ConClave(Ordenar(s), c) == ConClave(s, c)
  {
    if s != [] {
      var u := s[..|s| - 1];
      var x := s[|s| - 1];
      assert s == u + [x];
      OrdenarEsOrdenEstable(u);
      InsertarOrdenada(x, Ordenar(u));
      InsertarMultiset(x, Ordenar(u));
      forall c
        ensures ConClave(Ordenar(s), c) == ConClave(s, c)
      {
        InsertarEstable(x, Ordenar(u), c);
        ConClaveSnoc(u, x, c);
      }
    }
  }

  // ---------------------------------------------------------------------
  // Expenses and realised result per row
  // ---------------------------------------------------------------------

  /** `mapaDeGastos.getOrDefault(id, ZERO)`. */
  function GastoDe(gastos: map<int, real>, id: int): real {
    if id in gastos then gastos[id] else 0.0
  }

  /** One row after `asignarGastos`. */
  function ConGasto(f: Fila, gastos: map<int, real>): Fila {
    if f.idTransaccion.Some? then f.(gastos := Some(GastoDe(gastos, f.idTransaccion.value))) else f
  }

  function AsignarGastos(s: seq<Fila>, gastos: map<int, real>): (r: seq<Fila>)
    ensures |r| == |s|
  {
    seq(|s|, i requires 0 <= i < |s| => ConGasto(s[i], gastos))
  }

  /** realizada + dividendos - gastos, each null as zero. */
  function UtilidadLinea(f: Fila): real {
    f.utilidadRealizada.GetOr(0.0) + f.dividendos.GetOr(0.0) - f.gastos.GetOr(0.0)
  }

  /** One row after `calcularUtilidadPorOperacion`. */
  function ConUtilidad(f: Fila): Fila {
    f.(utilidadRealizada := Some(UtilidadLinea(f)))
  }

  function CalcularUtilidades(s: seq<Fila>): (r: seq<Fila>)
    ensures |r| == |s|
  {
    seq(|s|, i requires 0 <= i < |s| => ConUtilidad(s[i]))
  }

  /** `asignarGastos`: every row with an id gets its expense, in place. */
  method AsignarGastosEn(historial: array<Fila>, gastos: map<int, real>)
    modifies historial
    ensures historial[..] == AsignarGastos(old(historial[..]), gastos)
  {
    ghost var s := historial[..];
    var i := 0;
    while i < historial.Length
      invariant 0 <= i <= historial.Length
      invariant forall k :: 0 <= k < i ==> historial[k] == ConGasto(s[k], gastos)
      invariant forall k :: i <= k < historial.Length ==> historial[k] == s[k]
    {
      var dto := historial[i];
      if dto.idTransaccion.Some? {
        historial[i] := dto.(gastos := Some(GastoDe(gastos, dto.idTransaccion.value)));
      }
      i := i + 1;
    }
  }

  /** `calcularUtilidadPorOperacion`: every row's realised result becomes
      its line result, in place. */
  method CalcularUtilidadPorOperacion(historial: array<Fila>)
    modifies historial
    ensures historial[..] == CalcularUtilidades(old(historial[..]))
  {
    ghost var s := historial[..];
    var i := 0;
    while i < historial.Length
      invariant 0 <= i <= historial.Length
      invariant forall k :: 0 <= k < i ==> historial[k] == ConUtilidad(s[k])
      invariant forall k :: i <= k < historial.Length ==> historial[k] == s[k]
    {
      var dto := historial[i];
      var utilidadDeLaLinea := 0.0;
      if dto.utilidadRealizada.Some? {
        utilidadDeLaLinea := utilidadDeLaLinea + dto.utilidadRealizada.value;
      }
      if dto.dividendos.Some? {
        utilidadDeLaLinea := utilidadDeLaLinea + dto.dividendos.value;
      }
      if dto.gastos.Some? {
        utilidadDeLaLinea := utilidadDeLaLinea - dto.gastos.value;
      }
      historial[i] := dto.(utilidadRealizada := Some(utilidadDeLaLinea));
      i := i + 1;
    }
  }

  /** Rows with an id carry exactly their mapped expense (0 without an
      entry), rows without an id are untouched, and no other field
      changes. */
  lemma AsignarGastosFila(s: seq<Fila>, gastos: map<int, real>, i: nat)
    requires i < |s|
    ensures var f := AsignarGastos(s, gastos)[i];
      (s[i].idTransaccion.None? ==> f == s[i])
      && (s[i].idTransaccion.Some? ==>
            f == s[i].(gastos := f.gastos)
            && (s[i].idTransaccion.value in gastos ==> f.gastos == Some(gastos[s[i].idTransaccion.value]))
            && (s[i].idTransaccion.value !in gastos ==> f.gastos == Some(0.0)))
  {
  }

  /** Assigning the expenses a second time changes nothing. */
  lemma AsignarGastosIdempotente(s: seq<Fila>, gastos: map<int, real>)
    ensures AsignarGastos(AsignarGastos(s, gastos), gastos) == AsignarGastos(s, gastos)
  {
  }

  // ---------------------------------------------------------------------
  // The summary rows
  // ---------------------------------------------------------------------

  /** The summable fields. */
  datatype Campo = Compras | Ventas | CostoDeVenta | Dividendos | Gastos | Utilidad

  function Valor(f: Fila, c: Campo): Option<real> {
    match c
    case Compras => f.compras
    case Ventas => f.ventas
    case CostoDeVenta => f.costoDeVenta
    case Dividendos => f.dividendos
    case Gastos => f.gastos
    case Utilidad => f.utilidadRealizada
  }

  /** `sumarCampo`: the sum of the non-null values of a field. */
  function SumarCampo(s: seq<Fila>, c: Campo): real {
    if s == [] then 0.0 else SumarCampo(s[..|s| - 1], c) + Valor(s[|s| - 1], c).GetOr(0.0)
  }

  /** A row the realised-result total skips: a summary row. */
  predicate EsResumen(f: Fila) {
    f.tipoMovimiento == Some(TOTALES) || f.tipoMovimiento == Some(NO_REALIZADA)
  }

  /** The realised-result total: the non-null results of the rows that
      are not summary rows. */
  function SumarUtilidad(s: seq<Fila>): real {
    if s == [] then 0.0
    else SumarUtilidad(s[..|s| - 1])
         + (if EsResumen(s[|s| - 1]) then 0.0 else s[|s| - 1].utilidadRealizada.GetOr(0.0))
  }

  /** A row with only a movement type set, as `new ResultadoInstrumentoDto(tipo)`. */
  function FilaVacia(tipo: string): Fila {
    Fila(None, None, Some(tipo), None, None, None, None, None, None)
  }

  /** `añadirFilaDeTotales`: the row appended. */
  function FilaTotales(s: seq<Fila>): (r: Fila)
    ensures r.tipoMovimiento == Some(TOTALES) && EsResumen(r)
    ensures forall c :: Valor(r, c).Some?
  {
    FilaVacia(TOTALES).(
      compras := Some(SumarCampo(s, Compras)), ventas := Some(SumarCampo(s, Ventas)),
      costoDeVenta := Some(SumarCampo(s, CostoDeVenta)), dividendos := Some(SumarCampo(s, Dividendos)),
      gastos := Some(SumarCampo(s, Gastos)), utilidadRealizada := Some(SumarUtilidad(s)))
  }

  /** `añadirFilaUtilidadNoRealizada`: no row, the row, or `Err` where a
      null quantity, price or cost throws a `NullPointerException`. */
  function FilaNoRealizada(kardex: Option<Kardex>, saldo: Option<Saldo>): (r: Result<Option<Fila>, ()>)
    ensures r.Ok? && r.value.Some? ==>
      kardex.Some? && kardex.value.saldoCantidad.Some? && kardex.value.saldoCantidad.value > 0.0
      && saldo.Some? && saldo.value.precio.Some? && kardex.value.saldoValor.Some?
      && r.value.value.tipoMovimiento == Some(NO_REALIZADA)
      && r.value.value.utilidadRealizada
         == Some(saldo.value.precio.value * kardex.value.saldoCantidad.value - kardex.value.saldoValor.value)
    ensures kardex.None? ==> r == Ok(None)
    ensures kardex.Some? && kardex.value.saldoCantidad.None? ==> r.Err?
    ensures kardex.Some? && kardex.value.saldoCantidad.Some? && saldo.None? ==> r == Ok(None)
    ensures kardex.Some? && kardex.value.saldoCantidad.Some? && kardex.value.saldoCantidad.value <= 0.0 ==> r == Ok(None)
    ensures kardex.Some? && kardex.value.saldoCantidad.Some? && kardex.value.saldoCantidad.value > 0.0 && saldo.Some? ==>
      (r.Err? <==> saldo.value.precio.None? || kardex.value.saldoValor.None?)
    ensures (kardex.Some? && kardex.value.saldoCantidad.Some? && kardex.value.saldoCantidad.value > 0.0
             && saldo.Some? && saldo.value.precio.Some? && kardex.value.saldoValor.Some?) ==> r.Ok? && r.value.Some?
  {
    if kardex.None? then Ok(None)
    else if kardex.value.saldoCantidad.None? then Err(())
    else if kardex.value.saldoCantidad.value <= 0.0 then Ok(None)
    else if saldo.None? then Ok(None)
    else if saldo.value.precio.None? || kardex.value.saldoValor.None? then Err(())
    else
      var valorDeMercadoTotal := saldo.value.precio.value * kardex.value.saldoCantidad.value;
      Ok(Some(FilaVacia(NO_REALIZADA).(utilidadRealizada := Some(valorDeMercadoTotal - kardex.value.saldoValor.value))))
  }

  /** The history rows before the summary rows: merged, sorted, with
      expenses and line results. */
  function Detalle(repo: Repositorio): seq<Fila> {
    CalcularUtilidades(AsignarGastos(Ordenar(repo.operaciones + repo.dividendos), repo.gastos))
  }

  /** `obtenerHistorialResultados` on arguments that passed the checks:
      empty exactly when there is no operation or dividend row, or when
      the unrealised row throws (the exception is caught). */
  function Historial(svc: Servicio): (r: seq<Fila>)
    ensures r == [] <==> Detalle(svc.repositorio) == [] || FilaNoRealizada(svc.ultimoKardex, svc.ultimoSaldo).Err?
  {
    var detalle := Detalle(svc.repositorio);
    if detalle == [] then []
    else match FilaNoRealizada(svc.ultimoKardex, svc.ultimoSaldo)
      case Err(_) => []
      case Ok(extra) => detalle + [FilaTotales(detalle)] + (if extra.Some? then [extra.value] else [])
  }

  /** The argument checks: null ids, then a blank account. */
  function Validar(empresaId: Option<int>, custodioId: Option<int>, cuenta: Option<string>, instrumentoId: Option<int>)
    : (r: Option<Falla>)
    ensures r.None? <==> empresaId.Some? && custodioId.Some? && instrumentoId.Some? && cuenta.Some? && Trim(cuenta.value) != []
  {
    if empresaId.None? || custodioId.None? || instrumentoId.None? then Some(IdsNulos)
    else if cuenta.None? || Trim(cuenta.value) == [] then Some(CuentaVacia)
    else None
  }

  /** `obtenerHistorialResultados`: the checks, then the history built in
      a list that is sorted, updated in place and appended to. */
  method ObtenerHistorialResultados(svc: Servicio, empresaId: Option<int>, custodioId: Option<int>,
                                    cuenta: Option<string>, instrumentoId: Option<int>)
    returns (r: Result<seq<Fila>, Falla>)
    ensures Validar(empresaId, custodioId, cuenta, instrumentoId).Some? ==>
      r == Err(Validar(empresaId, custodioId, cuenta, instrumentoId).value)
    ensures Validar(empresaId, custodioId, cuenta, instrumentoId).None? ==> r == Ok(Historial(svc))
  {
    var falla := Validar(empresaId, custodioId, cuenta, instrumentoId);
    if falla.Some? {
      return Err(falla.value);
    }
    var repo := svc.repositorio;
    var ordenado := Ordenar(repo.operaciones + repo.dividendos);
    var historial := new Fila[|ordenado|](i requires 0 <= i < |ordenado| => ordenado[i]);
    assert historial[..] == ordenado;
    AsignarGastosEn(historial, repo.gastos);
    CalcularUtilidadPorOperacion(historial);
    var detalle := historial[..];
    assert detalle == Detalle(repo);
    if detalle == [] {
      return Ok([]);
    }
    var extra := FilaNoRealizada(svc.ultimoKardex, svc.ultimoSaldo);
    if extra.Err? {
      return Ok([]);
    }
    var resultado := detalle + [FilaTotales(detalle)];
    if extra.value.Some? {
      resultado := resultado + [extra.value.value];
    } else {
      assert resultado == resultado + [];
    }
    r := Ok(resultado);
  }

  // ---------------------------------------------------------------------
  // What the history promises
  // ---------------------------------------------------------------------

  lemma {:induction false} SumarCampoSnoc(s: seq<Fila>, x: Fila, c: Campo)
    ensures SumarCampo(s + [x], c) == SumarCampo(s, c) + Valor(x, c).GetOr(0.0)
  {
    assert (s + [x])[..|s + [x]| - 1] == s;
  }

  /** Sums of a field do not depend on the order of the rows. */
  lemma {:induction false} SumarCampoInsertar(x: Fila, t: seq<Fila>, c: Campo)
    ensures SumarCampo(Insertar(x, t), c) == SumarCampo(t, c) + Valor(x, c).GetOr(0.0)
  {
    if t == [] {
      SumarCampoSnoc([], x, c);
      assert [] + [x] == [x];
    } else {
      var u := t[..|t| - 1];
      var y := t[|t| - 1];
      assert t == u + [y];
      if Menor(ClaveDe(x), ClaveDe(y)) {
        SumarCampoInsertar(x, u, c);
        SumarCampoSnoc(Insertar(x, u), y, c);
        SumarCampoSnoc(u, y, c);
      } else {
        SumarCampoSnoc(t, x, c);
      }
    }
  }

  lemma {:induction false} SumarCampoOrdenar(s: seq<Fila>, c: Campo)
    ensures SumarCampo(Ordenar(s), c) == SumarCampo(s, c)
  {
    if s != [] {
      var u := s[..|s| - 1];
      SumarCampoOrdenar(u, c);
      SumarCampoInsertar(s[|s| - 1], Ordenar(u), c);
    }
  }

  lemma {:induction false} SumarCampoAppend(a: seq<Fila>, b: seq<Fila>, c: Campo)
    ensures SumarCampo(a + b, c) == SumarCampo(a, c) + SumarCampo(b, c)
  {
    if b != [] {
      var v := b[..|b| - 1];
      SumarCampoAppend(a, v, c);
      assert a + b == (a + v) + [b[|b| - 1]];
      SumarCampoSnoc(a + v, b[|b| - 1], c);
    } else {
      assert a + b == a;
    }
  }

  /** With no summary rows among them, the realised-result total of the
      line results is the sum of the original realised results plus the
      dividends minus the expenses. */
  lemma {:induction false} TotalUtilidadLineas(s: seq<Fila>)
    requires forall k :: 0 <= k < |s| ==> !EsResumen(s[k])
    ensures SumarUtilidad(CalcularUtilidades(s))
         == SumarCampo(s, Utilidad) + SumarCampo(s, Dividendos) - SumarCampo(s, Gastos)
  {
    if s != [] {
      var u := s[..|s| - 1];
      assert CalcularUtilidades(s)[..|s| - 1] == CalcularUtilidades(u);
      TotalUtilidadLineas(u);
    }
  }

  /** The line results leave every summed field but the result as it was. */
  lemma {:induction false} CalcularUtilidadesConserva(s: seq<Fila>, c: Campo)
    requires c != Utilidad
    ensures SumarCampo(CalcularUtilidades(s), c) == SumarCampo(s, c)
  {
    if s != [] {
      var u := s[..|s| - 1];
      assert CalcularUtilidades(s)[..|s| - 1] == CalcularUtilidades(u);
      CalcularUtilidadesConserva(u, c);
    }
  }

  /** A non-empty history is the detail rows, then TOTALES, then the
      unrealised row exactly when the last kardex holds a positive
      quantity and a balance exists; the detail rows are a stable sort of
      the operations followed by the dividends, and the purchase and sale
      totals add up every operation and dividend row. */
  lemma HistorialForma(svc: Servicio)
    requires Historial(svc) != []
    ensures var h := Historial(svc);
      var d := Detalle(svc.repositorio);
      var todas := svc.repositorio.operaciones + svc.repositorio.dividendos;
      |d| == |todas| > 0
      && h[..|d|] == d && h[|d|] == FilaTotales(d)
      && (|h| == |d| + 2 <==> FilaNoRealizada(svc.ultimoKardex, svc.ultimoSaldo) != Ok(None))
      && |h| <= |d| + 2
      && (|h| == |d| + 2 ==> h[|d| + 1].tipoMovimiento == Some(NO_REALIZADA))
      && h[|d|].compras == Some(SumarCampo(svc.repositorio.operaciones, Compras) + SumarCampo(svc.repositorio.dividendos, Compras))
      && h[|d|].ventas == Some(SumarCampo(svc.repositorio.operaciones, Ventas) + SumarCampo(svc.repositorio.dividendos, Ventas))
  {
    var repo := svc.repositorio;
    DetalleLongitud(repo);
    DetalleSuma(repo, Compras);
    DetalleSuma(repo, Ventas);
    var d := Detalle(repo);
    assert d[..|d|] == d;
  }

  /** The detail has one row per operation and dividend row. */
  lemma DetalleLongitud(repo: Repositorio)
    ensures |Detalle(repo)| == |repo.operaciones + repo.dividendos|
  {
    var todas := repo.operaciones + repo.dividendos;
    OrdenarEsOrdenEstable(todas);
    assert |multiset(Ordenar(todas))| == |Ordenar(todas)|;
  }

  /** The detail's purchase and sale totals are those of the operations
      and the dividends. */
  lemma DetalleSuma(repo: Repositorio, c: Campo)
    requires c == Compras || c == Ventas
    ensures SumarCampo(Detalle(repo), c) == SumarCampo(repo.operaciones, c) + SumarCampo(repo.dividendos, c)
  {
    var todas := repo.operaciones + repo.dividendos;
    var o := Ordenar(todas);
    var g := AsignarGastos(o, repo.gastos);
    CalcularUtilidadesConserva(g, c);
    GastosNoTocan(o, repo.gastos, c);
    SumarCampoOrdenar(todas, c);
    SumarCampoAppend(repo.operaciones, repo.dividendos, c);
  }

  lemma {:induction false} GastosNoTocan(s: seq<Fila>, gastos: map<int, real>, c: Campo)
    requires c != Gastos
    ensures SumarCampo(AsignarGastos(s, gastos), c) == SumarCampo(s, c)
  {
    if s != [] {
      var u := s[..|s| - 1];
      assert AsignarGastos(s, gastos)[..|s| - 1] == AsignarGastos(u, gastos);
      GastosNoTocan(u, gastos, c);
    }
  }

  /** The realised-result total skips the totals row: appending it and
      summing again gives the same total. */
  lemma TotalesNoSeCuentan(s: seq<Fila>)
    ensures SumarUtilidad(s + [FilaTotales(s)]) == SumarUtilidad(s)
    ensures forall c :: c != Utilidad ==> Valor(FilaTotales(s), c) == Some(SumarCampo(s, c))
  {
    assert (s + [FilaTotales(s)])[..|s|] == s;
  }

  /** An empty merged history gives an empty list: no summary rows. */
  lemma SinFilasSinResumen(svc: Servicio)
    requires svc.repositorio.operaciones == [] && svc.repositorio.dividendos == []
    ensures Historial(svc) == []
  {
    assert svc.repositorio.operaciones + svc.repositorio.dividendos == [];
  }
}
