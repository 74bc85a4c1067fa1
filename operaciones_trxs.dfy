/** `OperacionesTrxsService` (com.serv): the transactions of one group
    with the total signed by accounting type and the running balance of
    purchases minus sales. The JPQL query is an input: the rows it
    returns, in its order. */
module OperacionesTrxsService {
  import opened Wrappers
  import opened Text
  import opened Costeo

  /** `OperacionesTrxsDto`, restricted to what the service reads and
      writes; the amounts and the accounting type may be null. */
  datatype Operacion = Operacion(
    folio: string, nemo: string, tipoContable: Option<TipoContable>,
    compras: Option<real>, ventas: Option<real>, total: Option<real>,
    saldoAcumulado: Option<real>)

  /** The `IllegalArgumentException`s of the argument checks. */
  datatype Falla = EmpresaVacia | CustodioVacio | CuentaVacia

  /** `s == null || s.trim().isEmpty()`. */
  predicate Vacia(s: Option<string>) {
    s.None? || Trim(s.value) == []
  }

  function Abs(x: real): real {
    if x < 0.0 then -x else x
  }

  /** What one row adds to the running balance: its purchases minus its
      sales, a null counting as zero. */
  function Neto(op: Operacion): real {
    op.compras.GetOr(0.0) - op.ventas.GetOr(0.0)
  }

  /** The running balance after the rows `s`. */
  function SaldoTras(s: seq<Operacion>): real {
    if s == [] then 0.0 else SaldoTras(s[..|s| - 1]) + Neto(s[|s| - 1])
  }

  /** The total normalised by accounting type: non-negative for an
      ingreso, non-positive for an egreso, unchanged otherwise, with a
      null total read as zero. */
  function TotalNormalizado(op: Operacion): real {
    var total := op.total.GetOr(0.0);
    match op.tipoContable
    case Some(Ingreso) => Abs(total)
    case Some(Egreso) => -Abs(total)
    case _ => total
  }

  /** Row `i` of `s` once the loop has passed it. */
  function Procesada(s: seq<Operacion>, i: nat): Operacion
    requires i < |s|
  {
    s[i].(total := Some(TotalNormalizado(s[i])), saldoAcumulado := Some(SaldoTras(s[..i + 1])))
  }

  /** The rows after `calcularSaldosAcumulados`. */
  function Acumulados(s: seq<Operacion>): (r: seq<Operacion>)
    ensures |r| == |s|
  {
    seq(|s|, i requires 0 <= i < |s| => Procesada(s, i))
  }

  /** `calcularSaldosAcumulados`: sets every row's total and running
      balance in place. */
  method CalcularSaldosAcumulados(transacciones: array<Operacion>)
    modifies transacciones
    ensures transacciones[..] == Acumulados(old(transacciones[..]))
  {
    ghost var s := transacciones[..];
    var saldoAcumulado := 0.0;
    var i := 0;
    while i < transacciones.Length
      invariant 0 <= i <= transacciones.Length
      invariant saldoAcumulado == SaldoTras(s[..i])
      invariant forall k :: 0 <= k < i ==> transacciones[k] == Procesada(s, k)
      invariant forall k :: i <= k < transacciones.Length ==> transacciones[k] == s[k]
    {
      var dto := transacciones[i];
      var compras := if dto.compras.Some? then dto.compras.value else 0.0;
      var ventas := if dto.ventas.Some? then dto.ventas.value else 0.0;
      var total := if dto.total.Some? then dto.total.value else 0.0;
      if dto.tipoContable == Some(Ingreso) {
        total := Abs(total);
      } else if dto.tipoContable == Some(Egreso) {
        total := -Abs(total);
      }
      assert dto == s[i] && total == TotalNormalizado(dto);
      assert s[..i + 1][..i] == s[..i];
      saldoAcumulado := saldoAcumulado + compras - ventas;
      assert saldoAcumulado == SaldoTras(s[..i + 1]);
      transacciones[i] := dto.(total := Some(total), saldoAcumulado := Some(saldoAcumulado));
      i := i + 1;
    }
    assert transacciones[..] == Acumulados(s);
  }

  /** `obtenerTransaccionesPorGrupo`: the argument checks in order, an
      empty list for no instruments, otherwise the query's rows with
      their totals and running balances set. */
  method ObtenerTransaccionesPorGrupo(empresa: Option<string>, custodio: Option<string>, cuenta: Option<string>,
                                      nemos: Option<seq<string>>, consulta: seq<Operacion>)
    returns (r: Result<seq<Operacion>, Falla>)
    ensures Vacia(empresa) ==> r == Err(EmpresaVacia)
    ensures !Vacia(empresa) && Vacia(custodio) ==> r == Err(CustodioVacio)
    ensures !Vacia(empresa) && !Vacia(custodio) && Vacia(cuenta) ==> r == Err(CuentaVacia)
    ensures !Vacia(empresa) && !Vacia(custodio) && !Vacia(cuenta) ==>
      r == Ok(if nemos.None? || nemos.value == [] then [] else Acumulados(consulta))
  {
    if Vacia(empresa) {
      return Err(EmpresaVacia);
    }
    if Vacia(custodio) {
      return Err(CustodioVacio);
    }
    if Vacia(cuenta) {
      return Err(CuentaVacia);
    }
    if nemos.None? || nemos.value == [] {
      return Ok([]);
    }
    var transacciones := new Operacion[|consulta|](i requires 0 <= i < |consulta| => consulta[i]);
    assert transacciones[..] == consulta;
    CalcularSaldosAcumulados(transacciones);
    r := Ok(transacciones[..]);
  }

  // ---------------------------------------------------------------------
  // What the running balance means
  // ---------------------------------------------------------------------

  /** Purchases of the rows `s`, nulls as zero. */
  function SumaCompras(s: seq<Operacion>): real {
    if s == [] then 0.0 else s[0].compras.GetOr(0.0) + SumaCompras(s[1..])
  }

  /** Sales of the rows `s`, nulls as zero. */
  function SumaVentas(s: seq<Operacion>): real {
    if s == [] then 0.0 else s[0].ventas.GetOr(0.0) + SumaVentas(s[1..])
  }

  lemma {:induction false} SumasSnoc(s: seq<Operacion>, x: Operacion)
    ensures SumaCompras(s + [x]) == SumaCompras(s) + x.compras.GetOr(0.0)
    ensures SumaVentas(s + [x]) == SumaVentas(s) + x.ventas.GetOr(0.0)
  {
    if s != [] {
      SumasSnoc(s[1..], x);
      assert (s + [x])[1..] == s[1..] + [x];
    } else {
      assert [] + [x] == [x];
    }
  }

  /** The running balance after `s` is all purchases minus all sales. */
  lemma {:induction false} SaldoEsComprasMenosVentas(s: seq<Operacion>)
    ensures SaldoTras(s) == SumaCompras(s) - SumaVentas(s)
  {
    if s != [] {
      var a := s[..|s| - 1];
      SaldoEsComprasMenosVentas(a);
      SumasSnoc(a, s[|s| - 1]);
      assert a + [s[|s| - 1]] == s;
    }
  }

  /** saldoAcumulado[i] is the purchases minus the sales of rows 0..i,
      and each balance is the previous one plus the row's own net. */
  lemma SaldoAcumuladoEsPrefijo(s: seq<Operacion>, i: nat)
    requires i < |s|
    ensures Acumulados(s)[i].saldoAcumulado == Some(SumaCompras(s[..i + 1]) - SumaVentas(s[..i + 1]))
    ensures i == 0 ==> Acumulados(s)[i].saldoAcumulado == Some(Neto(s[0]))
    ensures i > 0 ==> Acumulados(s)[i].saldoAcumulado.value
                      == Acumulados(s)[i - 1].saldoAcumulado.value + Neto(s[i])
  {
    SaldoEsComprasMenosVentas(s[..i + 1]);
    assert s[..i + 1][..i] == s[..i];
    if i == 0 {
      assert s[..1][..0] == [];
    }
  }

  /** The list keeps its length and order; each row keeps every field but
      the total and the balance; an ingreso's total becomes non-negative
      and an egreso's non-positive, both with the original magnitude,
      and any other type keeps its total (a null one becomes zero). */
  lemma AcumuladosConservaFilas(s: seq<Operacion>, i: nat)
    requires i < |s|
    ensures var r := Acumulados(s)[i];
      r.folio == s[i].folio && r.nemo == s[i].nemo && r.tipoContable == s[i].tipoContable
      && r.compras == s[i].compras && r.ventas == s[i].ventas
      && r.total.Some?
      && (s[i].tipoContable == Some(Ingreso) ==> r.total.value >= 0.0 && Abs(r.total.value) == Abs(s[i].total.GetOr(0.0)))
      && (s[i].tipoContable == Some(Egreso) ==> r.total.value <= 0.0 && Abs(r.total.value) == Abs(s[i].total.GetOr(0.0)))
      && (s[i].tipoContable != Some(Ingreso) && s[i].tipoContable != Some(Egreso) ==> r.total.value == s[i].total.GetOr(0.0))
  {
  }

  /** Running the normalisation twice changes no total: the signed total
      is a fixed point. */
  lemma TotalNormalizadoIdempotente(op: Operacion)
    ensures TotalNormalizado(op.(total := Some(TotalNormalizado(op)))) == TotalNormalizado(op)
  {
  }
}
