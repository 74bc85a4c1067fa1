/** `SaldoMensualService` (com.serv): the monthly balances of a business
    for one year — the parameter checks, the rows with activity, and the
    five summary rows computed month by month: total, monthly result,
    accumulated result, and the variations against January and against
    the previous month. The native query is an input: its rows. */
module SaldoMensualService {
  import opened Wrappers
  import opened Text
  import opened Decimal

  /** The twelve month columns of a row, January first; each may be null. */
  type Meses = s: seq<Option<real>> | |s| == 12 witness SIN_DATOS

  const SIN_DATOS: seq<Option<real>> := [None, None, None, None, None, None, None, None, None, None, None, None]

  /** `SaldoMensualDto`, restricted to the fields the service reads and
      writes. */
  datatype SaldoMensual = SaldoMensual(nemo: string, instrumentoNemo: string, meses: Meses,
                                       sumaTotalAnual: Option<real>)

  const COLUMN_MONTO_CLP := "s.monto_clp"
  const COLUMN_MONTO_USD := "s.monto_usd"
  const MONEDA_USD := "USD"
  const MONEDA_CLP := "CLP"
  const LARGO_MAXIMO_CUSTODIO := 100
  const ESCALA_DIVISION: nat := 6
  const ESCALA_VARIACION: nat := 1

  // ---------------------------------------------------------------------
  // Parameters and query
  // ---------------------------------------------------------------------

  /** `validarParametrosEntrada`. */
  function ValidarParametrosEntrada(razonSocial: Option<string>, custodio: Option<string>, anio: int, moneda: Option<string>)
    : (ok: bool)
    ensures ok <==>
      (razonSocial.Some? && Trim(razonSocial.value) != []
       && 2000 <= anio <= 2100
       && moneda.Some? && (Upper(moneda.value) == MONEDA_USD || Upper(moneda.value) == MONEDA_CLP)
       && (custodio.Some? ==> |Trim(custodio.value)| <= LARGO_MAXIMO_CUSTODIO))
  {
    MonedasEnMayusculas();
    if razonSocial.None? || Trim(razonSocial.value) == [] then false
    else if anio < 2000 || anio > 2100 then false
    else if moneda.None? || (!EqualsIgnoreCase(MONEDA_USD, moneda.value) && !EqualsIgnoreCase(MONEDA_CLP, moneda.value)) then false
    else if custodio.Some? && |Trim(custodio.value)| > LARGO_MAXIMO_CUSTODIO then false
    else true
  }

  lemma MonedasEnMayusculas()
    ensures Upper(MONEDA_USD) == MONEDA_USD && Upper(MONEDA_CLP) == MONEDA_CLP
  {
  }

  /** What `construirQuerySegura` fills into the query template: the
      amount column of the currency and the optional custodian clause. */
  function ConstruirQuerySegura(moneda: string, incluirCustodio: bool): (p: (string, string))
    ensures p.0 == COLUMN_MONTO_USD <==> EqualsIgnoreCase(MONEDA_USD, moneda)
    ensures p.0 == COLUMN_MONTO_USD || p.0 == COLUMN_MONTO_CLP
    ensures p.1 != [] <==> incluirCustodio
  {
    (if EqualsIgnoreCase(MONEDA_USD, moneda) then COLUMN_MONTO_USD else COLUMN_MONTO_CLP,
     if incluirCustodio then "AND c.custodio = ?3" else "")
  }

  // ---------------------------------------------------------------------
  // Month values
  // ---------------------------------------------------------------------

  /** `getValorPorMes` with a null read as zero, as every caller does. */
  function ValorMes(dto: SaldoMensual, mes: int): real {
    if 1 <= mes <= 12 then dto.meses[mes - 1].GetOr(0.0) else 0.0
  }

  /** The sum of month `mes` over the rows `s`. */
  function TotalMes(s: seq<SaldoMensual>, mes: int): real {
    if s == [] then 0.0 else TotalMes(s[..|s| - 1], mes) + ValorMes(s[|s| - 1], mes)
  }

  /** The total row's twelve values. */
  function Totales(s: seq<SaldoMensual>): (t: seq<real>)
    ensures |t| == 12
  {
    seq(12, i requires 0 <= i < 12 => TotalMes(s, i + 1))
  }

  /** The largest month up to `mes` whose total is not zero, or 0. */
  function UltimoMesHasta(t: seq<real>, mes: nat): (r: nat)
    requires |t| == 12 && mes <= 12
    ensures r <= mes
    ensures r > 0 ==> t[r - 1] != 0.0
    ensures forall k :: r <= k < mes ==> t[k] == 0.0
  {
    if mes == 0 then 0 else if t[mes - 1] != 0.0 then mes else UltimoMesHasta(t, mes - 1)
  }

  function UltimoMesConDatos(t: seq<real>): (r: nat)
    requires |t| == 12
  {
    UltimoMesHasta(t, 12)
  }

  /** The monthly result: January and the months after the last one with
      data are 0, every other month is its total minus the previous one. */
  function UtilidadMes(t: seq<real>, ultimo: int, mes: int): real
    requires |t| == 12 && 1 <= mes <= 12
  {
    if mes == 1 || mes > ultimo then 0.0 else t[mes - 1] - t[mes - 2]
  }

  function FilaUtilidad(t: seq<real>, ultimo: int): (u: seq<real>)
    requires |t| == 12
    ensures |u| == 12
  {
    seq(12, i requires 0 <= i < 12 => UtilidadMes(t, ultimo, i + 1))
  }

  /** The sum of the first `n` values of `u`. */
  function SumaHasta(u: seq<real>, n: nat): real
    requires n <= |u|
  {
    if n == 0 then 0.0 else SumaHasta(u, n - 1) + u[n - 1]
  }

  /** The accumulated result: the running sum up to the last month with
      data, 0 after it. */
  function FilaAcumulada(u: seq<real>, ultimo: int): (a: seq<real>)
    requires |u| == 12
    ensures |a| == 12
  {
    seq(12, i requires 0 <= i < 12 => if i + 1 > ultimo then 0.0 else SumaHasta(u, i + 1))
  }

  /** `calcularVariacion`: the percentage change from `base` to `actual`
      (quotient to six decimals, minus one, times 100, to one decimal);
      0 for a zero base. */
  function Variacion(actual: real, base: real): real {
    if base == 0.0 then 0.0
    else RoundHalfUp((Divide(actual, base, ESCALA_DIVISION) - 1.0) * 100.0, ESCALA_VARIACION)
  }

  function FilaVariacionAnual(t: seq<real>, ultimo: int): (v: seq<real>)
    requires |t| == 12
    ensures |v| == 12
  {
    seq(12, i requires 0 <= i < 12 => if i == 0 || i + 1 > ultimo then 0.0 else Variacion(t[i], t[0]))
  }

  function FilaVariacionMensual(t: seq<real>, ultimo: int): (v: seq<real>)
    requires |t| == 12
    ensures |v| == 12
  {
    seq(12, i requires 0 <= i < 12 => if i == 0 || i + 1 > ultimo then 0.0 else Variacion(t[i], t[i - 1]))
  }

  /** A summary row with all twelve months set. */
  function Resumen(nemo: string, instrumentoNemo: string, v: seq<real>): SaldoMensual
    requires |v| == 12
  {
    SaldoMensual(nemo, instrumentoNemo, seq(12, i requires 0 <= i < 12 => Some(v[i])), None)
  }

  // ---------------------------------------------------------------------
  // The summary rows, month by month
  // ---------------------------------------------------------------------

  /** `calcularFilaTotal`: the month sums, row by row and month by month. */
  method CalcularFilaTotal(resultados: seq<SaldoMensual>) returns (total: seq<real>)
    ensures total == Totales(resultados)
  {
    var totalRow := new real[12](_ => 0.0);
    var i := 0;
    while i < |resultados|
      invariant 0 <= i <= |resultados|
      invariant forall k :: 0 <= k < 12 ==> totalRow[k] == TotalMes(resultados[..i], k + 1)
    {
      var dto := resultados[i];
      assert resultados[..i + 1][..i] == resultados[..i];
      var mes := 1;
      while mes <= 12
        invariant 1 <= mes <= 13
        invariant forall k :: 0 <= k < mes - 1 ==> totalRow[k] == TotalMes(resultados[..i + 1], k + 1)
        invariant forall k :: mes - 1 <= k < 12 ==> totalRow[k] == TotalMes(resultados[..i], k + 1)
      {
        var valorActual := totalRow[mes - 1];
        var valorDto := if dto.meses[mes - 1].Some? then dto.meses[mes - 1].value else 0.0;
        totalRow[mes - 1] := valorActual + valorDto;
        mes := mes + 1;
      }
      i := i + 1;
    }
    assert resultados[..i] == resultados;
    total := totalRow[..];
  }

  /** `encontrarUltimoMesConDatos`: searches from December down. */
  method EncontrarUltimoMesConDatos(total: seq<real>) returns (ultimo: nat)
    requires |total| == 12
    ensures ultimo == UltimoMesConDatos(total)
  {
    var mes := 12;
    while mes >= 1
      invariant 0 <= mes <= 12
      invariant UltimoMesConDatos(total) == UltimoMesHasta(total, mes)
    {
      if total[mes - 1] != 0.0 {
        return mes;
      }
      mes := mes - 1;
    }
    return 0;
  }

  /** `calcularFilaUtilidad`. */
  method CalcularFilaUtilidad(total: seq<real>, ultimo: int) returns (utilidad: seq<real>)
    requires |total| == 12
    ensures utilidad == FilaUtilidad(total, ultimo)
  {
    var fila := new real[12](_ => 0.0);
    fila[0] := 0.0;
    var mes := 2;
    while mes <= 12
      invariant 2 <= mes <= 13
      invariant forall k :: 0 <= k < mes - 1 ==> fila[k] == UtilidadMes(total, ultimo, k + 1)
    {
      if mes > ultimo {
        fila[mes - 1] := 0.0;
      } else {
        fila[mes - 1] := total[mes - 1] - total[mes - 2];
      }
      mes := mes + 1;
    }
    utilidad := fila[..];
  }

  /** `calcularFilaUtilidadAcumulada`: the running `utilidadAcumulada`. */
  method CalcularFilaUtilidadAcumulada(utilidad: seq<real>, ultimo: int) returns (acumulada: seq<real>)
    requires |utilidad| == 12
    ensures acumulada == FilaAcumulada(utilidad, ultimo)
  {
    var fila := new real[12](_ => 0.0);
    var utilidadAcumulada := 0.0;
    var mes := 1;
    while mes <= 12
      invariant 1 <= mes <= 13
      invariant utilidadAcumulada == SumaHasta(utilidad, if mes - 1 <= ultimo then mes - 1 else if ultimo < 0 then 0 else ultimo)
      invariant forall k :: 0 <= k < mes - 1 ==> fila[k] == FilaAcumulada(utilidad, ultimo)[k]
    {
      if mes > ultimo {
        fila[mes - 1] := 0.0;
      } else {
        utilidadAcumulada := utilidadAcumulada + utilidad[mes - 1];
        fila[mes - 1] := utilidadAcumulada;
      }
      mes := mes + 1;
    }
    acumulada := fila[..];
  }

  /** `calcularFilaDeVariaciones`: each month against January. */
  method CalcularFilaDeVariaciones(total: seq<real>, ultimo: int) returns (variaciones: seq<real>)
    requires |total| == 12
    ensures variaciones == FilaVariacionAnual(total, ultimo)
  {
    var fila := new real[12](_ => 0.0);
    var baseEnero := total[0];
    fila[0] := 0.0;
    var mes := 2;
    while mes <= 12
      invariant 2 <= mes <= 13
      invariant forall k :: 0 <= k < mes - 1 ==> fila[k] == FilaVariacionAnual(total, ultimo)[k]
    {
      if mes > ultimo {
        fila[mes - 1] := 0.0;
      } else {
        fila[mes - 1] := Variacion(total[mes - 1], baseEnero);
      }
      mes := mes + 1;
    }
    variaciones := fila[..];
  }

  /** `calcularFilaVariacionMensual`: each month against the previous one. */
  method CalcularFilaVariacionMensual(total: seq<real>, ultimo: int) returns (variaciones: seq<real>)
    requires |total| == 12
    ensures variaciones == FilaVariacionMensual(total, ultimo)
  {
    var fila := new real[12](_ => 0.0);
    fila[0] := 0.0;
    var mes := 2;
    while mes <= 12
      invariant 2 <= mes <= 13
      invariant forall k :: 0 <= k < mes - 1 ==> fila[k] == FilaVariacionMensual(total, ultimo)[k]
    {
      if mes > ultimo {
        fila[mes - 1] := 0.0;
      } else {
        fila[mes - 1] := Variacion(total[mes - 1], total[mes - 2]);
      }
      mes := mes + 1;
    }
    variaciones := fila[..];
  }

  // ---------------------------------------------------------------------
  // The whole result
  // ---------------------------------------------------------------------

  /** A row with activity: a non-zero annual sum. */
  predicate ConActividad(dto: SaldoMensual)
    requires dto.sumaTotalAnual.Some?
  {
    dto.sumaTotalAnual.value != 0.0
  }

  predicate SinNulos(s: seq<SaldoMensual>) {
    forall k :: 0 <= k < |s| ==> s[k].sumaTotalAnual.Some?
  }

  /** The rows with activity, in order. */
  function Filtrar(s: seq<SaldoMensual>): (r: seq<SaldoMensual>)
    requires SinNulos(s)
    ensures |r| <= |s|
    ensures forall k :: 0 <= k < |r| ==> r[k] in s && r[k].sumaTotalAnual.Some? && ConActividad(r[k])
  {
    if s == [] then []
    else
      var previos := Filtrar(s[..|s| - 1]);
      var x := s[|s| - 1];
      if ConActividad(x) then previos + [x] else previos
  }

  /** The summary rows for the kept rows `f`, one function each. */
  function FilaTotalDe(f: seq<SaldoMensual>): SaldoMensual {
    Resumen("Total general", "", Totales(f))
  }

  function FilaUtilidadDe(f: seq<SaldoMensual>): SaldoMensual {
    var t := Totales(f);
    Resumen("Utilidad/(Pérdida)", "Mensual", FilaUtilidad(t, UltimoMesConDatos(t)))
  }

  function FilaAcumuladaDe(f: seq<SaldoMensual>): SaldoMensual {
    var t := Totales(f);
    var ultimo := UltimoMesConDatos(t);
    Resumen("Utilidad/(Pérdida) Acum.", "Acumulada", FilaAcumulada(FilaUtilidad(t, ultimo), ultimo))
  }

  function FilaVariacionAnualDe(f: seq<SaldoMensual>): SaldoMensual {
    var t := Totales(f);
    Resumen("Variación Anual %", "Var. % vs Enero", FilaVariacionAnual(t, UltimoMesConDatos(t)))
  }

  function FilaVariacionMensualDe(f: seq<SaldoMensual>): SaldoMensual {
    var t := Totales(f);
    Resumen("Variación Mensual %", "Var. % vs Mes Ant.", FilaVariacionMensual(t, UltimoMesConDatos(t)))
  }

  /** The five summary rows, in their fixed order. */
  function FilasResumen(f: seq<SaldoMensual>): (r: seq<SaldoMensual>)
    ensures |r| == 5
  {
    [FilaTotalDe(f), FilaUtilidadDe(f), FilaAcumuladaDe(f), FilaVariacionAnualDe(f), FilaVariacionMensualDe(f)]
  }

  /** `obtenerSaldosMensuales` on the query's rows `consulta`: empty for
      invalid parameters, for a null annual sum (the exception is caught)
      and when no row has activity; otherwise the rows with activity and
      the five summary rows. */
  function SaldosMensuales(razonSocial: Option<string>, custodio: Option<string>, anio: int, moneda: Option<string>,
                           consulta: seq<SaldoMensual>): seq<SaldoMensual>
  {
    if !ValidarParametrosEntrada(razonSocial, custodio, anio, moneda) then []
    else if !SinNulos(consulta) then []
    else
      var f := Filtrar(consulta);
      if f == [] then [] else f + FilasResumen(f)
  }

  /** `procesarResultadosCompletos`: filters, then computes and appends
      the summary rows one method at a time. */
  method ProcesarResultadosCompletos(resultados: seq<SaldoMensual>) returns (r: seq<SaldoMensual>)
    requires SinNulos(resultados)
    ensures r == (if Filtrar(resultados) == [] then [] else Filtrar(resultados) + FilasResumen(Filtrar(resultados)))
  {
    var resultadosFiltrados := Filtrar(resultados);
    if resultadosFiltrados == [] {
      return [];
    }
    var totalRow := CalcularFilaTotal(resultadosFiltrados);
    var ultimoMesConDatos := EncontrarUltimoMesConDatos(totalRow);
    var utilidadRow := CalcularFilaUtilidad(totalRow, ultimoMesConDatos);
    var utilidadAcumuladaRow := CalcularFilaUtilidadAcumulada(utilidadRow, ultimoMesConDatos);
    var variationAnualRow := CalcularFilaDeVariaciones(totalRow, ultimoMesConDatos);
    var variationMensualRow := CalcularFilaVariacionMensual(totalRow, ultimoMesConDatos);
    r := resultadosFiltrados;
    r := r + [Resumen("Total general", "", totalRow)];
    r := r + [Resumen("Utilidad/(Pérdida)", "Mensual", utilidadRow)];
    r := r + [Resumen("Utilidad/(Pérdida) Acum.", "Acumulada", utilidadAcumuladaRow)];
    r := r + [Resumen("Variación Anual %", "Var. % vs Enero", variationAnualRow)];
    r := r + [Resumen("Variación Mensual %", "Var. % vs Mes Ant.", variationMensualRow)];
    assert r == resultadosFiltrados + FilasResumen(resultadosFiltrados);
  }

  /** `obtenerSaldosMensuales`. */
  method ObtenerSaldosMensuales(razonSocial: Option<string>, custodio: Option<string>, anio: int, moneda: Option<string>,
                                consulta: seq<SaldoMensual>)
    returns (r: seq<SaldoMensual>)
    ensures r == SaldosMensuales(razonSocial, custodio, anio, moneda, consulta)
  {
    if !ValidarParametrosEntrada(razonSocial, custodio, anio, moneda) {
      return [];
    }
    if !SinNulos(consulta) {
      return [];
    }
    r := ProcesarResultadosCompletos(consulta);
  }

  // ---------------------------------------------------------------------
  // What the summary rows mean
  // ---------------------------------------------------------------------

  /** The accumulated result telescopes: up to the last month with data,
      month `m` holds the total of `m` minus the total of January. */
  lemma {:induction false} AcumuladaTelescopica(t: seq<real>, ultimo: int, m: nat)
    requires |t| == 12 && 1 <= m <= 12 && m <= ultimo
    ensures SumaHasta(FilaUtilidad(t, ultimo), m) == t[m - 1] - t[0]
  {
    if m > 1 {
      AcumuladaTelescopica(t, ultimo, m - 1);
    }
  }

  lemma ResumenMes(nemo: string, instrumentoNemo: string, v: seq<real>, m: int)
    requires |v| == 12 && 1 <= m <= 12
    ensures Resumen(nemo, instrumentoNemo, v).meses[m - 1] == Some(v[m - 1])
  {
  }

  /** The total row holds the month sums of the kept rows. */
  lemma FilaTotalSuma(f: seq<SaldoMensual>, m: int)
    requires 1 <= m <= 12
    ensures FilaTotalDe(f).meses[m - 1] == Some(TotalMes(f, m))
  {
    ResumenMes("Total general", "", Totales(f), m);
  }

  /** Up to the last month with data the accumulated row holds the total
      minus January, and 0 after it. */
  lemma FilaAcumuladaTelescopa(f: seq<SaldoMensual>, m: int)
    requires 1 <= m <= 12
    ensures var t := Totales(f);
      var ultimo := UltimoMesConDatos(t);
      (m <= ultimo ==> FilaAcumuladaDe(f).meses[m - 1] == Some(t[m - 1] - t[0]))
      && (m > ultimo ==> FilaAcumuladaDe(f).meses[m - 1] == Some(0.0))
  {
    var t := Totales(f);
    var ultimo := UltimoMesConDatos(t);
    ResumenMes("Utilidad/(Pérdida) Acum.", "Acumulada", FilaAcumulada(FilaUtilidad(t, ultimo), ultimo), m);
    if m <= ultimo {
      AcumuladaTelescopica(t, ultimo, m);
    }
  }

  /** January, and every month after the last one with data, is 0 in the
      monthly result and in both variation rows. */
  lemma DerivadasCeroFuera(f: seq<SaldoMensual>, m: int)
    requires 1 <= m <= 12
    requires m == 1 || m > UltimoMesConDatos(Totales(f))
    ensures FilaUtilidadDe(f).meses[m - 1] == Some(0.0)
    ensures FilaVariacionAnualDe(f).meses[m - 1] == Some(0.0)
    ensures FilaVariacionMensualDe(f).meses[m - 1] == Some(0.0)
  {
    var t := Totales(f);
    var ultimo := UltimoMesConDatos(t);
    ResumenMes("Utilidad/(Pérdida)", "Mensual", FilaUtilidad(t, ultimo), m);
    ResumenMes("Variación Anual %", "Var. % vs Enero", FilaVariacionAnual(t, ultimo), m);
    ResumenMes("Variación Mensual %", "Var. % vs Mes Ant.", FilaVariacionMensual(t, ultimo), m);
  }

  /** Up to the last month with data, the monthly result is the change of
      the total and the variations compare with January and with the
      previous month. */
  lemma DerivadasDentro(f: seq<SaldoMensual>, m: int)
    requires 2 <= m <= UltimoMesConDatos(Totales(f))
    ensures var t := Totales(f);
      FilaUtilidadDe(f).meses[m - 1] == Some(t[m - 1] - t[m - 2])
      && FilaVariacionAnualDe(f).meses[m - 1] == Some(Variacion(t[m - 1], t[0]))
      && FilaVariacionMensualDe(f).meses[m - 1] == Some(Variacion(t[m - 1], t[m - 2]))
  {
    var t := Totales(f);
    var ultimo := UltimoMesConDatos(t);
    ResumenMes("Utilidad/(Pérdida)", "Mensual", FilaUtilidad(t, ultimo), m);
    ResumenMes("Variación Anual %", "Var. % vs Enero", FilaVariacionAnual(t, ultimo), m);
    ResumenMes("Variación Mensual %", "Var. % vs Mes Ant.", FilaVariacionMensual(t, ultimo), m);
  }

  /** The last month with data is the largest month with a non-zero
      total, and 0 exactly when every month totals zero. */
  lemma UltimoMesEsElMayor(t: seq<real>)
    requires |t| == 12
    ensures var u := UltimoMesConDatos(t);
      (u == 0 <==> forall k :: 0 <= k < 12 ==> t[k] == 0.0)
      && (u > 0 ==> t[u - 1] != 0.0 && forall k :: u <= k < 12 ==> t[k] == 0.0)
  {
  }

  /** The variation of a value against itself is 0, and any variation is
      within 0.05005 of the exact percentage change. */
  lemma VariacionSignifica(actual: real, base: real)
    requires base != 0.0
    ensures Variacion(base, base) == 0.0
    ensures var exacta := (actual / base - 1.0) * 100.0;
      -0.05005 <= Variacion(actual, base) - exacta <= 0.05005
  {
    assert Pow10(ESCALA_DIVISION) == 1000000;
    assert Pow10(ESCALA_VARIACION) == 10;
    RoundToExact(1, 1000000);
    RoundIntegral(0);
    assert Divide(base, base, ESCALA_DIVISION) == 1.0 by {
      assert base / base == 1.0;
      assert RoundTo(1 as real, 1000000) == 1 as real;
    }
    var q := Divide(actual, base, ESCALA_DIVISION);
    RoundToBound(actual / base, 1000000);
    var y := (q - 1.0) * 100.0;
    RoundToBound(y, 10);
  }

  /** With valid parameters and no null annual sum, the result is empty
      exactly when no row has activity; otherwise it is the rows with
      activity, in order, then the five summary rows. */
  lemma SaldosMensualesForma(razonSocial: Option<string>, custodio: Option<string>, anio: int, moneda: Option<string>,
                             consulta: seq<SaldoMensual>)
    requires ValidarParametrosEntrada(razonSocial, custodio, anio, moneda) && SinNulos(consulta)
    ensures var r := SaldosMensuales(razonSocial, custodio, anio, moneda, consulta);
      var f := Filtrar(consulta);
      (r == [] <==> forall k :: 0 <= k < |consulta| ==> !ConActividad(consulta[k]))
      && (r != [] ==> |r| == |f| + 5 && r[..|f|] == f
                      && r[|f|].nemo == "Total general" && r[|f| + 4].nemo == "Variación Mensual %")
  {
    FiltrarVacio(consulta);
    var f := Filtrar(consulta);
    if f != [] {
      assert (f + FilasResumen(f))[..|f|] == f;
    }
  }

  lemma {:induction false} FiltrarVacio(s: seq<SaldoMensual>)
    requires SinNulos(s)
    ensures Filtrar(s) == [] <==> forall k :: 0 <= k < |s| ==> !ConActividad(s[k])
  {
    if s != [] {
      var u := s[..|s| - 1];
      var x := s[|s| - 1];
      assert SinNulos(u);
      FiltrarVacio(u);
      forall k | 0 <= k < |u| ensures s[k] == u[k] {
      }
      assert (forall k :: 0 <= k < |s| ==> !ConActividad(s[k]))
         <==> (forall k :: 0 <= k < |u| ==> !ConActividad(u[k])) && !ConActividad(x);
    }
  }
}
