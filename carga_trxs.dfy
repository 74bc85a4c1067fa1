/** The monthly custodian-file loader `carga_trxs.py`: cell normalisation
    (`limpiar_valor`), the file-name date (`extraer_fecha_archivo`), the
    choice of the latest file of each month, and the two sheet loaders that
    insert the normalised rows into `carga_trxs_caja` and
    `carga_trxs_movimientos`.

    The spreadsheet reader and pandas' date parser are parameters; the
    database is the `Conexion` class. */
module CargaTrxs {
  import opened Wrappers
  import opened Text
  import opened Decimal
  import opened Calendar

  // ---------------------------------------------------------------------
  // Cells and normalised values
  // ---------------------------------------------------------------------

  /** A spreadsheet cell as pandas hands it over. `Missing` is whatever
      `pd.isna` accepts (None, NaN, NaT); a `Num` carries its value and the
      text `str()` renders for it; `Stamp` is a pandas Timestamp at
      midnight. */
  datatype Cell = Missing | Str(s: string) | Num(value: real, text: string) | Stamp(date: Date)

  /** The `tipo` argument of `limpiar_valor`. */
  datatype Kind = Texto | Numero | Fecha

  /** What `limpiar_valor` returns: None, a float, a date, a stripped
      string, or the cell itself when text coercion passes it through. */
  datatype Value = Null | Number(x: real) | Day(d: Date) | Stripped(s: string) | Raw(c: Cell)

  /** pandas' `to_datetime` on one cell: a Timestamp is its own date, every
      other cell goes to the parser the caller supplies (None = failure). */
  function ToDatetime(parse: Cell -> Option<Date>, c: Cell): Option<Date> {
    if c.Stamp? then Some(c.date) else parse(c)
  }

  /** The first test of `limpiar_valor`: `pd.isna(valor)` or a blank string. */
  predicate IsEmptyCell(c: Cell) {
    c.Missing? || (c.Str? && Strip(c.s) == [])
  }

  // ---------------------------------------------------------------------
  // Python `float()` on text
  // ---------------------------------------------------------------------

  /** Python `float()` on a decimal literal: surrounding whitespace, an
      optional sign, then a mantissa of digits with at most one '.' and at
      least one digit, and an optional exponent: 'e' or 'E', an optional
      sign and digits. None where Python raises `ValueError`. */
  function ParseFloat(s: string): (r: Option<real>)
    ensures r.Some? ==> Strip(s) != []
    ensures r.Some? && Strip(s)[0] == '-' ==> r.value <= 0.0
    ensures r.Some? && Strip(s)[0] != '-' ==> r.value >= 0.0
  {
    ParseSigned(Strip(s))
  }

  /** An optional sign, then an unsigned literal. */
  function ParseSigned(t: string): (r: Option<real>)
    ensures r.Some? ==> t != []
    ensures r.Some? && t[0] == '-' ==> r.value <= 0.0
    ensures r.Some? && t[0] != '-' ==> r.value >= 0.0
  {
    if t == [] then None
    else
      var negative := t[0] == '-';
      var body := if t[0] == '-' || t[0] == '+' then t[1..] else t;
      var m := ParseUnsigned(body);
      if m.None? then None
      else if negative then Some(-m.value) else Some(m.value)
  }

  /** Surrounding whitespace does not change what `float()` reads. */
  lemma ParseFloatStrip(s: string)
    ensures ParseFloat(Strip(s)) == ParseFloat(s)
  {
    var t := StripIdempotent(s);
  }

  /** A leading '-' negates what the rest reads as, and fails where the
      rest fails. */
  lemma ParseFloatNegativo(t: string)
    requires t != [] && IsDigit(t[0]) && !IsWhitespace(t[|t| - 1])
    ensures ParseFloat("-" + t) == if ParseFloat(t).Some? then Some(-ParseFloat(t).value) else None
  {
    var u := "-" + t;
    assert u[|u| - 1] == t[|t| - 1];
    StripFijo(u);
    StripFijo(t);
    ParseSignedNegativo(t);
  }

  lemma ParseSignedNegativo(t: string)
    requires t != [] && IsDigit(t[0])
    ensures ParseSigned("-" + t) == if ParseUnsigned(t).Some? then Some(-ParseUnsigned(t).value) else None
    ensures ParseSigned(t) == ParseUnsigned(t)
  {
    var u := "-" + t;
    assert u != [] && u[0] == '-' && u[1..] == t;
    var m := ParseUnsigned(t);
    assert ParseSigned(u) == if m.None? then None else Some(-m.value);
  }

  /** The position of the first 'e' or 'E' of `s`, or `|s|` if it has none. */
  function PrimeraE(s: string): (i: nat)
    ensures i <= |s|
    ensures forall j :: 0 <= j < i ==> s[j] != 'e' && s[j] != 'E'
    ensures i < |s| ==> s[i] == 'e' || s[i] == 'E'
  {
    if s == [] || s[0] == 'e' || s[0] == 'E' then 0 else 1 + PrimeraE(s[1..])
  }

  /** A mantissa, then an exponent if there is an 'e' or 'E'. */
  function ParseUnsigned(body: string): (r: Option<real>)
    ensures r.Some? ==> r.value >= 0.0
  {
    var i := PrimeraE(body);
    var m := ParseMantissa(body[..i]);
    if i == |body| || m.None? then m
    else match ParseExponente(body[i + 1..])
      case None => None
      case Some(e) => Some(Escalar(m.value, e))
  }

  /** Digits with at most one '.', at least one digit in total. */
  function ParseMantissa(body: string): (r: Option<real>)
    ensures r.Some? ==> r.value >= 0.0
  {
    var parts := SplitAll(body, '.');
    if |parts| == 1 && body != [] && AllDigits(body) then Some(DigitsValue(body) as real)
    else if |parts| == 2 && AllDigits(parts[0]) && AllDigits(parts[1]) && |parts[0]| + |parts[1]| >= 1 then
      Some(DecimalValue(parts[0], parts[1]))
    else None
  }

  /** An exponent: an optional sign, then at least one digit. */
  function ParseExponente(t: string): Option<int> {
    var ds := if t != [] && (t[0] == '-' || t[0] == '+') then t[1..] else t;
    if t != [] && ds != [] && AllDigits(ds) then
      Some(if t[0] == '-' then -(DigitsValue(ds) as int) else DigitsValue(ds))
    else None
  }

  /** `x` times ten to the power `e`, for any whole `e`. */
  function Escalar(x: real, e: int): (r: real)
    requires x >= 0.0
    ensures r >= 0.0
  {
    if e >= 0 then x * Pow10(e) as real else x / Pow10(-e) as real
  }

  /** Text with no 'e' or 'E' has no exponent: it is all mantissa. */
  lemma SinExponente(s: string)
    requires forall j :: 0 <= j < |s| ==> s[j] != 'e' && s[j] != 'E'
    ensures PrimeraE(s) == |s| && ParseUnsigned(s) == ParseMantissa(s)
  {
    assert s[..|s|] == s;
  }

  /** A decimal literal `ip.fp` is read as ip + fp / 10^|fp|. */
  lemma ParseFloatDecimal(ip: string, fp: string)
    requires ip != [] && AllDigits(ip) && AllDigits(fp)
    ensures ParseFloat(ip + "." + fp) == Some(DecimalValue(ip, fp))
  {
    var t := ip + "." + fp;
    StripDigits(t);
    assert t[0] == ip[0];
    MantissaDecimal(ip, fp);
    DecimalSinExponente(ip, fp);
  }

  lemma MantissaDecimal(ip: string, fp: string)
    requires ip != [] && AllDigits(ip) && AllDigits(fp)
    ensures ParseMantissa(ip + "." + fp) == Some(DecimalValue(ip, fp))
  {
    var t := ip + "." + fp;
    DigitsHaveNoDot(ip);
    DigitsHaveNoDot(fp);
    assert SplitAll(t, '.') == [ip, fp] by {
      SplitJoin([ip, fp], '.');
      assert Join([ip, fp], '.') == t;
    }
  }

  lemma DecimalSinExponente(ip: string, fp: string)
    requires AllDigits(ip) && AllDigits(fp)
    ensures ParseUnsigned(ip + "." + fp) == ParseMantissa(ip + "." + fp)
  {
    var t := ip + "." + fp;
    forall j | 0 <= j < |t| ensures t[j] != 'e' && t[j] != 'E' {
      if j < |ip| {
        assert t[j] == ip[j];
      } else if j > |ip| {
        assert t[j] == fp[j - |ip| - 1];
      }
    }
    SinExponente(t);
  }

  /** The first 'e' or 'E' after a prefix without one. */
  lemma {:induction false} PrimeraETras(n: string, resto: string)
    requires forall j :: 0 <= j < |n| ==> n[j] != 'e' && n[j] != 'E'
    requires resto != [] && (resto[0] == 'e' || resto[0] == 'E')
    ensures PrimeraE(n + resto) == |n|
  {
    if n != [] {
      assert (n + resto)[1..] == n[1..] + resto;
      PrimeraETras(n[1..], resto);
    }
  }

  /** A run of digits with an exponent is the integer times the power of
      ten the exponent gives. */
  lemma ParseFloatExponente(n: string, e: char, cola: string, k: int)
    requires n != [] && AllDigits(n) && (e == 'e' || e == 'E')
    requires ParseExponente(cola) == Some(k)
    ensures ParseFloat(n + [e] + cola) == Some(Escalar(DigitsValue(n) as real, k))
  {
    var t := n + ([e] + cola);
    assert n + [e] + cola == t;
    assert cola != [] && IsDigit(cola[|cola| - 1]);
    assert t[0] == n[0] && t[|t| - 1] == cola[|cola| - 1];
    StripDigits(t);
    ParseFloatSinSigno(t);
    ExponenteUnsigned(n, e, cola, k);
  }

  lemma ExponenteUnsigned(n: string, e: char, cola: string, k: int)
    requires n != [] && AllDigits(n) && (e == 'e' || e == 'E')
    requires ParseExponente(cola) == Some(k)
    ensures ParseUnsigned(n + ([e] + cola)) == Some(Escalar(DigitsValue(n) as real, k))
  {
    CortesExponente(n, e, cola);
    MantissaEntera(n);
    UnsignedPartes(n + ([e] + cola), |n|, n, cola, DigitsValue(n) as real, k);
  }

  /** Digits, then 'e' or 'E' and the rest: the first 'e' or 'E' is the
      one after the digits, and the text splits around it. */
  lemma CortesExponente(n: string, e: char, cola: string)
    requires AllDigits(n) && (e == 'e' || e == 'E')
    ensures var t := n + ([e] + cola);
      PrimeraE(t) == |n| && t[..|n|] == n && t[|n| + 1..] == cola
  {
    DigitsHaveNoDot(n);
    assert forall j :: 0 <= j < |n| ==> n[j] in n;
    PrimeraETras(n, [e] + cola);
    assert ([e] + cola)[1..] == cola;
  }

  /** Past the first 'e' or 'E', a mantissa and an exponent that both
      parse give the scaled mantissa. */
  lemma UnsignedPartes(t: string, i: nat, mantisa: string, exponente: string, m: real, k: int)
    requires PrimeraE(t) == i < |t| && t[..i] == mantisa && t[i + 1..] == exponente
    requires ParseMantissa(mantisa) == Some(m) && ParseExponente(exponente) == Some(k)
    ensures ParseUnsigned(t) == Some(Escalar(m, k))
  {
  }

  /** Text that strip leaves alone and that starts with a digit has no
      sign: its float is its unsigned reading. */
  lemma ParseFloatSinSigno(t: string)
    requires t != [] && Strip(t) == t && IsDigit(t[0])
    ensures ParseFloat(t) == ParseUnsigned(t)
  {
  }

  lemma MantissaEntera(n: string)
    requires n != [] && AllDigits(n)
    ensures ParseMantissa(n) == Some(DigitsValue(n) as real)
  {
    DigitsHaveNoDot(n);
    SplitNoSep(n, '.');
  }

  /** An exponent without a sign is the number its digits write. */
  lemma ExponenteSinSigno(x: string)
    requires x != [] && AllDigits(x)
    ensures ParseExponente(x) == Some(DigitsValue(x) as int)
  {
    assert IsDigit(x[0]);
  }

  /** A signed exponent is the number its digits write, negated after '-'. */
  lemma ExponenteConSigno(c: char, x: string)
    requires c == '+' || c == '-'
    requires x != [] && AllDigits(x)
    ensures ParseExponente([c] + x) == Some(if c == '-' then -(DigitsValue(x) as int) else DigitsValue(x))
  {
    assert ([c] + x)[0] == c;
    assert ([c] + x)[1..] == x;
  }

  /** "1E3" reads as 1000. */
  lemma ParseFloatMil(s: string)
    requires s == "1E3"
    ensures ParseFloat(s) == Some(1000.0)
  {
    var n, cola := "1", "3";
    assert s == n + ['E'] + cola by {
      assert |s| == |n + ['E'] + cola|;
    }
    assert ParseExponente(cola) == Some(3) by {
      DigitsValueSnoc("", '3');
      assert "" + ['3'] == cola;
    }
    assert DigitsValue(n) == 1 by {
      DigitsValueSnoc("", '1');
      assert "" + ['1'] == n;
    }
    ParseFloatExponente(n, 'E', cola, 3);
    assert Escalar(1.0, 3) == 1000.0 by {
      assert Pow10(3) == 1000;
    }
  }

  /** "1e-05" reads as 0.00001. */
  lemma ParseFloatCienMilesima(s: string)
    requires s == "1e-05"
    ensures ParseFloat(s) == Some(0.00001)
  {
    var n, cola := "1", "-05";
    assert s == n + ['e'] + cola by {
      assert |s| == |n + ['e'] + cola|;
    }
    ExponenteMenosCinco(cola);
    assert DigitsValue(n) == 1 by {
      DigitsValueSnoc("", '1');
      assert "" + ['1'] == n;
    }
    ParseFloatExponente(n, 'e', cola, -5);
    EscalarMenosCinco();
  }

  lemma EscalarMenosCinco()
    ensures Escalar(1.0, -5) == 0.00001
  {
    assert Pow10(5) == 100000;
    assert 1.0 / 100000.0 == 0.00001;
  }

  lemma ExponenteMenosCinco(cola: string)
    requires cola == "-05"
    ensures ParseExponente(cola) == Some(-5)
  {
    DigitsValueSnoc("", '0');
    DigitsValueSnoc("0", '5');
    assert "" + ['0'] == "0" && "0" + ['5'] == cola[1..];
  }

  /** A run of digits is read as the integer it denotes. */
  lemma ParseFloatInteger(n: string)
    requires n != [] && AllDigits(n)
    ensures ParseFloat(n) == Some(DigitsValue(n) as real)
  {
    StripDigits(n);
    DigitsHaveNoDot(n);
    SplitNoSep(n, '.');
    assert forall j :: 0 <= j < |n| ==> n[j] in n;
    SinExponente(n);
  }

  /** Stripping leaves alone a string that begins with a digit and ends
      with a digit or a '.'. */
  lemma StripDigits(t: string)
    requires t != [] && (IsDigit(t[0]) || t[0] == '.') && (IsDigit(t[|t| - 1]) || t[|t| - 1] == '.')
    ensures Strip(t) == t
  {
    assert !IsWhitespace(t[0]);
    assert StripStart(t) == t;
    assert !IsWhitespace(t[|t| - 1]);
    assert StripEnd(t) == t;
  }

  // ---------------------------------------------------------------------
  // limpiar_valor
  // ---------------------------------------------------------------------

  /** The text that numeric coercion hands to `float()`: every '.' removed,
      ',' turned into '.', then stripped. */
  function NumericText(t: string): string {
    Strip(ReplaceChar(RemoveChar(t, '.'), ',', '.'))
  }

  /** Numeric coercion as written: `float(str(valor).replace('.', '')
      .replace(',', '.').strip())`, 0 on any failure. The thousands-dot
      removal is also applied to numbers pandas already read as floats, whose
      `str()` uses '.' as the decimal point. */
  function CoerceNumberAsWritten(c: Cell): (r: real)
    requires !IsEmptyCell(c)
    ensures c.Str? ==> r == CoerceNumber(c)
    ensures c.Num? && Strip(c.text) != [] ==> r == CoerceNumber(Str(c.text))
    ensures c.Stamp? ==> r == 0.0
  {
    match c
    case Str(s) => ParseFloat(NumericText(s)).GetOr(0.0)
    case Num(_, text) => ParseFloat(NumericText(text)).GetOr(0.0)
    case Stamp(_) => 0.0
  }

  /** Numeric coercion with the locale conversion applied to text cells
      only; a cell pandas already read as a number keeps its value. */
  function CoerceNumber(c: Cell): (r: real)
    requires !IsEmptyCell(c)
    ensures c.Num? ==> r == c.value
    ensures c.Stamp? ==> r == 0.0
    ensures c.Str? && ParseFloat(NumericText(c.s)).None? ==> r == 0.0
    ensures c.Str? && ParseFloat(NumericText(c.s)).Some? ==> r == ParseFloat(NumericText(c.s)).value
  {
    match c
    case Str(s) => ParseFloat(NumericText(s)).GetOr(0.0)
    case Num(v, _) => v
    case Stamp(_) => 0.0
  }

  /** `limpiar_valor(valor, tipo)`, with the numeric branch corrected as
      in `CoerceNumber`. */
  function LimpiarValor(c: Cell, tipo: Kind, parse: Cell -> Option<Date>): (r: Value)
    ensures tipo == Numero ==> r.Number?
    ensures tipo == Fecha ==> r.Day? || r.Null?
    ensures tipo == Texto ==> r.Null? || r.Stripped? || r.Raw?
    ensures IsEmptyCell(c) ==> r == (if tipo == Numero then Number(0.0) else Null)
    ensures r.Stripped? ==> c.Str? && Strip(r.s) == r.s && r.s != []
    ensures !IsEmptyCell(c) && tipo == Numero ==> r == Number(CoerceNumber(c))
    ensures !IsEmptyCell(c) && tipo == Fecha ==>
              r == (match ToDatetime(parse, c) case Some(d) => Day(d) case None => Null)
    ensures !IsEmptyCell(c) && tipo == Texto ==> r == (if c.Str? then Stripped(Strip(c.s)) else Raw(c))
  {
    if IsEmptyCell(c) then (if tipo == Numero then Number(0.0) else Null)
    else if tipo == Numero then Number(CoerceNumber(c))
    else if tipo == Fecha then
      match ToDatetime(parse, c)
      case Some(d) => Day(d)
      case None => Null
    else if c.Str? then Stripped(StripIdempotent(c.s))
    else Raw(c)
  }

  /** `Strip(s)`, together with the fact that stripping twice changes nothing. */
  function StripIdempotent(s: string): (r: string)
    ensures r == Strip(s) && Strip(r) == r
  {
    var t := Strip(s);
    assert StripStart(t) == t;
    assert StripEnd(t) == t;
    t
  }

  /** Text in the Chilean format, '.' between thousands and ',' before the
      decimals ("1.234,56"), is read as the number it denotes (1234.56). */
  lemma ChileanFormat(w: string, fp: string)
    requires RemoveChar(w, '.') != [] && AllDigits(RemoveChar(w, '.'))
    requires AllDigits(fp)
    ensures LimpiarValor(Str(w + "," + fp), Numero, _ => None)
         == Number(DecimalValue(RemoveChar(w, '.'), fp))
  {
    var ip := RemoveChar(w, '.');
    ChileanText(w, fp);
    ParseFloatDecimal(ip, fp);
    ChileanNotBlank(w, fp);
  }

  lemma ChileanText(w: string, fp: string)
    requires RemoveChar(w, '.') != [] && AllDigits(RemoveChar(w, '.'))
    requires AllDigits(fp)
    ensures NumericText(w + "," + fp) == RemoveChar(w, '.') + "." + fp
  {
    var ip := RemoveChar(w, '.');
    ChileanDotsRemoved(w, fp);
    ChileanCommaReplaced(ip, fp);
    StripDigits(ip + "." + fp);
  }

  lemma ChileanNotBlank(w: string, fp: string)
    requires RemoveChar(w, '.') != [] && AllDigits(RemoveChar(w, '.'))
    ensures !IsEmptyCell(Str(w + "," + fp))
  {
    var ip := RemoveChar(w, '.');
    var x := w + "," + fp;
    assert ip[0] in w;
    var j :| 0 <= j < |w| && w[j] == ip[0];
    assert x[j] == w[j];
    assert !IsWhitespace(x[j]);
  }

  /** A cell pandas read as a number keeps its value under the corrected
      coercion. */
  lemma NumeroKeepsNumbers(v: real, text: string)
    ensures LimpiarValor(Num(v, text), Numero, _ => None) == Number(v)
  {
  }

  /** As written, a float cell whose `str()` is `ip.fp` has its decimal
      point removed and is stored as the integer with digits ip fp. */
  lemma CoerceNumberAsWrittenDropsPoint(v: real, ip: string, fp: string)
    requires ip != [] && AllDigits(ip) && AllDigits(fp)
    ensures CoerceNumberAsWritten(Num(v, ip + "." + fp)) == DigitsValue(ip + fp) as real
  {
    DigitsHaveNoDot(ip);
    DigitsHaveNoDot(fp);
    RemoveCharConcat(ip, "." + fp, '.');
    RemoveCharConcat(".", fp, '.');
    RemoveAbsentChar(ip, '.');
    RemoveAbsentChar(fp, '.');
    assert ip + "." + fp == ip + ("." + fp);
    var n := ip + fp;
    assert RemoveChar(ip + "." + fp, '.') == n;
    assert AllDigits(n);
    DigitsHaveNoDot(n);
    assert ReplaceChar(n, ',', '.') == n;
    ParseFloatInteger(n);
    StripDigits(n);
  }

  /** The float 10.5, rendered "10.5", is stored as 105 as written. */
  lemma CoerceNumberAsWrittenFloat(text: string)
    requires text == "10.5"
    ensures CoerceNumberAsWritten(Num(10.5, text)) == 105.0
  {
    var ip, fp := "10", "5";
    assert text == ip + "." + fp;
    CoerceNumberAsWrittenDropsPoint(10.5, ip, fp);
    DigitsOneHundredFive(ip, fp);
  }

  lemma DigitsOneHundredFive(ip: string, fp: string)
    requires ip == "10" && fp == "5"
    ensures DigitsValue(ip + fp) == 105
  {
    DigitsValueSnoc("", '1');
    DigitsValueSnoc("1", '0');
    DigitsValueSnoc("10", '5');
    assert "" + ['1'] == "1" && "1" + ['0'] == "10" && "10" + ['5'] == "105" && ip + fp == "105";
  }

  // ---------------------------------------------------------------------
  // extraer_fecha_archivo
  // ---------------------------------------------------------------------

  /** The end of the run of digits that starts at `i`. */
  function DigitRunEnd(s: string, i: nat): (j: nat)
    requires i <= |s|
    ensures i <= j <= |s|
    ensures forall k :: i <= k < j ==> IsDigit(s[k])
    ensures j == |s| || !IsDigit(s[j])
    decreases |s| - i
  {
    if i < |s| && IsDigit(s[i]) then DigitRunEnd(s, i + 1) else i
  }

  /** The group `(\d{8})` when `mvtos_\d+_(\d{8})_\d+` matches at position
      `i`. The `\d+` after "mvtos_" can only end where the digit run ends,
      because the '_' after it is not a digit. */
  function MatchAt(s: string, i: nat): (g: Option<string>)
    requires i <= |s|
    ensures g.Some? ==> |g.value| == 8 && AllDigits(g.value)
  {
    if i + 6 <= |s| && s[i..i + 6] == "mvtos_" then
      var j := DigitRunEnd(s, i + 6);
      if j > i + 6 && j + 11 <= |s| && s[j] == '_' && AllDigits(s[j + 1..j + 9])
         && s[j + 9] == '_' && IsDigit(s[j + 10])
      then Some(s[j + 1..j + 9])
      else None
    else None
  }

  /** `re.search`: the match that starts leftmost, scanning from `i`. */
  function SearchFrom(s: string, i: nat): (r: Option<string>)
    requires i <= |s|
    ensures r.None? <==> forall k :: i <= k <= |s| ==> MatchAt(s, k).None?
    ensures r.Some? ==> |r.value| == 8 && AllDigits(r.value)
    decreases |s| - i
  {
    if MatchAt(s, i).Some? then MatchAt(s, i)
    else if i == |s| then None
    else SearchFrom(s, i + 1)
  }

  /** The search returns the group of the leftmost position where the
      pattern matches. */
  lemma {:induction false} SearchLeftmost(s: string, i: nat, k: nat)
    requires i <= k <= |s| && MatchAt(s, k).Some?
    requires forall j :: i <= j < k ==> MatchAt(s, j).None?
    ensures SearchFrom(s, i) == MatchAt(s, k)
    decreases k - i
  {
    if i < k {
      assert MatchAt(s, i).None?;
      assert SearchFrom(s, i) == SearchFrom(s, i + 1);
      SearchLeftmost(s, i + 1, k);
    }
  }

  /** `datetime.strptime(g, "%Y%m%d")` on eight ASCII digits. Python's
      directive patterns accept a one-digit month or day too, but then the
      eight digits are not all consumed and "unconverted data remains" is
      raised; so the call succeeds exactly when YYYY, MM and DD name a date
      of years 1 to 9999. None stands for the `ValueError`. */
  function StrptimeYmd(g: string): (r: Option<Date>)
    requires |g| == 8 && AllDigits(g)
    ensures r.Some? ==> ValidDate(r.value) && 1 <= r.value.year <= 9999
  {
    var d := Date(DigitsValue(g[..4]), DigitsValue(g[4..6]), DigitsValue(g[6..]));
    assert d.year < 10000 by { DigitsBound(g[..4]); }
    if d.year >= 1 && ValidDate(d) then Some(d) else None
  }

  /** The error `extraer_fecha_archivo` lets escape. */
  datatype PyError = ValueError

  /** `extraer_fecha_archivo` as written: the `ValueError` of a matching name
      whose eight digits are not a date escapes to the caller, and the
      caller does not catch it. */
  function ExtraerFechaArchivoAsWritten(nombre: string): (r: Result<Option<Date>, PyError>)
    ensures r == Ok(None) <==> SearchFrom(nombre, 0).None?
    ensures r.Ok? && r.value.Some? ==> ValidDate(r.value.value)
    ensures r.Err? ==> SearchFrom(nombre, 0).Some? && StrptimeYmd(SearchFrom(nombre, 0).value).None?
  {
    match SearchFrom(nombre, 0)
    case None => Ok(None)
    case Some(g) =>
      match StrptimeYmd(g)
      case Some(d) => Ok(Some(d))
      case None => Err(ValueError)
  }

  /** `extraer_fecha_archivo` with an impossible date treated like a name
      that does not match: the file is skipped. */
  function ExtraerFechaArchivo(nombre: string): (r: Option<Date>)
    ensures r.Some? ==> ValidDate(r.value)
  {
    match SearchFrom(nombre, 0)
    case None => None
    case Some(g) => StrptimeYmd(g)
  }

  /** The corrected extraction agrees with the original wherever the
      original returns, and skips the file where the original raises. */
  lemma ExtraerFechaCorrects(nombre: string)
    ensures ExtraerFechaArchivoAsWritten(nombre).Ok? ==> ExtraerFechaArchivo(nombre) == ExtraerFechaArchivoAsWritten(nombre).value
    ensures ExtraerFechaArchivoAsWritten(nombre).Err? ==> ExtraerFechaArchivo(nombre).None?
  {
  }

  /** The eight digits `strftime("%Y%m%d")` writes for a date. */
  function Ymd(d: Date): string
    requires 0 <= d.year < 10000 && 0 <= d.month < 100 && 0 <= d.day < 100
  {
    Pad(d.year, 4) + Pad(d.month, 2) + Pad(d.day, 2)
  }

  /** A custodian file name: "mvtos_<cuenta>_<YYYYMMDD>_<n><ext>". */
  function FileName(cuenta: nat, d: Date, n: nat, ext: string): string
    requires 0 <= d.year < 10000 && 0 <= d.month < 100 && 0 <= d.day < 100
  {
    "mvtos_" + NatToString(cuenta) + "_" + Ymd(d) + "_" + NatToString(n) + ext
  }

  /** The pattern finds the eight date digits of such a name. */
  lemma FileNameMatches(cuenta: nat, d: Date, n: nat, ext: string)
    requires 0 <= d.year < 10000 && 0 <= d.month < 100 && 0 <= d.day < 100
    ensures SearchFrom(FileName(cuenta, d, n, ext), 0) == Some(Ymd(d))
  {
    var s := FileName(cuenta, d, n, ext);
    var c := NatToString(cuenta);
    var g := Ymd(d);
    var k := NatToString(n);
    assert s == "mvtos_" + c + "_" + g + "_" + k + ext;
    assert s[..6] == "mvtos_";
    var j := 6 + |c|;
    assert forall x :: 6 <= x < j ==> s[x] == c[x - 6];
    assert s[j] == '_';
    assert DigitRunEnd(s, 6) == j;
    assert s[j + 1..j + 9] == g;
    assert s[j + 9] == '_';
    assert s[j + 10] == k[0];
    assert MatchAt(s, 0) == Some(g);
  }

  /** `strptime` reads back the date `Ymd` wrote, and fails exactly when the
      fields do not name a date. */
  lemma StrptimeYmdRoundTrip(d: Date)
    requires 0 <= d.year < 10000 && 0 <= d.month < 100 && 0 <= d.day < 100
    ensures StrptimeYmd(Ymd(d)) == if d.year >= 1 && ValidDate(d) then Some(d) else None
  {
    var g := Ymd(d);
    assert g[..4] == Pad(d.year, 4);
    assert g[4..6] == Pad(d.month, 2);
    assert g[6..] == Pad(d.day, 2);
    PadValue(d.year, 4);
    PadValue(d.month, 2);
    PadValue(d.day, 2);
  }

  /** The date of a well-formed custodian file name is extracted exactly. */
  lemma ExtraerFechaRoundTrip(cuenta: nat, d: Date, n: nat, ext: string)
    requires ValidDate(d) && 1 <= d.year <= 9999
    ensures ExtraerFechaArchivo(FileName(cuenta, d, n, ext)) == Some(d)
  {
    FileNameMatches(cuenta, d, n, ext);
    StrptimeYmdRoundTrip(d);
  }

  /** As written, a well-formed name with an impossible date raises
      `ValueError`; the corrected extraction skips it. */
  lemma ExtraerFechaImpossibleDate(cuenta: nat, d: Date, n: nat, ext: string)
    requires 1 <= d.year < 10000 && 1 <= d.month <= 12 && 0 <= d.day < 100 && !ValidDate(d)
    ensures ExtraerFechaArchivoAsWritten(FileName(cuenta, d, n, ext)) == Err(ValueError)
    ensures ExtraerFechaArchivo(FileName(cuenta, d, n, ext)) == None
  {
    FileNameMatches(cuenta, d, n, ext);
    StrptimeYmdRoundTrip(d);
  }

  /** "mvtos_1_20240230_1.xlsx": February 30th aborts the run as written. */
  lemma ExtraerFechaFebruary30()
    ensures ExtraerFechaArchivoAsWritten(FileName(1, Date(2024, 2, 30), 1, ".xlsx")) == Err(ValueError)
  {
    ExtraerFechaImpossibleDate(1, Date(2024, 2, 30), 1, ".xlsx");
  }

  /** The pattern is case-sensitive: an upper-case prefix never matches,
      although the eligibility test lower-cases the name. */
  lemma UpperCasePrefixNeverMatches(s: string)
    requires forall i :: 0 <= i < |s| ==> s[i] != 'm'
    ensures ExtraerFechaArchivo(s) == None
  {
    forall k | 0 <= k <= |s| ensures MatchAt(s, k).None? {
      if k + 6 <= |s| {
        assert s[k..k + 6][0] == s[k];
      }
    }
  }

  // ---------------------------------------------------------------------
  // The latest file of each month
  // ---------------------------------------------------------------------

  /** The name test of the selection loop, on the lower-cased name. */
  predicate Eligible(archivo: string) {
    var l := Lower(archivo);
    StartsWith(l, "mvtos_") && (EndsWith(l, ".xlsx") || EndsWith(l, ".xls") || EndsWith(l, ".xlsm"))
  }

  /** The test ignores case, and an eligible name is long enough to hold
      both the prefix and an extension: the prefix has no '.' for the
      extension to overlap. */
  lemma EligibleForma(archivo: string)
    ensures Eligible(archivo) <==> Eligible(Lower(archivo))
    ensures Eligible(archivo) ==> |archivo| >= 10
  {
    var l := Lower(archivo);
    assert Lower(l) == l;
    if Eligible(archivo) {
      var j := if EndsWith(l, ".xls") then |l| - 4 else |l| - 5;
      assert l[j] == '.';
      assert forall i :: 0 <= i < 6 ==> l[i] != '.' by {
        assert forall i :: 0 <= i < 6 ==> l[i] == l[..6][i];
        assert l[..6] == "mvtos_";
      }
    }
  }

  /** The date the selection loop files a name under, if any. */
  function FechaDe(archivo: string): Option<Date> {
    if Eligible(archivo) then ExtraerFechaArchivo(archivo) else None
  }

  /** A directory entry together with its date. */
  datatype Listed = Listed(archivo: string, fecha: Option<Date>)

  function Listing(files: seq<string>): (ls: seq<Listed>)
    ensures |ls| == |files|
    ensures forall i :: 0 <= i < |files| ==> ls[i] == Listed(files[i], FechaDe(files[i]))
  {
    seq(|files|, i requires 0 <= i < |files| => Listed(files[i], FechaDe(files[i])))
  }

  datatype Choice = Choice(archivo: string, fecha: Date)

  /** The dict `archivos_por_mes`: its keys in insertion order and its
      entries. Reassigning a key keeps its position, as in a Python dict. */
  datatype Selection = Selection(order: seq<YearMonth>, chosen: map<YearMonth, Choice>)

  /** One iteration of the selection loop. */
  function Offer(sel: Selection, l: Listed): Selection {
    match l.fecha
    case None => sel
    case Some(f) =>
      var k := MonthOf(f);
      if k !in sel.chosen then Selection(sel.order + [k], sel.chosen[k := Choice(l.archivo, f)])
      else if Before(sel.chosen[k].fecha, f) then Selection(sel.order, sel.chosen[k := Choice(l.archivo, f)])
      else sel
  }

  /** The selection after the loop has seen the entries `ls` in order. */
  function SelectFrom(ls: seq<Listed>): Selection {
    if ls == [] then Selection([], map[])
    else Offer(SelectFrom(ls[..|ls| - 1]), ls[|ls| - 1])
  }

  function SelectLatest(files: seq<string>): (r: Selection)
    ensures WellFormed(r)
  {
    SelectFromWellFormed(Listing(files));
    SelectFrom(Listing(files))
  }

  /** The selection loop over the directory listing. */
  method SeleccionarArchivos(files: seq<string>) returns (sel: Selection)
    ensures sel == SelectLatest(files)
  {
    sel := Selection([], map[]);
    ghost var ls := Listing(files);
    var i := 0;
    while i < |files|
      invariant 0 <= i <= |files|
      invariant sel == SelectFrom(ls[..i])
    {
      var archivo := files[i];
      if Eligible(archivo) {
        var fecha := ExtraerFechaArchivo(archivo);
        if fecha.Some? {
          var clave := MonthOf(fecha.value);
          if clave !in sel.chosen || Before(sel.chosen[clave].fecha, fecha.value) {
            var order := if clave in sel.chosen then sel.order else sel.order + [clave];
            sel := Selection(order, sel.chosen[clave := Choice(archivo, fecha.value)]);
          }
        }
      }
      assert ls[..i + 1][..i] == ls[..i];
      assert SelectFrom(ls[..i + 1]) == Offer(SelectFrom(ls[..i]), Listed(archivo, FechaDe(archivo)));
      i := i + 1;
    }
    assert ls[..|files|] == ls;
  }

  /** The keys are listed once each, in the order of their first file. */
  predicate WellFormed(sel: Selection) {
    (forall i, j :: 0 <= i < j < |sel.order| ==> sel.order[i] != sel.order[j])
    && (forall k :: k in sel.order ==> k in sel.chosen)
    && (forall k :: k in sel.chosen ==> k in sel.order)
  }

  /** One iteration keeps the dict well formed; an undated entry changes
      nothing; a dated one leaves its month with a choice no earlier than
      both the entry and the previous choice, and every other month as it
      was. */
  lemma OfferSpec(sel: Selection, l: Listed)
    requires WellFormed(sel)
    ensures WellFormed(Offer(sel, l))
    ensures l.fecha.None? ==> Offer(sel, l) == sel
    ensures l.fecha.Some? ==>
      var k := MonthOf(l.fecha.value);
      var r := Offer(sel, l);
      r.chosen.Keys == sel.chosen.Keys + {k}
      && NotAfter(l.fecha.value, r.chosen[k].fecha)
      && (k in sel.chosen ==> NotAfter(sel.chosen[k].fecha, r.chosen[k].fecha))
      && (forall m :: m in sel.chosen && m != k ==> r.chosen[m] == sel.chosen[m])
  {
    if l.fecha.Some? {
      var f := l.fecha.value;
      var k := MonthOf(f);
      if k in sel.chosen {
        var g := sel.chosen[k].fecha;
        if !Before(g, f) {
          assert NotAfter(f, g) by { BeforeTotal(g, f); }
        }
      }
    }
  }

  lemma {:induction false} SelectFromWellFormed(ls: seq<Listed>)
    ensures WellFormed(SelectFrom(ls))
  {
    if ls != [] {
      SelectFromWellFormed(ls[..|ls| - 1]);
      OfferSpec(SelectFrom(ls[..|ls| - 1]), ls[|ls| - 1]);
    }
  }

  /** Every chosen entry is a listed entry dated in its own month. */
  ghost predicate Sound(sel: Selection, ls: seq<Listed>) {
    forall k :: k in sel.chosen ==>
      Listed(sel.chosen[k].archivo, Some(sel.chosen[k].fecha)) in ls && MonthOf(sel.chosen[k].fecha) == k
  }

  lemma {:induction false} SelectFromSound(ls: seq<Listed>)
    ensures Sound(SelectFrom(ls), ls)
  {
    if ls != [] {
      var init := ls[..|ls| - 1];
      SelectFromSound(init);
      assert ls == init + [ls[|ls| - 1]];
    }
  }

  /** Every month with a dated entry has a choice, and no entry of that
      month is later than the choice. */
  ghost predicate Maximal(sel: Selection, ls: seq<Listed>) {
    forall i, f :: 0 <= i < |ls| && ls[i].fecha == Some(f) ==>
      MonthOf(f) in sel.chosen && NotAfter(f, sel.chosen[MonthOf(f)].fecha)
  }

  lemma {:induction false} SelectFromMaximal(ls: seq<Listed>)
    ensures Maximal(SelectFrom(ls), ls)
  {
    if ls != [] {
      var init := ls[..|ls| - 1];
      SelectFromMaximal(init);
      var sel := SelectFrom(ls);
      forall i, f | 0 <= i < |ls| && ls[i].fecha == Some(f)
        ensures MonthOf(f) in sel.chosen && NotAfter(f, sel.chosen[MonthOf(f)].fecha)
      {
        if i < |init| {
          assert ls[i] == init[i];
        }
      }
    }
  }

  /** Of several entries with the latest date of a month, the one listed
      first is kept: the comparison is a strict `>`. */
  ghost predicate FirstOfEqual(sel: Selection, ls: seq<Listed>) {
    forall i, f ::
      (0 <= i < |ls| && ls[i].fecha == Some(f)
       && MonthOf(f) in sel.chosen && sel.chosen[MonthOf(f)].fecha == f
       && (forall j :: 0 <= j < i ==> ls[j].fecha != Some(f)))
      ==> sel.chosen[MonthOf(f)].archivo == ls[i].archivo
  }

  lemma {:induction false} SelectFromFirstOfEqual(ls: seq<Listed>)
    ensures FirstOfEqual(SelectFrom(ls), ls)
  {
    if ls != [] {
      var init := ls[..|ls| - 1];
      var last := ls[|ls| - 1];
      SelectFromFirstOfEqual(init);
      SelectFromSound(init);
      SelectFromMaximal(init);
      var prev := SelectFrom(init);
      var sel := SelectFrom(ls);
      forall i, f | 0 <= i < |ls| && ls[i].fecha == Some(f)
        && MonthOf(f) in sel.chosen && sel.chosen[MonthOf(f)].fecha == f
        && (forall j :: 0 <= j < i ==> ls[j].fecha != Some(f))
        ensures sel.chosen[MonthOf(f)].archivo == ls[i].archivo
      {
        var k := MonthOf(f);
        if i < |init| {
          assert ls[i] == init[i];
          assert forall j :: 0 <= j < i ==> init[j] == ls[j];
          assert k in prev.chosen && NotAfter(f, prev.chosen[k].fecha);
          assert sel.chosen[k] == prev.chosen[k];
        }
      }
    }
  }

  /** The selection, stated on the directory listing: one entry per month
      that has a dated `mvtos_` file; that entry is such a file of that
      month; no such file of the month is later; and among equally late
      files the first listed is kept. */
  lemma SelectLatestSpec(files: seq<string>)
    ensures WellFormed(SelectLatest(files))
    ensures forall k :: k in SelectLatest(files).chosen ==>
      var c := SelectLatest(files).chosen[k];
      c.archivo in files && FechaDe(c.archivo) == Some(c.fecha) && MonthOf(c.fecha) == k
    ensures forall i, f :: 0 <= i < |files| && FechaDe(files[i]) == Some(f) ==>
      MonthOf(f) in SelectLatest(files).chosen && NotAfter(f, SelectLatest(files).chosen[MonthOf(f)].fecha)
    ensures forall i, f ::
      (0 <= i < |files| && FechaDe(files[i]) == Some(f)
       && SelectLatest(files).chosen[MonthOf(f)].fecha == f
       && (forall j :: 0 <= j < i ==> FechaDe(files[j]) != Some(f)))
      ==> SelectLatest(files).chosen[MonthOf(f)].archivo == files[i]
  {
    var ls := Listing(files);
    SelectFromWellFormed(ls);
    SelectFromSound(ls);
    SelectFromMaximal(ls);
    SelectFromFirstOfEqual(ls);
    var sel := SelectLatest(files);
    forall k | k in sel.chosen
      ensures sel.chosen[k].archivo in files && FechaDe(sel.chosen[k].archivo) == Some(sel.chosen[k].fecha)
    {
      var c := sel.chosen[k];
      var i :| 0 <= i < |ls| && ls[i] == Listed(c.archivo, Some(c.fecha));
      assert files[i] == c.archivo;
    }
  }

  // ---------------------------------------------------------------------
  // Loading the two sheets of each selected file
  // ---------------------------------------------------------------------

  /** A sheet as `pd.read_excel` returns it: its column names and its rows,
      each row mapping column names to cells. */
  datatype Sheet = Sheet(columns: seq<string>, rows: seq<map<string, Cell>>)

  /** The result of reading a workbook: its sheets in workbook order, or
      the exception that made it unreadable. */
  datatype Workbook = Unreadable | Workbook(sheets: seq<Sheet>)

  /** The first sheet feeds `carga_trxs_caja`, the second
      `carga_trxs_movimientos`. */
  datatype Hoja = Caja | Movimientos

  const COLUMNAS_CAJA: seq<string> := [
    "FECHA", "NOMBRE", "RUT", "CUENTA", "CUSTODIO", "MOVIMIENTO",
    "FOLIO", "NEMO", "DESCRIPCION", "CANTIDAD", "PRECIO", "MONTO", "MONEDA"]

  const COLUMNAS_MOVIMIENTOS: seq<string> := [
    "FECHA", "NOMBRE", "RUT", "CUENTA", "CUSTODIO", "MOVIMIENTO",
    "FOLIO", "NEMO", "DESCRIPCION", "CANTIDAD", "PRECIO", "MONTO",
    "COMISIONES", "GASTOS", "TOTAL", "MONEDA"]

  function Columnas(h: Hoja): seq<string> {
    if h == Caja then COLUMNAS_CAJA else COLUMNAS_MOVIMIENTOS
  }

  /** The sheet whose table `h`'s inserts leave alone. */
  function Otra(h: Hoja): Hoja {
    if h == Caja then Movimientos else Caja
  }

  function SheetIndex(h: Hoja): nat {
    if h == Caja then 0 else 1
  }

  /** The `tipo` each column is normalised with. */
  function KindOf(h: Hoja, col: string): Kind {
    if col == "FECHA" then Fecha
    else if h == Caja && col in ["CANTIDAD", "PRECIO", "MONTO"] then Numero
    else if h == Movimientos && col in ["CANTIDAD", "PRECIO", "MONTO", "COMISIONES", "GASTOS", "TOTAL"] then Numero
    else Texto
  }

  /** `row.get(col)` after the projection onto the allow-listed columns the
      sheet has: a column the sheet lacks reads as None. */
  function Get(sheet: Sheet, row: map<string, Cell>, col: string): Cell {
    if col in sheet.columns && col in row then row[col] else Missing
  }

  /** The `valores` of one row whose FECHA converted to the date `d`: every
      allow-listed column in list order, FECHA holding the converted
      Timestamp. */
  function RowValues(h: Hoja, sheet: Sheet, row: map<string, Cell>, d: Date, parse: Cell -> Option<Date>): (vs: seq<Value>)
    ensures |vs| == |Columnas(h)|
  {
    seq(|Columnas(h)|, i requires 0 <= i < |Columnas(h)| =>
      var col := Columnas(h)[i];
      LimpiarValor(if col == "FECHA" then Stamp(d) else Get(sheet, row, col), KindOf(h, col), parse))
  }

  /** One value per allow-listed column, in list order: the date first and
      a number in every numeric column. */
  predicate RowShape(h: Hoja, vs: seq<Value>) {
    |vs| == |Columnas(h)| && vs[0].Day?
    && forall i :: 0 <= i < |vs| && KindOf(h, Columnas(h)[i]) == Numero ==> vs[i].Number?
  }

  /** Every inserted row has the date first and a number in every numeric
      column. */
  lemma RowValuesShape(h: Hoja, sheet: Sheet, row: map<string, Cell>, d: Date, parse: Cell -> Option<Date>)
    ensures RowShape(h, RowValues(h, sheet, row, d, parse))
    ensures RowValues(h, sheet, row, d, parse)[0] == Day(d)
  {
  }

  /** The rows inserted for the first `n` rows of a sheet: those whose FECHA
      converts, in sheet order. */
  function SheetRows(h: Hoja, sheet: Sheet, n: nat, parse: Cell -> Option<Date>): (out: seq<seq<Value>>)
    requires n <= |sheet.rows|
    ensures |out| <= n
  {
    if n == 0 then []
    else
      var prev := SheetRows(h, sheet, n - 1, parse);
      var row := sheet.rows[n - 1];
      match ToDatetime(parse, Get(sheet, row, "FECHA"))
      case None => prev
      case Some(d) => prev + [RowValues(h, sheet, row, d, parse)]
  }

  /** The rows of `rows` the database takes before it first refuses one:
      the `execute` that raises ends the sheet's `try` block, so the rows
      inserted before it stay and the rest of the sheet is skipped. */
  function Aceptadas(h: Hoja, rows: seq<seq<Value>>, acepta: (Hoja, seq<Value>) -> bool): seq<seq<Value>> {
    if rows == [] then []
    else if acepta(h, rows[0]) then [rows[0]] + Aceptadas(h, rows[1..], acepta)
    else []
  }

  /** The rows taken are a prefix of the rows offered, every one of them
      accepted, and the first row left out was refused. */
  lemma {:induction false} AceptadasPrefijo(h: Hoja, rows: seq<seq<Value>>, acepta: (Hoja, seq<Value>) -> bool)
    ensures var out := Aceptadas(h, rows, acepta);
      |out| <= |rows| && out == rows[..|out|]
      && (forall i :: 0 <= i < |out| ==> acepta(h, out[i]))
      && (|out| < |rows| ==> !acepta(h, rows[|out|]))
  {
    if rows != [] && acepta(h, rows[0]) {
      AceptadasPrefijo(h, rows[1..], acepta);
      var out := Aceptadas(h, rows, acepta);
      assert out == [rows[0]] + Aceptadas(h, rows[1..], acepta);
      forall i | 0 <= i < |out|
        ensures acepta(h, out[i])
      {
        if i > 0 {
          assert out[i] == Aceptadas(h, rows[1..], acepta)[i - 1];
        }
      }
    }
  }

  /** What one sheet contributes: nothing when the workbook lacks the sheet
      or the sheet lacks a FECHA column, otherwise its dated rows up to the
      first one the database refuses. */
  function HojaRows(h: Hoja, sheets: seq<Sheet>, parse: Cell -> Option<Date>, acepta: (Hoja, seq<Value>) -> bool): seq<seq<Value>> {
    if SheetIndex(h) >= |sheets| then []
    else
      var sheet := sheets[SheetIndex(h)];
      if "FECHA" !in sheet.columns then []
      else Aceptadas(h, SheetRows(h, sheet, |sheet.rows|, parse), acepta)
  }

  /** `archivos_por_mes.items()`: the chosen file of each month, in key
      insertion order. */
  function Items(sel: Selection): (items: seq<Choice>)
    requires WellFormed(sel)
    ensures |items| == |sel.order|
    ensures forall i :: 0 <= i < |items| ==> items[i] == sel.chosen[sel.order[i]]
  {
    seq(|sel.order|, i requires 0 <= i < |sel.order| => sel.chosen[sel.order[i]])
  }

  /** The rows of the first `n` chosen files, in order; an unreadable file
      contributes nothing. */
  function LoadedRows(h: Hoja, items: seq<Choice>, n: nat, read: string -> Workbook, parse: Cell -> Option<Date>, acepta: (Hoja, seq<Value>) -> bool): seq<seq<Value>>
    requires n <= |items|
  {
    if n == 0 then []
    else
      var prev := LoadedRows(h, items, n - 1, read, parse, acepta);
      var wb := read(items[n - 1].archivo);
      if wb.Unreadable? then prev else prev + HojaRows(h, wb.sheets, parse, acepta)
  }

  /** The MySQL connection: the rows inserted into each table and whether
      they were committed. `acepta` is the server's verdict on each INSERT
      (a value too long for its column, a type it cannot store, a lost
      connection make it refuse one). */
  class Conexion {
    var caja: seq<seq<Value>>
    var movimientos: seq<seq<Value>>
    var committed: bool
    const acepta: (Hoja, seq<Value>) -> bool

    constructor (acepta: (Hoja, seq<Value>) -> bool)
      ensures caja == [] && movimientos == [] && !committed
      ensures this.acepta == acepta
    {
      caja := [];
      movimientos := [];
      committed := false;
      this.acepta := acepta;
    }

    /** The table the rows of sheet `h` go to. */
    function Tabla(h: Hoja): seq<seq<Value>>
      reads this
    {
      if h == Caja then caja else movimientos
    }

    /** `cursor.execute(INSERT ..., valores)` on the table of sheet `h`:
        `ok` is false when the statement raises, and then nothing is
        inserted. */
    method Insert(h: Hoja, valores: seq<Value>) returns (ok: bool)
      modifies this
      ensures ok == acepta(h, valores)
      ensures Tabla(h) == old(Tabla(h)) + (if ok then [valores] else [])
      ensures Tabla(Otra(h)) == old(Tabla(Otra(h)))
      ensures committed == old(committed)
    {
      ok := acepta(h, valores);
      if !ok {
        return;
      }
      if h == Caja {
        caja := caja + [valores];
      } else {
        movimientos := movimientos + [valores];
      }
    }

    method Commit()
      modifies this
      ensures committed && caja == old(caja) && movimientos == old(movimientos)
    {
      committed := true;
    }
  }

  /** One sheet block of the file loop, its `try` included: the FECHA
      check, the conversion and filter, and the row-by-row insert, which
      an INSERT the database refuses ends. */
  method CargarHoja(db: Conexion, h: Hoja, sheets: seq<Sheet>, parse: Cell -> Option<Date>)
    modifies db
    ensures h == Caja ==> db.caja == old(db.caja) + HojaRows(h, sheets, parse, db.acepta) && db.movimientos == old(db.movimientos)
    ensures h == Movimientos ==> db.movimientos == old(db.movimientos) + HojaRows(h, sheets, parse, db.acepta) && db.caja == old(db.caja)
    ensures db.committed == old(db.committed)
  {
    if SheetIndex(h) >= |sheets| {
      return;
    }
    var sheet := sheets[SheetIndex(h)];
    if "FECHA" !in sheet.columns {
      return;
    }
    CargarFilas(db, h, sheet, parse);
  }

  /** The row-by-row insert of a sheet that has a FECHA column; the first
      INSERT the database refuses raises out of the loop. */
  method CargarFilas(db: Conexion, h: Hoja, sheet: Sheet, parse: Cell -> Option<Date>)
    modifies db
    ensures db.Tabla(h) == old(db.Tabla(h)) + Aceptadas(h, SheetRows(h, sheet, |sheet.rows|, parse), db.acepta)
    ensures db.Tabla(Otra(h)) == old(db.Tabla(Otra(h)))
    ensures db.committed == old(db.committed)
  {
    var i := 0;
    var ok := true;
    while i < |sheet.rows| && ok
      invariant 0 <= i <= |sheet.rows|
      invariant ok <==> Aceptadas(h, SheetRows(h, sheet, i, parse), db.acepta) == SheetRows(h, sheet, i, parse)
      invariant db.Tabla(h) == old(db.Tabla(h)) + Aceptadas(h, SheetRows(h, sheet, i, parse), db.acepta)
      invariant db.Tabla(Otra(h)) == old(db.Tabla(Otra(h)))
      invariant db.committed == old(db.committed)
    {
      var row := sheet.rows[i];
      var fecha := ToDatetime(parse, Get(sheet, row, "FECHA"));
      FilaAceptada(h, sheet, i, parse, db.acepta);
      if fecha.Some? {
        var valores := RowValues(h, sheet, row, fecha.value, parse);
        ok := db.Insert(h, valores);
      }
      i := i + 1;
    }
    if !ok {
      SheetRowsPrefix(h, sheet, i, |sheet.rows|, parse);
      AceptadasCorta(h, SheetRows(h, sheet, i, parse), SheetRows(h, sheet, |sheet.rows|, parse), db.acepta);
    }
  }

  /** One more row of a sheet all of whose earlier dated rows were taken:
      a row without a date changes nothing, a dated row is taken exactly
      when the database accepts it. */
  lemma FilaAceptada(h: Hoja, sheet: Sheet, i: nat, parse: Cell -> Option<Date>, acepta: (Hoja, seq<Value>) -> bool)
    requires i < |sheet.rows|
    requires Aceptadas(h, SheetRows(h, sheet, i, parse), acepta) == SheetRows(h, sheet, i, parse)
    ensures var fecha := ToDatetime(parse, Get(sheet, sheet.rows[i], "FECHA"));
      fecha.None? ==> Aceptadas(h, SheetRows(h, sheet, i + 1, parse), acepta) == SheetRows(h, sheet, i + 1, parse) == SheetRows(h, sheet, i, parse)
    ensures var fecha := ToDatetime(parse, Get(sheet, sheet.rows[i], "FECHA"));
      fecha.Some? ==>
        var v := RowValues(h, sheet, sheet.rows[i], fecha.value, parse);
        Aceptadas(h, SheetRows(h, sheet, i + 1, parse), acepta) == SheetRows(h, sheet, i, parse) + (if acepta(h, v) then [v] else [])
        && (Aceptadas(h, SheetRows(h, sheet, i + 1, parse), acepta) == SheetRows(h, sheet, i + 1, parse) <==> acepta(h, v))
  {
    SheetRowsNext(h, sheet, i, parse);
    var fecha := ToDatetime(parse, Get(sheet, sheet.rows[i], "FECHA"));
    if fecha.Some? {
      var v := RowValues(h, sheet, sheet.rows[i], fecha.value, parse);
      AceptadasNext(h, SheetRows(h, sheet, i, parse), v, acepta);
      if !acepta(h, v) {
        assert |SheetRows(h, sheet, i + 1, parse)| == |SheetRows(h, sheet, i, parse)| + 1;
      }
    } else {
      assert SheetRows(h, sheet, i + 1, parse) == SheetRows(h, sheet, i, parse);
    }
  }

  /** One more row offered while every earlier one was taken: it is taken
      exactly when the database accepts it. */
  lemma {:induction false} AceptadasNext(h: Hoja, rows: seq<seq<Value>>, r: seq<Value>, acepta: (Hoja, seq<Value>) -> bool)
    requires Aceptadas(h, rows, acepta) == rows
    ensures Aceptadas(h, rows + [r], acepta) == rows + (if acepta(h, r) then [r] else [])
  {
    if rows != [] {
      assert (rows + [r])[1..] == rows[1..] + [r];
      AceptadasNext(h, rows[1..], r, acepta);
    }
  }

  /** Once a row is refused, nothing after it is taken, however many rows
      follow. */
  lemma {:induction false} AceptadasCorta(h: Hoja, rows: seq<seq<Value>>, more: seq<seq<Value>>, acepta: (Hoja, seq<Value>) -> bool)
    requires |rows| <= |more| && rows == more[..|rows|]
    requires Aceptadas(h, rows, acepta) != rows
    ensures Aceptadas(h, more, acepta) == Aceptadas(h, rows, acepta)
  {
    assert rows != [] && rows[0] == more[0];
    if acepta(h, rows[0]) {
      assert rows[1..] == more[1..][..|rows| - 1];
      AceptadasCorta(h, rows[1..], more[1..], acepta);
    }
  }

  /** When the database takes every row, the whole sheet is loaded. */
  lemma {:induction false} AceptadasTodas(h: Hoja, rows: seq<seq<Value>>, acepta: (Hoja, seq<Value>) -> bool)
    requires forall i :: 0 <= i < |rows| ==> acepta(h, rows[i])
    ensures Aceptadas(h, rows, acepta) == rows
  {
    if rows != [] {
      AceptadasTodas(h, rows[1..], acepta);
    }
  }

  /** The inserted rows of the first `i` rows of a sheet begin those of
      the first `n`. */
  lemma {:induction false} SheetRowsPrefix(h: Hoja, sheet: Sheet, i: nat, n: nat, parse: Cell -> Option<Date>)
    requires i <= n <= |sheet.rows|
    ensures |SheetRows(h, sheet, i, parse)| <= |SheetRows(h, sheet, n, parse)|
    ensures SheetRows(h, sheet, i, parse) == SheetRows(h, sheet, n, parse)[..|SheetRows(h, sheet, i, parse)|]
  {
    if i < n {
      SheetRowsPrefix(h, sheet, i, n - 1, parse);
      SheetRowsNext(h, sheet, n - 1, parse);
    }
  }

  /** One more row of the sheet: its values when its FECHA converts. */
  lemma SheetRowsNext(h: Hoja, sheet: Sheet, i: nat, parse: Cell -> Option<Date>)
    requires i < |sheet.rows|
    ensures var fecha := ToDatetime(parse, Get(sheet, sheet.rows[i], "FECHA"));
      SheetRows(h, sheet, i + 1, parse)
      == SheetRows(h, sheet, i, parse) + (if fecha.Some? then [RowValues(h, sheet, sheet.rows[i], fecha.value, parse)] else [])
  {
  }

  /** The file loop: both sheets of each chosen file, in month order; an
      unreadable file is skipped. */
  method CargarSeleccion(db: Conexion, items: seq<Choice>, read: string -> Workbook, parse: Cell -> Option<Date>)
    requires db.caja == [] && db.movimientos == []
    modifies db
    ensures db.caja == LoadedRows(Caja, items, |items|, read, parse, db.acepta)
    ensures db.movimientos == LoadedRows(Movimientos, items, |items|, read, parse, db.acepta)
    ensures db.committed == old(db.committed)
  {
    var n := 0;
    while n < |items|
      invariant 0 <= n <= |items|
      invariant db.caja == LoadedRows(Caja, items, n, read, parse, db.acepta)
      invariant db.movimientos == LoadedRows(Movimientos, items, n, read, parse, db.acepta)
      invariant db.committed == old(db.committed)
    {
      var wb := read(items[n].archivo);
      LoadedRowsNext(Caja, items, n, read, parse, db.acepta);
      LoadedRowsNext(Movimientos, items, n, read, parse, db.acepta);
      if !wb.Unreadable? {
        ghost var caja := db.caja;
        CargarHoja(db, Caja, wb.sheets, parse);
        CargarHoja(db, Movimientos, wb.sheets, parse);
        assert db.caja == caja + HojaRows(Caja, wb.sheets, parse, db.acepta);
      }
      n := n + 1;
    }
  }

  /** One more file of the selection: its two sheets' rows, unless it
      cannot be read. */
  lemma LoadedRowsNext(h: Hoja, items: seq<Choice>, n: nat, read: string -> Workbook, parse: Cell -> Option<Date>, acepta: (Hoja, seq<Value>) -> bool)
    requires n < |items|
    ensures var wb := read(items[n].archivo);
      LoadedRows(h, items, n + 1, read, parse, acepta)
      == LoadedRows(h, items, n, read, parse, acepta) + (if wb.Unreadable? then [] else HojaRows(h, wb.sheets, parse, acepta))
  {
  }

  /** The whole script: choose the latest file of each month, load both
      sheets of each chosen file in month order, commit once. */
  method CargaTrxs(files: seq<string>, read: string -> Workbook, parse: Cell -> Option<Date>, acepta: (Hoja, seq<Value>) -> bool)
    returns (db: Conexion)
    ensures WellFormed(SelectLatest(files))
    ensures db.caja == LoadedRows(Caja, Items(SelectLatest(files)), |SelectLatest(files).order|, read, parse, acepta)
    ensures db.movimientos == LoadedRows(Movimientos, Items(SelectLatest(files)), |SelectLatest(files).order|, read, parse, acepta)
    ensures db.committed
  {
    var sel := SeleccionarArchivos(files);
    SelectFromWellFormed(Listing(files));
    db := new Conexion(acepta);
    CargarSeleccion(db, Items(sel), read, parse);
    db.Commit();
  }

  /** The positions among the first `n` rows whose FECHA converts. */
  ghost function Dated(sheet: Sheet, n: nat, parse: Cell -> Option<Date>): set<nat>
    requires n <= |sheet.rows|
  {
    set i: nat | i < n && ToDatetime(parse, Get(sheet, sheet.rows[i], "FECHA")).Some?
  }

  /** A sheet contributes exactly its rows whose FECHA converts. */
  lemma {:induction false} SheetRowsCount(h: Hoja, sheet: Sheet, n: nat, parse: Cell -> Option<Date>)
    requires n <= |sheet.rows|
    ensures |SheetRows(h, sheet, n, parse)| == |Dated(sheet, n, parse)|
  {
    if n > 0 {
      SheetRowsCount(h, sheet, n - 1, parse);
      SheetRowsStep(h, sheet, n, parse);
      DatedCardStep(sheet, n, parse);
    } else {
      assert Dated(sheet, n, parse) == {};
    }
  }

  lemma SheetRowsStep(h: Hoja, sheet: Sheet, n: nat, parse: Cell -> Option<Date>)
    requires 0 < n <= |sheet.rows|
    ensures |SheetRows(h, sheet, n, parse)| == |SheetRows(h, sheet, n - 1, parse)|
      + (if ToDatetime(parse, Get(sheet, sheet.rows[n - 1], "FECHA")).Some? then 1 else 0)
  {
  }

  lemma DatedCardStep(sheet: Sheet, n: nat, parse: Cell -> Option<Date>)
    requires 0 < n <= |sheet.rows|
    ensures |Dated(sheet, n, parse)| == |Dated(sheet, n - 1, parse)|
      + (if ToDatetime(parse, Get(sheet, sheet.rows[n - 1], "FECHA")).Some? then 1 else 0)
  {
    DatedStep(sheet, n, parse);
    assert n - 1 !in Dated(sheet, n - 1, parse);
  }

  lemma DatedStep(sheet: Sheet, n: nat, parse: Cell -> Option<Date>)
    requires 0 < n <= |sheet.rows|
    ensures Dated(sheet, n, parse) == Dated(sheet, n - 1, parse)
      + (if ToDatetime(parse, Get(sheet, sheet.rows[n - 1], "FECHA")).Some? then {n - 1} else {})
  {
  }

}
