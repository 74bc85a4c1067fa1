/** `AbstractExcelMapper`: the cell readers every spreadsheet mapper of the
    ETL shares. A cell is modelled by its POI type, its value, and the text
    POI's `DataFormatter` renders for it; the formatter itself is outside
    the model. */
module AbstractExcelMapper {
  import opened Wrappers
  import opened Text
  import opened Decimal
  import opened Calendar

  /** The cell types the readers distinguish. A numeric cell carries the
      local date of its value when POI reports it as date-formatted. */
  datatype Contenido =
    | Vacia
    | Numerica(valor: real, fecha: Option<Date>)
    | Texto(texto: string)
    | OtroTipo

  /** A cell and the text `DataFormatter.formatCellValue` renders for it. */
  datatype Celda = Celda(contenido: Contenido, formateado: string)

  /** A row is its cells; a missing cell is `None`. */
  type Fila = seq<Option<Celda>>

  // ---------------------------------------------------------------------
  // getString
  // ---------------------------------------------------------------------

  /** `getString`: no cell gives null; otherwise the formatted text with
      leading and trailing characters up to U+0020 removed. */
  function GetString(celda: Option<Celda>): (r: Option<string>)
    ensures r.None? <==> celda.None?
    ensures r.Some? ==> |r.value| <= |celda.value.formateado|
    ensures r.Some? && r.value != [] ==> !IsTrimmable(r.value[0]) && !IsTrimmable(r.value[|r.value| - 1])
    ensures r == Some([]) <==> celda.Some? && forall i :: 0 <= i < |celda.value.formateado| ==> IsTrimmable(celda.value.formateado[i])
  {
    if celda.None? then None else Some(Trim(celda.value.formateado))
  }

  /** Text that neither starts nor ends with a character up to U+0020 is
      returned as it is. */
  lemma TrimFijo(s: string)
    requires s != [] ==> !IsTrimmable(s[0]) && !IsTrimmable(s[|s| - 1])
    ensures Trim(s) == s
  {
  }

  /** Reading a cell twice through `getString` changes nothing more. */
  lemma GetStringIdempotente(c: Celda)
    ensures GetString(Some(c.(formateado := GetString(Some(c)).value))) == GetString(Some(c))
  {
    TrimFijo(Trim(c.formateado));
  }

  // ---------------------------------------------------------------------
  // getBigDecimal
  // ---------------------------------------------------------------------

  /** The text after an optional leading sign. */
  function SinSigno(s: string): string {
    if s != [] && (s[0] == '-' || s[0] == '+') then s[1..] else s
  }

  /** The index of the first '.', or the length when there is none. */
  function Punto(s: string): (k: nat)
    ensures k <= |s|
    ensures k < |s| ==> s[k] == '.'
    ensures forall i :: 0 <= i < k ==> s[i] != '.'
  {
    if s == [] then 0 else if s[0] == '.' then 0 else 1 + Punto(s[1..])
  }

  /** The text matches `[-+]?\d*\.?\d+` as a whole: after the sign, digits,
      then optionally a point followed by at least one digit; at least one
      digit in all. */
  predicate EsNumeroDecimal(s: string) {
    var cuerpo := SinSigno(s);
    var k := Punto(cuerpo);
    AllDigits(cuerpo[..k])
    && if k == |cuerpo| then cuerpo != []
       else cuerpo[k + 1..] != [] && AllDigits(cuerpo[k + 1..])
  }

  /** The value `new BigDecimal` gives such text. */
  function ValorDecimal(s: string): real
    requires EsNumeroDecimal(s)
  {
    var cuerpo := SinSigno(s);
    var k := Punto(cuerpo);
    var entero := DigitsValue(cuerpo[..k]) as real;
    var fraccion := if k == |cuerpo| then 0.0
      else DigitsValue(cuerpo[k + 1..]) as real / Pow10(|cuerpo| - k - 1) as real;
    if s != [] && s[0] == '-' then -(entero + fraccion) else entero + fraccion
  }

  /** The Chilean number format read as a plain decimal: thousands points
      dropped, the decimal comma turned into a point. */
  function Normalizar(texto: string): (r: string)
    ensures ',' !in r
    ensures forall x :: x != '.' && x != ',' ==> (x in r <==> x in texto)
  {
    var sinPuntos := RemoveChar(texto, '.');
    var r := ReplaceChar(sinPuntos, ',', '.');
    assert forall i :: 0 <= i < |r| ==> r[i] != ',';
    assert forall x :: x != '.' && x != ',' && x in r ==> x in sinPuntos;
    assert forall x :: x != '.' && x != ',' && x in sinPuntos ==> x in r by {
      forall x | x != '.' && x != ',' && x in sinPuntos ensures x in r {
        var i :| 0 <= i < |sinPuntos| && sinPuntos[i] == x;
        assert r[i] == x;
      }
    }
    r
  }

  /** `getBigDecimal`: no cell, a blank cell, or any type other than
      numeric and string gives null; a numeric cell gives its value; a
      string cell gives its value in the Chilean format, or null when the
      normalised text is not a decimal. */
  function GetBigDecimal(celda: Option<Celda>): (r: Option<real>)
    ensures celda.None? || celda.value.contenido.Vacia? || celda.value.contenido.OtroTipo? ==> r.None?
    ensures celda.Some? && celda.value.contenido.Numerica? ==> r == Some(celda.value.contenido.valor)
    ensures celda.Some? && celda.value.contenido.Texto? ==> (r.Some? <==> EsNumeroDecimal(Normalizar(celda.value.contenido.texto)))
  {
    if celda.None? then None
    else match celda.value.contenido
      case Vacia => None
      case Numerica(v, _) => Some(v)
      case Texto(t) =>
        var valor := Normalizar(t);
        if EsNumeroDecimal(valor) then Some(ValorDecimal(valor)) else None
      case OtroTipo => None
  }

  /** A decimal holds only digits, signs and points. */
  lemma SimbolosDecimales(v: string)
    requires EsNumeroDecimal(v)
    ensures forall i :: 0 <= i < |v| ==> IsDigit(v[i]) || v[i] == '-' || v[i] == '+' || v[i] == '.'
  {
    var cuerpo := SinSigno(v);
    var k := Punto(cuerpo);
    var desde := |v| - |cuerpo|;
    assert forall j :: 0 <= j < |cuerpo| ==> cuerpo[j] == v[desde + j];
    forall i | desde <= i < |v|
      ensures IsDigit(v[i]) || v[i] == '.'
    {
      var j := i - desde;
      if j < k {
        assert cuerpo[..k][j] == v[i];
      } else if j > k {
        assert cuerpo[k + 1..][j - k - 1] == v[i];
      }
    }
  }

  /** Text holding any character other than a digit, a sign, a point or
      a comma never reads as a number. */
  lemma TextoNoNumerico(t: string, x: char)
    requires x in t && !IsDigit(x) && x != '-' && x != '+' && x != '.' && x != ','
    ensures GetBigDecimal(Some(Celda(Texto(t), t))).None?
  {
    var v := Normalizar(t);
    assert x in v;
    if EsNumeroDecimal(v) {
      SimbolosDecimales(v);
      assert false;
    }
  }

  /** An integer part in digits and thousands points, a comma and a
      non-empty run of decimals read as the number they write. */
  lemma LecturaChilena(entero: string, decimales: string)
    requires forall i :: 0 <= i < |entero| ==> IsDigit(entero[i]) || entero[i] == '.'
    requires decimales != [] && AllDigits(decimales)
    ensures var digitos := RemoveChar(entero, '.');
      AllDigits(digitos)
      && GetBigDecimal(Some(Celda(Texto(entero + "," + decimales), entero + "," + decimales)))
         == Some(DecimalValue(digitos, decimales))
  {
    var digitos := RemoveChar(entero, '.');
    SoloDigitos(entero);
    ChileanDotsRemoved(entero, decimales);
    ChileanCommaReplaced(digitos, decimales);
    var v := digitos + "." + decimales;
    assert Normalizar(entero + "," + decimales) == v;
    LeerDecimal(digitos, decimales);
  }

  /** Digits, a point and a non-empty run of digits form a decimal whose
      value is the one they write. */
  lemma LeerDecimal(d: string, f: string)
    requires AllDigits(d) && f != [] && AllDigits(f)
    ensures EsNumeroDecimal(d + "." + f) && ValorDecimal(d + "." + f) == DecimalValue(d, f)
  {
    var v := d + "." + f;
    assert SinSigno(v) == v by {
      if d != [] {
        assert v[0] == d[0];
      }
    }
    PuntoTras(d, f);
    assert v[..|d|] == d;
    assert v[|d| + 1..] == f;
  }

  /** Removing the points of digits and points leaves only digits. */
  lemma {:induction false} SoloDigitos(s: string)
    requires forall i :: 0 <= i < |s| ==> IsDigit(s[i]) || s[i] == '.'
    ensures AllDigits(RemoveChar(s, '.'))
  {
    if s != [] {
      SoloDigitos(s[1..]);
      var resto := RemoveChar(s[1..], '.');
      if s[0] != '.' {
        assert RemoveChar(s, '.') == [s[0]] + resto;
        assert forall i :: 1 <= i < |[s[0]] + resto| ==> ([s[0]] + resto)[i] == resto[i - 1];
      }
    }
  }

  /** The first point of `d + "." + f`, for digits `d`, is right after `d`. */
  lemma PuntoTras(d: string, f: string)
    requires AllDigits(d)
    ensures Punto(d + "." + f) == |d|
  {
    var s := d + "." + f;
    assert forall i :: 0 <= i < |d| ==> s[i] == d[i];
    assert s[|d|] == '.';
  }

  // ---------------------------------------------------------------------
  // getLocalDate
  // ---------------------------------------------------------------------

  /** The three patterns `getLocalDate` tries, in order. */
  datatype Formato = AnioMesDia | DiaMesAnioBarra | DiaMesAnioGuion

  const FORMATOS: seq<Formato> := [AnioMesDia, DiaMesAnioBarra, DiaMesAnioGuion]

  /** The largest year `LocalDate` holds. */
  const ANIO_MAX: int := 999_999_999

  /** A `yyyy` field parsed strictly: exactly four ASCII digits, or '+'
      followed by more than four; the year of era must be at least 1 and
      at most the largest `LocalDate` year. */
  function LeerAnio(t: string): (r: Option<int>)
    ensures r.Some? ==> 1 <= r.value <= ANIO_MAX
  {
    if |t| == 4 && AllDigits(t) then
      DigitsBound(t);
      assert Pow10(4) == 10000;
      if DigitsValue(t) >= 1 then Some(DigitsValue(t) as int) else None
    else if 6 <= |t| <= 20 && t[0] == '+' && AllDigits(t[1..]) && 1 <= DigitsValue(t[1..]) <= ANIO_MAX then
      Some(DigitsValue(t[1..]) as int)
    else None
  }

  /** An `MM` or `dd` field: exactly two ASCII digits. */
  function LeerDosDigitos(t: string): (r: Option<int>)
    ensures r.Some? ==> 0 <= r.value <= 99
  {
    if |t| == 2 && AllDigits(t) then
      DigitsBound(t);
      assert Pow10(2) == 100;
      Some(DigitsValue(t) as int)
    else None
  }

  /** `ResolverStyle.SMART` for year, month and day: the month must be
      1..12 and the day 1..31; a day past the end of its month becomes the
      month's last day. */
  function Resolver(y: int, m: int, d: int): (r: Option<Date>)
    ensures r.Some? <==> 1 <= m <= 12 && 1 <= d <= 31
    ensures r.Some? ==> ValidDate(r.value) && r.value.year == y && r.value.month == m
    ensures r.Some? && ValidDate(Date(y, m, d)) ==> r.value == Date(y, m, d)
    ensures r.Some? && !ValidDate(Date(y, m, d)) ==> r.value.day == DaysInMonth(y, m) < d
  {
    if 1 <= m <= 12 && 1 <= d <= 31 then
      var ultimo := DaysInMonth(y, m);
      Some(Date(y, m, if d <= ultimo then d else ultimo))
    else None
  }

  /** The three fields resolved together, when all three parsed. */
  function Combinar(y: Option<int>, m: Option<int>, d: Option<int>): (r: Option<Date>)
    ensures r.Some? ==> y.Some? && ValidDate(r.value) && r.value.year == y.value
  {
    if y.Some? && m.Some? && d.Some? then Resolver(y.value, m.value, d.value) else None
  }

  /** `dd<sep>MM<sep>yyyy`, the year running to the end of the text. */
  function LeerDiaMesAnio(s: string, sep: char): (r: Option<Date>)
    ensures r.Some? ==> |s| >= 6 && s[2] == sep && ValidDate(r.value) && 1 <= r.value.year <= ANIO_MAX
  {
    if |s| < 6 || s[2] != sep || s[5] != sep then None
    else Combinar(LeerAnio(s[6..]), LeerDosDigitos(s[3..5]), LeerDosDigitos(s[..2]))
  }

  /** `yyyy-MM-dd`, the year running from the start of the text. */
  function LeerAnioMesDia(s: string): (r: Option<Date>)
    ensures r.Some? ==> |s| >= 6 && ValidDate(r.value) && 1 <= r.value.year <= ANIO_MAX
  {
    if |s| < 6 || s[|s| - 6] != '-' || s[|s| - 3] != '-' then None
    else Combinar(LeerAnio(s[..|s| - 6]), LeerDosDigitos(s[|s| - 5..|s| - 3]), LeerDosDigitos(s[|s| - 2..]))
  }

  /** `LocalDate.parse(texto, DateTimeFormatter.ofPattern(...))` for each
      pattern; `None` is the exception the loop swallows. */
  function Parsear(f: Formato, s: string): (r: Option<Date>)
    ensures r.Some? ==> ValidDate(r.value) && 1 <= r.value.year <= ANIO_MAX
  {
    match f
    case AnioMesDia => LeerAnioMesDia(s)
    case DiaMesAnioBarra => LeerDiaMesAnio(s, '/')
    case DiaMesAnioGuion => LeerDiaMesAnio(s, '-')
  }

  /** The first pattern of `fs` that parses `s`. */
  function PrimeraFecha(fs: seq<Formato>, s: string): Option<Date> {
    if fs == [] then None
    else if Parsear(fs[0], s).Some? then Parsear(fs[0], s)
    else PrimeraFecha(fs[1..], s)
  }

  /** The first success wins: the result is what the first pattern that
      parses gives, every earlier pattern having failed; no pattern parsing
      gives none. */
  lemma {:induction false} PrimeraFechaGana(fs: seq<Formato>, s: string)
    ensures var r := PrimeraFecha(fs, s);
      (r.Some? ==> exists i :: 0 <= i < |fs| && Parsear(fs[i], s) == r && forall j :: 0 <= j < i ==> Parsear(fs[j], s).None?)
      && (r.None? ==> forall i :: 0 <= i < |fs| ==> Parsear(fs[i], s).None?)
  {
    if fs != [] && Parsear(fs[0], s).None? {
      PrimeraFechaGana(fs[1..], s);
      var r := PrimeraFecha(fs[1..], s);
      assert forall i :: 1 <= i < |fs| ==> fs[i] == fs[1..][i - 1];
      if r.Some? {
        var i :| 0 <= i < |fs[1..]| && Parsear(fs[1..][i], s) == r && forall j :: 0 <= j < i ==> Parsear(fs[1..][j], s).None?;
        assert Parsear(fs[i + 1], s) == r;
        assert forall j :: 0 <= j < i + 1 ==> Parsear(fs[j], s).None? by {
          forall j | 0 <= j < i + 1 ensures Parsear(fs[j], s).None? {
            if j > 0 {
              assert fs[j] == fs[1..][j - 1];
            }
          }
        }
      }
    } else if fs != [] {
      assert Parsear(fs[0], s) == PrimeraFecha(fs, s);
    }
  }

  /** What `getLocalDate` reads from a cell. */
  function LeerFecha(celda: Option<Celda>): Option<Date> {
    if celda.None? then None
    else if celda.value.contenido.Numerica? && celda.value.contenido.fecha.Some? then
      celda.value.contenido.fecha
    else
      var texto := GetString(celda).value;
      if IsBlank(texto) then None else PrimeraFecha(FORMATOS, texto)
  }

  /** One pattern tried: it either gives the result or leaves it to the
      patterns after it. */
  lemma PrimeraFechaPaso(fs: seq<Formato>, i: nat, s: string)
    requires i < |fs|
    ensures Parsear(fs[i], s).Some? ==> PrimeraFecha(fs[i..], s) == Parsear(fs[i], s)
    ensures Parsear(fs[i], s).None? ==> PrimeraFecha(fs[i..], s) == PrimeraFecha(fs[i + 1..], s)
  {
    assert fs[i..][0] == fs[i] && fs[i..][1..] == fs[i + 1..];
  }

  /** `getLocalDate`: a date-formatted numeric cell gives its date; other
      cells are read as text, blank text gives null, and the patterns are
      tried in order until one parses. */
  method GetLocalDate(celda: Option<Celda>) returns (r: Option<Date>)
    ensures r == LeerFecha(celda)
  {
    if celda.None? {
      return None;
    }
    if celda.value.contenido.Numerica? && celda.value.contenido.fecha.Some? {
      return celda.value.contenido.fecha;
    }
    var texto := GetString(celda).value;
    if IsBlank(texto) {
      return None;
    }
    ghost var esperado := LeerFecha(celda);
    var i := 0;
    while i < |FORMATOS|
      invariant 0 <= i <= |FORMATOS|
      invariant PrimeraFecha(FORMATOS[i..], texto) == esperado
    {
      PrimeraFechaPaso(FORMATOS, i, texto);
      var fecha := Parsear(FORMATOS[i], texto);
      if fecha.Some? {
        return fecha;
      }
      i := i + 1;
    }
    return None;
  }

  /** A date read from text is a real calendar date. */
  lemma LeerFechaValida(celda: Option<Celda>)
    requires LeerFecha(celda).Some?
    requires celda.value.contenido.Numerica? ==> celda.value.contenido.fecha.None?
    ensures ValidDate(LeerFecha(celda).value)
  {
    PrimeraFechaGana(FORMATOS, GetString(celda).value);
  }

  /** No text parses under two of the patterns, so the order in which they
      are tried does not change the result. */
  lemma FormatosExcluyentes(f: Formato, g: Formato, s: string)
    requires Parsear(f, s).Some? && Parsear(g, s).Some?
    ensures f == g
  {
    if f == AnioMesDia {
      DigitoTercero(s);
    } else if g == AnioMesDia {
      DigitoTercero(s);
    }
  }

  /** Text the ISO pattern parses has a digit in its third place. */
  lemma DigitoTercero(s: string)
    requires LeerAnioMesDia(s).Some?
    ensures |s| > 2 && IsDigit(s[2])
  {
    var t := s[..|s| - 6];
    assert LeerAnio(t).Some?;
    if |t| == 4 {
      assert s[2] == t[2];
    } else {
      assert s[2] == t[1..][1];
    }
  }

  /** A text cell whose trimmed text is not blank is read through the
      patterns. */
  lemma LeerFechaTexto(celda: Celda, s: string)
    requires celda.contenido.Texto? && s == Trim(celda.formateado) && !IsBlank(s)
    ensures LeerFecha(Some(celda)) == PrimeraFecha(FORMATOS, s)
  {
  }

  /** Text some pattern accepts is read with that pattern. */
  lemma PrimeraFechaUnica(f: Formato, s: string)
    requires Parsear(f, s).Some?
    ensures PrimeraFecha(FORMATOS, s) == Parsear(f, s)
  {
    PrimeraFechaGana(FORMATOS, s);
    var r := PrimeraFecha(FORMATOS, s);
    assert f in FORMATOS;
    var k :| 0 <= k < |FORMATOS| && FORMATOS[k] == f;
    var i :| 0 <= i < |FORMATOS| && Parsear(FORMATOS[i], s) == r;
    FormatosExcluyentes(f, FORMATOS[i], s);
  }

  /** The date `getLocalDate` reads from a text cell is the one the pattern
      that accepts the text gives. */
  lemma LeerFechaFormato(celda: Celda, f: Formato)
    requires celda.contenido.Texto?
    requires Parsear(f, Trim(celda.formateado)).Some?
    ensures LeerFecha(Some(celda)) == Parsear(f, Trim(celda.formateado))
  {
    var s := Trim(celda.formateado);
    assert !IsBlank(s) by {
      assert s != [] && !IsTrimmable(s[0]);
    }
    LeerFechaTexto(celda, s);
    PrimeraFechaUnica(f, s);
  }

  /** A date written in one of the patterns with a four-digit year. */
  function Escribir(f: Formato, d: Date): (s: string)
    requires 1 <= d.year <= 9999 && 1 <= d.month <= 12 && 1 <= d.day <= 31
    ensures |s| == 10
  {
    var y := Pad(d.year, 4);
    var m := Pad(d.month, 2);
    var dd := Pad(d.day, 2);
    match f
    case AnioMesDia => y + "-" + m + "-" + dd
    case DiaMesAnioBarra => dd + "/" + m + "/" + y
    case DiaMesAnioGuion => dd + "-" + m + "-" + y
  }

  /** A four-digit year reads back as itself. */
  lemma AnioEscrito(y: int)
    requires 1 <= y <= 9999
    ensures LeerAnio(Pad(y, 4)) == Some(y)
  {
    assert Pow10(4) == 10000;
    PadValue(y, 4);
  }

  /** A two-digit month or day reads back as itself. */
  lemma DosDigitosEscritos(n: int)
    requires 0 <= n <= 99
    ensures LeerDosDigitos(Pad(n, 2)) == Some(n)
  {
    assert Pow10(2) == 100;
    PadValue(n, 2);
  }

  /** Every pattern reads back the date it writes. */
  lemma EscribirParsear(f: Formato, d: Date)
    requires ValidDate(d) && 1 <= d.year <= 9999
    ensures Parsear(f, Escribir(f, d)) == Some(d)
  {
    var y := Pad(d.year, 4);
    var m := Pad(d.month, 2);
    var dd := Pad(d.day, 2);
    AnioEscrito(d.year);
    DosDigitosEscritos(d.month);
    DosDigitosEscritos(d.day);
    var s := Escribir(f, d);
    if f == AnioMesDia {
      assert s[..4] == y && s[5..7] == m && s[8..] == dd;
    } else {
      assert s[..2] == dd && s[3..5] == m && s[6..] == y;
    }
  }

  /** A text cell holding a date in any of the patterns reads as that date. */
  lemma GetLocalDateEscrita(f: Formato, d: Date)
    requires ValidDate(d) && 1 <= d.year <= 9999
    ensures var s := Escribir(f, d); LeerFecha(Some(Celda(Texto(s), s))) == Some(d)
  {
    var s := Escribir(f, d);
    EscribirParsear(f, d);
    assert IsDigit(s[0]) && IsDigit(s[9]) by {
      var y := Pad(d.year, 4);
      var dd := Pad(d.day, 2);
      if f == AnioMesDia {
        assert s[0] == y[0] && s[9] == dd[1];
      } else {
        assert s[0] == dd[0] && s[9] == y[3];
      }
    }
    TrimFijo(s);
    LeerFechaFormato(Celda(Texto(s), s), f);
  }

  /** The last day of the month stands in for a day the month lacks. */
  lemma DiaInexistente()
    ensures Parsear(DiaMesAnioBarra, "31/02/2023") == Some(Date(2023, 2, 28))
  {
    var s := "31/02/2023";
    assert s[6..] == "2023" && s[3..5] == "02" && s[..2] == "31";
    DigitosDiaInexistente();
  }

  lemma DigitosDiaInexistente()
    ensures DigitsValue("2023") == 2023 && DigitsValue("02") == 2 && DigitsValue("31") == 31
  {
    assert "2023"[..3] == "202" && "202"[..2] == "20" && "20"[..1] == "2" && "2"[..0] == [];
    assert "02"[..1] == "0" && "31"[..1] == "3" && "0"[..0] == [] && "3"[..0] == [];
  }

  // ---------------------------------------------------------------------
  // shouldSkipRow
  // ---------------------------------------------------------------------

  /** The row's first cell, `None` when the row has none. */
  function PrimeraCelda(fila: Fila): Option<Celda> {
    if |fila| > 0 then fila[0] else None
  }

  /** `shouldSkipRow`: the first cell is missing, blank, or reads as blank
      text. */
  function ShouldSkipRow(fila: Fila): (r: bool)
    ensures var c := PrimeraCelda(fila);
      r <==> c.None? || c.value.contenido.Vacia?
             || forall i :: 0 <= i < |c.value.formateado| ==> IsTrimmable(c.value.formateado[i])
  {
    var c := PrimeraCelda(fila);
    var r := c.None? || c.value.contenido.Vacia? || IsBlank(GetString(c).value);
    assert c.Some? ==> var t := GetString(c).value; IsBlank(t) <==> t == [] by {
      if c.Some? {
        var t := GetString(c).value;
        if t != [] {
          assert !IsTrimmable(t[0]);
        }
      }
    }
    r
  }
}
