/** `RutValidator`: the normal form of a Chilean RUT and its mod-11 check
    digit. */
module RutValidator {
  import opened Wrappers
  import opened Text

  // ---------------------------------------------------------------------
  // Normal form
  // ---------------------------------------------------------------------

  /** Dots and hyphens removed, then upper-cased. */
  function Limpiar(s: string): (r: string)
    ensures '.' !in r && '-' !in r
    ensures forall i :: 0 <= i < |r| ==> !('a' <= r[i] <= 'z')
  {
    var sinSignos := RemoveChar(RemoveChar(s, '.'), '-');
    var r := Upper(sinSignos);
    assert forall i :: 0 <= i < |r| ==> r[i] == UpperChar(sinSignos[i]);
    assert forall i :: 0 <= i < |r| ==> sinSignos[i] in sinSignos;
    r
  }

  /** `normalizarRut`: null stays null; any other text loses its dots and
      hyphens and is upper-cased. */
  function NormalizarRut(rut: Option<string>): (r: Option<string>)
    ensures r.None? <==> rut.None?
    ensures r.Some? ==> r.value == Limpiar(rut.value)
  {
    if rut.None? then None else Some(Limpiar(rut.value))
  }

  /** Text with no dot, hyphen or lower-case letter is its own normal form. */
  lemma LimpiarFijo(s: string)
    requires '.' !in s && '-' !in s
    requires forall i :: 0 <= i < |s| ==> !('a' <= s[i] <= 'z')
    ensures Limpiar(s) == s
  {
    RemoveAbsentChar(s, '.');
    RemoveAbsentChar(s, '-');
  }

  /** `normalizarRut` is idempotent. */
  lemma NormalizarIdempotente(rut: Option<string>)
    ensures NormalizarRut(NormalizarRut(rut)) == NormalizarRut(rut)
  {
    if rut.Some? {
      LimpiarFijo(Limpiar(rut.value));
    }
  }

  // ---------------------------------------------------------------------
  // Check digit
  // ---------------------------------------------------------------------

  /** The weight of the digit `i` places from the right: 2, 3, 4, 5, 6, 7,
      then again 2, 3, ... */
  function Peso(i: nat): (w: nat)
    ensures 2 <= w <= 7
  {
    2 + i % 6
  }

  /** The weighted sum of the digits of `n`, the rightmost one taken at
      position `i`. */
  function SumaPonderada(n: nat, i: nat): nat
    decreases n
  {
    if n == 0 then 0 else (n % 10) * Peso(i) + SumaPonderada(n / 10, i + 1)
  }

  /** The check digit of a weighted sum: 11 minus its remainder mod 11,
      where 11 is written '0' and 10 is written 'K'. */
  function DigitoDeSuma(suma: nat): (c: char)
    ensures c == 'K' || IsDigit(c)
  {
    var dv := 11 - suma % 11;
    if dv == 11 then '0' else if dv == 10 then 'K' else DigitChar(dv)
  }

  /** The check digit of the body `n`. */
  function DigitoVerificador(n: nat): (c: char)
    ensures c == 'K' || IsDigit(c)
  {
    DigitoDeSuma(SumaPonderada(n, 0))
  }

  /** One digit taken: the rightmost digit at the current weight joins the
      sum, the rest moves one place left, and the weight after 7 is 2. */
  lemma SumaPaso(suma: int, r: nat, i: nat, total: int)
    requires r > 0 && suma + SumaPonderada(r, i) == total
    ensures var s := suma + (r % 10) * Peso(i);
      (r / 10 > 0 ==> s + SumaPonderada(r / 10, i + 1) == total) && (r / 10 <= 0 ==> s == total)
  {
  }

  /** The weight after 7 is 2; otherwise it goes up by one. */
  lemma PesoSiguiente(i: nat)
    ensures Peso(i + 1) == if Peso(i) == 7 then 2 else Peso(i) + 1
  {
    if i % 6 == 5 {
      assert (i + 1) % 6 == 0;
    } else {
      assert (i + 1) % 6 == i % 6 + 1;
    }
  }

  /** `calcularDigitoVerificador`: the digits are taken from the right,
      each times a multiplier that runs 2..7 and wraps back to 2. A body
      that is not positive has no digits and sums to 0. */
  method CalcularDigitoVerificador(rut: int) returns (dv: char)
    ensures dv == DigitoVerificador(if rut > 0 then rut else 0)
  {
    ghost var total := SumaPonderada(if rut > 0 then rut else 0, 0);
    var suma := 0;
    var multiplicador := 2;
    var r := rut;
    ghost var pos: nat := 0;
    while r > 0
      invariant multiplicador == Peso(pos)
      invariant r > 0 ==> suma + SumaPonderada(r, pos) == total
      invariant r <= 0 ==> suma == total
      decreases r
    {
      SumaPaso(suma, r, pos, total);
      PesoSiguiente(pos);
      var digito := r % 10;
      suma := suma + digito * multiplicador;
      r := r / 10;
      multiplicador := if multiplicador == 7 then 2 else multiplicador + 1;
      pos := pos + 1;
    }
    var resto := suma % 11;
    var d := 11 - resto;
    if d == 11 {
      return '0';
    }
    if d == 10 {
      return 'K';
    }
    return ('0' as int + d) as char;
  }

  // ---------------------------------------------------------------------
  // Validation
  // ---------------------------------------------------------------------

  /** The exception `esRutValido` lets escape: text that normalises to
      nothing makes `substring(0, -1)` throw. */
  datatype FallaRut = IndiceFueraDeRango

  /** `esRutValido`: null or empty text is not valid; otherwise the normal
      form is split into its body, which must parse as a Java `int`, and
      its last character, which must be the body's check digit. */
  function EsRutValido(rut: Option<string>): (r: Result<bool, FallaRut>)
    ensures rut.None? || rut == Some([]) ==> r == Ok(false)
    ensures r.Err? <==> rut.Some? && rut.value != [] && Limpiar(rut.value) == []
    ensures r == Ok(true) ==> var s := Limpiar(rut.value);
      ParseInteger(s[..|s| - 1], INT_MIN, INT_MAX).Some? && (s[|s| - 1] == 'K' || IsDigit(s[|s| - 1]))
  {
    if rut.None? || rut.value == [] then Ok(false)
    else
      var s := Limpiar(rut.value);
      if s == [] then Err(IndiceFueraDeRango)
      else
        var cuerpo := s[..|s| - 1];
        match ParseInteger(cuerpo, INT_MIN, INT_MAX)
        case None => Ok(false)
        case Some(n) => Ok(s[|s| - 1] == DigitoVerificador(if n > 0 then n else 0))
  }

  /** Validity depends only on the normal form, as long as there is one. */
  lemma ValidezNormalizada(s: string)
    requires Limpiar(s) != []
    ensures EsRutValido(Some(s)) == EsRutValido(NormalizarRut(Some(s)))
  {
    LimpiarFijo(Limpiar(s));
  }

  /** The dots and hyphens of a body in digits, an optional hyphen and a
      final character other than those two are exactly the hyphen. */
  lemma SinSignos(cuerpo: string, sep: string, c: char)
    requires AllDigits(cuerpo) && (sep == [] || sep == "-")
    requires c != '.' && c != '-'
    ensures RemoveChar(RemoveChar(cuerpo + sep + [c], '.'), '-') == cuerpo + [c]
  {
    assert '.' !in cuerpo && '-' !in cuerpo by {
      assert forall i :: 0 <= i < |cuerpo| ==> IsDigit(cuerpo[i]);
    }
    RemoveCharConcat(cuerpo + sep, [c], '.');
    RemoveCharConcat(cuerpo, sep, '.');
    RemoveAbsentChar(cuerpo, '.');
    RemoveAbsentChar(sep, '.');
    RemoveAbsentChar([c], '.');
    RemoveCharConcat(cuerpo + sep, [c], '-');
    RemoveCharConcat(cuerpo, sep, '-');
    RemoveAbsentChar(cuerpo, '-');
    RemoveAbsentChar([c], '-');
    assert RemoveChar(sep, '-') == [] by {
      if sep != [] {
        assert sep[1..] == [];
      }
    }
  }

  /** The normal form of such a RUT is the body and the upper-cased final
      character. */
  lemma LimpiarRut(cuerpo: string, sep: string, c: char)
    requires AllDigits(cuerpo) && (sep == [] || sep == "-")
    requires c != '.' && c != '-'
    ensures Limpiar(cuerpo + sep + [c]) == cuerpo + [UpperChar(c)]
  {
    SinSignos(cuerpo, sep, c);
    var x := cuerpo + [c];
    var u := Upper(x);
    assert forall i :: 0 <= i < |cuerpo| ==> u[i] == UpperChar(cuerpo[i]) == cuerpo[i];
    assert u == cuerpo + [UpperChar(c)];
  }

  /** A body written out in digits, with or without a hyphen before its
      check digit, is valid; any other final character that survives
      normalisation makes it invalid. */
  lemma RutConDigito(n: nat, guion: bool, c: char)
    requires n <= INT_MAX
    requires c != '.' && c != '-'
    ensures EsRutValido(Some(NatToString(n) + (if guion then "-" else "") + [c]))
         == Ok(UpperChar(c) == DigitoVerificador(n))
  {
    var cuerpo := NatToString(n);
    LimpiarRut(cuerpo, if guion then "-" else "", c);
    var esperado := cuerpo + [UpperChar(c)];
    assert esperado[..|esperado| - 1] == cuerpo;
    ParseIntToString(n, INT_MIN, INT_MAX);
  }

  // ---------------------------------------------------------------------
  // Text that normalises to nothing
  // ---------------------------------------------------------------------

  /** A lone hyphen is not null or empty, so it passes the first guard,
      normalises to nothing, and the body split throws instead of the
      RUT being reported invalid. */
  lemma GuionSoloLanza()
    ensures EsRutValido(Some("-")) == Err(IndiceFueraDeRango)
  {
    assert RemoveChar("-", '.') == "-";
    assert RemoveChar("-", '-') == [];
  }

  /** `esRutValido` as its guard intends: text with no body and no check
      digit is simply not valid. */
  function EsRutValidoSeguro(rut: Option<string>): (r: bool)
    ensures r <==> EsRutValido(rut) == Ok(true)
    ensures rut.Some? && Limpiar(rut.value) == [] ==> !r
  {
    if rut.None? || Limpiar(rut.value) == [] then false
    else EsRutValido(rut) == Ok(true)
  }
}
