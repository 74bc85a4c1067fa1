/** `CostingServiceImpl.parseGroupKey` and the way `recostearGrupo` reads
    the four parts of a group key back into ids. */
module CostingService {
  import opened Wrappers
  import opened Text
  import opened Costeo

  /** The exceptions key parsing throws. */
  datatype FallaClave =
    | ClaveVacia        // IllegalArgumentException, null or blank key
    | FormatoInvalido   // IllegalArgumentException, not exactly four parts
    | NumeroInvalido    // NumberFormatException from Long.parseLong

  /** The group a key names. */
  datatype Grupo = Grupo(empresaId: int, cuenta: string, custodioId: int, instrumentoId: int)

  /** `parseGroupKey`: the key split on '|', which must give exactly four
      parts; a null or blank key is refused first. */
  function ParseGroupKey(groupKey: Option<string>): (r: Result<seq<string>, FallaClave>)
    ensures r == Err(ClaveVacia) <==> groupKey.None? || IsBlank(groupKey.value)
    ensures r.Ok? <==> groupKey.Some? && !IsBlank(groupKey.value) && |JavaSplit(groupKey.value, '|')| == 4
    ensures r.Ok? ==> |r.value| == 4 && forall i :: 0 <= i < 4 ==> '|' !in r.value[i]
  {
    if groupKey.None? || IsBlank(groupKey.value) then Err(ClaveVacia)
    else
      var parts := JavaSplit(groupKey.value, '|');
      if |parts| != 4 then Err(FormatoInvalido) else Ok(parts)
  }

  /** The start of `recostearGrupo`: the key parsed, then parts 0, 2 and 3
      read with `Long.parseLong`. */
  function LeerGrupo(groupKey: Option<string>): (r: Result<Grupo, FallaClave>)
    ensures r.Ok? ==> LONG_MIN <= r.value.empresaId <= LONG_MAX && LONG_MIN <= r.value.custodioId <= LONG_MAX
                      && LONG_MIN <= r.value.instrumentoId <= LONG_MAX && '|' !in r.value.cuenta
    ensures ParseGroupKey(groupKey).Err? ==> r == Err(ParseGroupKey(groupKey).error)
  {
    var p := ParseGroupKey(groupKey);
    if p.Err? then Err(p.error)
    else
      var parts := p.value;
      var empresaId := ParseInteger(parts[0], LONG_MIN, LONG_MAX);
      var custodioId := ParseInteger(parts[2], LONG_MIN, LONG_MAX);
      var instrumentoId := ParseInteger(parts[3], LONG_MIN, LONG_MAX);
      if empresaId.None? || custodioId.None? || instrumentoId.None? then Err(NumeroInvalido)
      else Ok(Grupo(empresaId.value, parts[1], custodioId.value, instrumentoId.value))
  }

  /** The engine's key is the four values joined with '|'. */
  lemma ClaveEsJoin(t: Tx)
    ensures Join([IntToString(t.empresaId), t.cuenta, IntToString(t.custodioId), IntToString(t.instrumentoId)], '|') == Clave(t)
  {
    var a, b, c := IntToString(t.empresaId), IntToString(t.custodioId), IntToString(t.instrumentoId);
    var parts := [a, t.cuenta, b, c];
    assert Join(parts[3..], '|') == c;
    assert Join(parts[2..], '|') == b + ['|'] + c;
    assert Join(parts[1..], '|') == t.cuenta + ['|'] + (b + ['|'] + c);
  }

  /** Reading back the key the engine builds for a transaction gives its
      four values, whenever the account holds no '|' and the ids are Java
      longs. */
  lemma ClaveIdaVuelta(t: Tx)
    requires '|' !in t.cuenta
    requires LONG_MIN <= t.empresaId <= LONG_MAX && LONG_MIN <= t.custodioId <= LONG_MAX
    requires LONG_MIN <= t.instrumentoId <= LONG_MAX
    ensures LeerGrupo(Some(Clave(t))) == Ok(Grupo(t.empresaId, t.cuenta, t.custodioId, t.instrumentoId))
  {
    var a, b, c := IntToString(t.empresaId), IntToString(t.custodioId), IntToString(t.instrumentoId);
    var parts := [a, t.cuenta, b, c];
    var key := Clave(t);
    NumeroSinBarra(t.empresaId);
    NumeroSinBarra(t.custodioId);
    NumeroSinBarra(t.instrumentoId);
    ClaveEsJoin(t);
    assert forall i :: 0 <= i < 4 ==> '|' !in parts[i];
    JavaSplitJoin(parts, '|');
    assert key[|a|] == '|';
    assert !IsBlank(key) by {
      assert !IsWhitespace(key[|a|]);
    }
    ParseIntToString(t.empresaId, LONG_MIN, LONG_MAX);
    ParseIntToString(t.custodioId, LONG_MIN, LONG_MAX);
    ParseIntToString(t.instrumentoId, LONG_MIN, LONG_MAX);
  }
}
