/** `EntidadCacheManager`: five keyed caches in front of the
    find-or-create DAOs used while normalising loaded rows. Each DAO is
    a function from its arguments to the entity it returns; the cache
    records, as a ghost log, the keys for which it called its DAO. */
module EntidadCacheManager {
  import opened Wrappers
  import opened Text
  import RutValidator

  datatype Empresa = Empresa(id: int, razonSocial: Option<string>, rut: string)
  datatype Custodio = Custodio(id: int, nombre: string)
  datatype Producto = Producto(id: Option<int>, nombre: string)
  datatype Instrumento = Instrumento(id: int, nemo: string, nombre: string, producto: Option<Producto>)
  datatype TipoMovimiento = TipoMovimiento(id: int, nombre: string, descripcion: string)

  /** One `HashMap` filled by `computeIfAbsent`. */
  class Cache<E> {
    var entradas: map<string, E>
    /** The keys for which the loader ran, in call order. */
    ghost var llamadas: seq<string>

    /** The loader ran once for each cached key and for nothing else. */
    ghost predicate Valid()
      reads this
    {
      (forall i, j :: 0 <= i < j < |llamadas| ==> llamadas[i] != llamadas[j])
      && (forall k :: k in entradas <==> k in llamadas)
    }

    constructor ()
      ensures Valid() && entradas == map[] && llamadas == []
    {
      entradas := map[];
      llamadas := [];
    }

    /** `computeIfAbsent(k, _ -> cargar())`: a cached key is answered from
        the map; a new key runs the loader once and caches its result. */
    method ComputeIfAbsent(k: string, cargar: () -> E) returns (e: E)
      requires Valid()
      modifies this
      ensures Valid()
      ensures k in old(entradas) ==> e == old(entradas)[k] && unchanged(this)
      ensures k !in old(entradas) ==> e == cargar() && entradas == old(entradas)[k := e] && llamadas == old(llamadas) + [k]
    {
      if k in entradas {
        return entradas[k];
      }
      e := cargar();
      entradas := entradas[k := e];
      llamadas := llamadas + [k];
    }
  }

  // ---------------------------------------------------------------------
  // Cache keys
  // ---------------------------------------------------------------------

  /** The empresa key: the RUT without dots and hyphens, upper-cased; a
      null RUT gives the empty key. */
  function ClaveEmpresa(rut: Option<string>): (k: string)
    ensures '.' !in k && '-' !in k
  {
    if rut.None? then "" else RutValidator.Limpiar(rut.value)
  }

  /** The custodio key: the trimmed name with the misspelling "Peshing"
      corrected to "Pershing". */
  function ClaveCustodio(nombre: string): string {
    ReplaceAll(Trim(nombre), "Peshing", "Pershing")
  }

  /** The text Java concatenates for a product: its id, or "null" when
      there is no product or it has no id. */
  function TextoProducto(producto: Option<Producto>): string {
    if producto.Some? && producto.value.id.Some? then IntToString(producto.value.id.value) else "null"
  }

  /** The instrumento key "nemo|nombre|productoId". */
  function ClaveInstrumento(nemo: string, nombre: string, producto: Option<Producto>): string {
    nemo + "|" + nombre + "|" + TextoProducto(producto)
  }

  /** The RUT key is its own normal form: caching under a key already
      normalised finds the same entry. */
  lemma ClaveEmpresaIdempotente(rut: Option<string>)
    ensures ClaveEmpresa(Some(ClaveEmpresa(rut))) == ClaveEmpresa(rut)
  {
    RutValidator.NormalizarIdempotente(rut);
  }

  /** A dot anywhere in the RUT does not change the key:
      "12.345.678-5" and "12345678-5" share one entry. */
  lemma ClaveEmpresaIgnoraPunto(a: string, b: string)
    ensures ClaveEmpresa(Some(a + "." + b)) == ClaveEmpresa(Some(a + b))
  {
    RemoveCharConcat(a + ".", b, '.');
    RemoveCharConcat(a, ".", '.');
    RemoveCharConcat(a, b, '.');
    assert RemoveChar(".", '.') == [];
    assert RemoveChar(a + ".", '.') == RemoveChar(a, '.');
    assert RemoveChar(a + "." + b, '.') == RemoveChar(a + b, '.');
  }

  lemma SinPuntosConGuion(a: string, b: string)
    ensures RemoveChar(a + "-" + b, '.') == RemoveChar(a, '.') + "-" + RemoveChar(b, '.')
  {
    RemoveCharConcat(a + "-", b, '.');
    RemoveCharConcat(a, "-", '.');
    assert RemoveChar("-", '.') == "-";
  }

  lemma SinGuionIntermedio(x: string, y: string)
    ensures RemoveChar(x + "-" + y, '-') == RemoveChar(x + y, '-')
  {
    RemoveCharConcat(x + "-", y, '-');
    RemoveCharConcat(x, "-", '-');
    RemoveCharConcat(x, y, '-');
    assert RemoveChar("-", '-') == [];
  }

  /** A hyphen anywhere in the RUT does not change the key:
      "12345678-5" and "123456785" share one entry. */
  lemma ClaveEmpresaIgnoraGuion(a: string, b: string)
    ensures ClaveEmpresa(Some(a + "-" + b)) == ClaveEmpresa(Some(a + b))
  {
    var x, y := RemoveChar(a, '.'), RemoveChar(b, '.');
    SinPuntosConGuion(a, b);
    RemoveCharConcat(a, b, '.');
    SinGuionIntermedio(x, y);
    assert RemoveChar(RemoveChar(a + "-" + b, '.'), '-') == RemoveChar(RemoveChar(a + b, '.'), '-');
  }

  /** Leading blanks and the "Peshing" misspelling both map to the
      correct custodian name. */
  lemma ClaveCustodioCorrige()
    ensures ClaveCustodio(" Peshing") == ClaveCustodio("Pershing") == "Pershing"
  {
    RecortaCustodios();
    ReemplazaPeshing();
    PershingSeQueda();
  }

  lemma RecortaCustodios()
    ensures Trim(" Peshing") == "Peshing" && Trim("Pershing") == "Pershing"
  {
    assert Trim(" Peshing") == "Peshing";
    assert Trim("Pershing") == "Pershing";
  }

  lemma ReemplazaPeshing()
    ensures ReplaceAll("Peshing", "Peshing", "Pershing") == "Pershing"
  {
    var s := "Peshing";
    assert s[..7] == "Peshing" && s[7..] == [];
    assert ReplaceAll(s, "Peshing", "Pershing") == "Pershing" + ReplaceAll([], "Peshing", "Pershing");
  }

  lemma PershingSeQueda()
    ensures ReplaceAll("Pershing", "Peshing", "Pershing") == "Pershing"
  {
    var s := "Pershing";
    assert s[..7][2] == 'r' != "Peshing"[2];
    assert ReplaceAll(s, "Peshing", "Pershing") == [s[0]] + ReplaceAll(s[1..], "Peshing", "Pershing");
    assert |s[1..]| == 7 && s[1..][1] == 'r' != "Peshing"[1];
    assert ReplaceAll(s[1..], "Peshing", "Pershing") == [s[1]] + ReplaceAll(s[2..], "Peshing", "Pershing");
    assert |s[2..]| < 7;
  }

  lemma TextoProductoSinBarra(producto: Option<Producto>)
    ensures '|' !in TextoProducto(producto)
  {
    if producto.Some? && producto.value.id.Some? {
      NumeroSinBarra(producto.value.id.value);
    }
  }

  /** A printed integer is never the text "null". */
  lemma NumeroNoEsNull(n: int)
    ensures IntToString(n) != "null"
  {
    var s := IntToString(n);
    assert s[0] == '-' || IsDigit(s[0]);
  }

  /** Two printed integers are equal only for equal integers. */
  lemma IntToStringInyectiva(a: int, b: int)
    requires IntToString(a) == IntToString(b)
    ensures a == b
  {
    var lo, hi := if a < b then a else b, if a < b then b else a;
    ParseIntToString(a, lo, hi);
    ParseIntToString(b, lo, hi);
  }

  /** The instrumento key is the three parts joined with '|'. */
  lemma ClaveInstrumentoEsJoin(nemo: string, nombre: string, producto: Option<Producto>)
    ensures ClaveInstrumento(nemo, nombre, producto) == Join([nemo, nombre, TextoProducto(producto)], '|')
  {
    var parts := [nemo, nombre, TextoProducto(producto)];
    assert Join(parts[2..], '|') == TextoProducto(producto);
    assert Join(parts[1..], '|') == nombre + ['|'] + TextoProducto(producto);
  }

  /** Two instrument lookups share a cache entry only when they agree on
      nemo, name and product id (a missing product and a product without
      id both read "null"), provided neither nemo nor name holds a '|'. */
  lemma ClaveInstrumentoInyectiva(nemo1: string, nombre1: string, p1: Option<Producto>,
                                  nemo2: string, nombre2: string, p2: Option<Producto>)
    requires '|' !in nemo1 && '|' !in nombre1 && '|' !in nemo2 && '|' !in nombre2
    requires ClaveInstrumento(nemo1, nombre1, p1) == ClaveInstrumento(nemo2, nombre2, p2)
    ensures nemo1 == nemo2 && nombre1 == nombre2
    ensures (p1.Some? && p1.value.id.Some?) <==> (p2.Some? && p2.value.id.Some?)
    ensures p1.Some? && p1.value.id.Some? ==> p1.value.id == p2.value.id
  {
    var parts1 := [nemo1, nombre1, TextoProducto(p1)];
    var parts2 := [nemo2, nombre2, TextoProducto(p2)];
    TextoProductoSinBarra(p1);
    TextoProductoSinBarra(p2);
    ClaveInstrumentoEsJoin(nemo1, nombre1, p1);
    ClaveInstrumentoEsJoin(nemo2, nombre2, p2);
    SplitJoin(parts1, '|');
    SplitJoin(parts2, '|');
    assert parts1 == parts2;
    if p1.Some? && p1.value.id.Some? {
      NumeroNoEsNull(p1.value.id.value);
      if p2.Some? && p2.value.id.Some? {
        IntToStringInyectiva(p1.value.id.value, p2.value.id.value);
      }
    } else if p2.Some? && p2.value.id.Some? {
      NumeroNoEsNull(p2.value.id.value);
    }
  }

  // ---------------------------------------------------------------------
  // The manager
  // ---------------------------------------------------------------------

  class EntidadCacheManager {
    /** `findOrCreateByRazonSocial(razonSocial, rut)`. */
    const empresaDao: (Option<string>, string) -> Empresa
    /** `findOrCreateByNombre(nombre)`. */
    const custodioDao: string -> Custodio
    /** `findOrCreateByProducto(cuenta)`. */
    const productoDao: string -> Producto
    /** `findOrCreateByInstrumento(nemo, nombre, producto)`. */
    const instrumentoDao: (string, string, Option<Producto>) -> Instrumento
    /** `findOrCreateByTipoMovimiento(tipoMovimiento, descripcion)`. */
    const tipoMovimientoDao: (string, string) -> TipoMovimiento

    const empresaCache: Cache<Empresa>
    const custodioCache: Cache<Custodio>
    const productoCache: Cache<Producto>
    const instrumentoCache: Cache<Instrumento>
    const tipoMovimientoCache: Cache<TipoMovimiento>

    ghost predicate Valid()
      reads empresaCache, custodioCache, productoCache, instrumentoCache, tipoMovimientoCache
    {
      empresaCache.Valid() && custodioCache.Valid() && productoCache.Valid()
      && instrumentoCache.Valid() && tipoMovimientoCache.Valid()
    }

    constructor (empresaDao: (Option<string>, string) -> Empresa, custodioDao: string -> Custodio,
                 productoDao: string -> Producto, instrumentoDao: (string, string, Option<Producto>) -> Instrumento,
                 tipoMovimientoDao: (string, string) -> TipoMovimiento)
      ensures Valid()
      ensures this.empresaDao == empresaDao && this.custodioDao == custodioDao && this.productoDao == productoDao
      ensures this.instrumentoDao == instrumentoDao && this.tipoMovimientoDao == tipoMovimientoDao
      ensures empresaCache.entradas == map[] && custodioCache.entradas == map[] && productoCache.entradas == map[]
      ensures instrumentoCache.entradas == map[] && tipoMovimientoCache.entradas == map[]
      ensures fresh(empresaCache) && fresh(custodioCache) && fresh(productoCache)
      ensures fresh(instrumentoCache) && fresh(tipoMovimientoCache)
    {
      this.empresaDao := empresaDao;
      this.custodioDao := custodioDao;
      this.productoDao := productoDao;
      this.instrumentoDao := instrumentoDao;
      this.tipoMovimientoDao := tipoMovimientoDao;
      empresaCache := new Cache<Empresa>();
      custodioCache := new Cache<Custodio>();
      productoCache := new Cache<Producto>();
      instrumentoCache := new Cache<Instrumento>();
      tipoMovimientoCache := new Cache<TipoMovimiento>();
    }

    /** `getEmpresa`: null, without a DAO call, for a RUT whose key is
        empty; otherwise the entity cached under the normalised RUT. */
    method GetEmpresa(razonSocial: Option<string>, rut: Option<string>) returns (e: Option<Empresa>)
      requires Valid()
      modifies empresaCache
      ensures Valid()
      ensures var k := ClaveEmpresa(rut);
        if k == [] then e.None? && unchanged(empresaCache)
        else if k in old(empresaCache.entradas) then e == Some(old(empresaCache.entradas)[k]) && unchanged(empresaCache)
        else e == Some(empresaDao(razonSocial, rut.value))
             && empresaCache.entradas == old(empresaCache.entradas)[k := e.value]
             && empresaCache.llamadas == old(empresaCache.llamadas) + [k]
    {
      var rutNormalizado := ClaveEmpresa(rut);
      if rutNormalizado == [] {
        return None;
      }
      var x := empresaCache.ComputeIfAbsent(rutNormalizado, () => empresaDao(razonSocial, rut.value));
      e := Some(x);
    }

    /** `getCustodio`: the entity cached under the corrected, trimmed name;
        the DAO receives that corrected name. */
    method GetCustodio(nombre: string) returns (c: Custodio)
      requires Valid()
      modifies custodioCache
      ensures Valid()
      ensures var k := ClaveCustodio(nombre);
        if k in old(custodioCache.entradas) then c == old(custodioCache.entradas)[k] && unchanged(custodioCache)
        else c == custodioDao(k) && custodioCache.entradas == old(custodioCache.entradas)[k := c]
             && custodioCache.llamadas == old(custodioCache.llamadas) + [k]
    {
      var nombreNormalizado := ClaveCustodio(nombre);
      c := custodioCache.ComputeIfAbsent(nombreNormalizado, () => custodioDao(nombreNormalizado));
    }

    /** `getProducto`: the entity cached under the account text. */
    method GetProducto(cuenta: string) returns (p: Producto)
      requires Valid()
      modifies productoCache
      ensures Valid()
      ensures if cuenta in old(productoCache.entradas) then p == old(productoCache.entradas)[cuenta] && unchanged(productoCache)
        else p == productoDao(cuenta) && productoCache.entradas == old(productoCache.entradas)[cuenta := p]
             && productoCache.llamadas == old(productoCache.llamadas) + [cuenta]
    {
      p := productoCache.ComputeIfAbsent(cuenta, () => productoDao(cuenta));
    }

    /** `getInstrumento`: the entity cached under "nemo|nombre|productoId". */
    method GetInstrumento(nemo: string, nombre: string, producto: Option<Producto>) returns (i: Instrumento)
      requires Valid()
      modifies instrumentoCache
      ensures Valid()
      ensures var k := ClaveInstrumento(nemo, nombre, producto);
        if k in old(instrumentoCache.entradas) then i == old(instrumentoCache.entradas)[k] && unchanged(instrumentoCache)
        else i == instrumentoDao(nemo, nombre, producto) && instrumentoCache.entradas == old(instrumentoCache.entradas)[k := i]
             && instrumentoCache.llamadas == old(instrumentoCache.llamadas) + [k]
    {
      var key := ClaveInstrumento(nemo, nombre, producto);
      i := instrumentoCache.ComputeIfAbsent(key, () => instrumentoDao(nemo, nombre, producto));
    }

    /** `getTipoMovimiento`: cached by name only, so the description of a
        later call with a known name is ignored. */
    method GetTipoMovimiento(tipoMovimiento: string, descripcion: string) returns (t: TipoMovimiento)
      requires Valid()
      modifies tipoMovimientoCache
      ensures Valid()
      ensures if tipoMovimiento in old(tipoMovimientoCache.entradas)
        then t == old(tipoMovimientoCache.entradas)[tipoMovimiento] && unchanged(tipoMovimientoCache)
        else t == tipoMovimientoDao(tipoMovimiento, descripcion)
             && tipoMovimientoCache.entradas == old(tipoMovimientoCache.entradas)[tipoMovimiento := t]
             && tipoMovimientoCache.llamadas == old(tipoMovimientoCache.llamadas) + [tipoMovimiento]
    {
      t := tipoMovimientoCache.ComputeIfAbsent(tipoMovimiento, () => tipoMovimientoDao(tipoMovimiento, descripcion));
    }
  }

  /** Asking twice for the same RUT calls the DAO at most once and gives
      the same entity both times, whatever the second company name. */
  method EmpresaDosVeces(m: EntidadCacheManager, razon1: Option<string>, razon2: Option<string>, rut: Option<string>)
    returns (e1: Option<Empresa>, e2: Option<Empresa>)
    requires m.Valid()
    modifies m.empresaCache
    ensures m.Valid() && e1 == e2
    ensures |m.empresaCache.llamadas| <= |old(m.empresaCache.llamadas)| + 1
  {
    e1 := m.GetEmpresa(razon1, rut);
    e2 := m.GetEmpresa(razon2, rut);
  }
}
