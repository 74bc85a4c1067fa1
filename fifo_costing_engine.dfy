/** `FifoCostingEngine.procesarCosteo`: the fetched transactions are
    grouped by their group key and each group is handed to a processor of
    its own. The fetch query itself is abstracted as its result, the list
    of transactions in fetch order. */
module FifoCostingEngine {
  import opened Wrappers
  import opened Costeo
  import opened CostingGroupProcessor

  /** The elements of `xs` whose key under `clave` is `k`, in their order
      in `xs`. */
  function Filtrar<T, K(==)>(xs: seq<T>, clave: T -> K, k: K): (r: seq<T>)
    ensures forall x :: x in r ==> x in xs && clave(x) == k
  {
    if xs == [] then []
    else
      var x := xs[|xs| - 1];
      Filtrar(xs[..|xs| - 1], clave, k) + (if clave(x) == k then [x] else [])
  }

  /** `Collectors.groupingBy(clave)`: each element is appended, in list
      order, to the list of its key. */
  function Agrupar<T, K(==)>(xs: seq<T>, clave: T -> K): (g: map<K, seq<T>>)
  {
    if xs == [] then map[]
    else
      var g := Agrupar(xs[..|xs| - 1], clave);
      var x := xs[|xs| - 1];
      g[clave(x) := (if clave(x) in g then g[clave(x)] else []) + [x]]
  }

  /** A key no element has selects nothing. */
  lemma {:induction false} FiltrarSinClave<T, K>(xs: seq<T>, clave: T -> K, k: K)
    requires forall x :: x in xs ==> clave(x) != k
    ensures Filtrar(xs, clave, k) == []
  {
    if xs != [] {
      FiltrarSinClave(xs[..|xs| - 1], clave, k);
      assert xs[|xs| - 1] in xs;
    }
  }

  /** The groups are exactly the keys that occur, and each group holds the
      elements of its key in list order. */
  lemma {:induction false} AgruparFiltra<T, K>(xs: seq<T>, clave: T -> K)
    ensures Agrupar(xs, clave).Keys == set x | x in xs :: clave(x)
    ensures forall k :: k in Agrupar(xs, clave) ==>
      Agrupar(xs, clave)[k] == Filtrar(xs, clave, k) && Agrupar(xs, clave)[k] != []
  {
    if xs != [] {
      var init, x := xs[..|xs| - 1], xs[|xs| - 1];
      AgruparFiltra(init, clave);
      assert xs == init + [x];
      assert (set u | u in xs :: clave(u)) == (set u | u in init :: clave(u)) + {clave(x)};
      if clave(x) !in Agrupar(init, clave) {
        forall u | u in init ensures clave(u) != clave(x) {
          assert clave(u) in (set v | v in init :: clave(v));
        }
        FiltrarSinClave(init, clave, clave(x));
      }
    }
  }

  /** Every element lies in the group of its own key as many times as it
      occurs, and in no other group: the groups partition the list. */
  lemma {:induction false} FiltrarParticion<T, K>(xs: seq<T>, clave: T -> K, k: K, t: T)
    ensures multiset(Filtrar(xs, clave, k))[t] == if clave(t) == k then multiset(xs)[t] else 0
  {
    if xs != [] {
      var init, u := xs[..|xs| - 1], xs[|xs| - 1];
      var resto := if clave(u) == k then [u] else [];
      FiltrarParticion(init, clave, k, t);
      assert xs == init + [u];
      assert multiset(xs)[t] == multiset(init)[t] + (if u == t then 1 else 0);
      assert multiset(Filtrar(xs, clave, k)) == multiset(Filtrar(init, clave, k)) + multiset(resto);
    }
  }

  /** The ORDER BY of the fetch query: date, then saldo-inicial movements,
      then ingresos before egresos, then id. */
  function Rango(t: Tx): (int, int, int, int) {
    (t.fecha, if t.tipo.esSaldoInicial then 0 else 1,
     if t.tipo.contable == Ingreso then 2 else 3, t.id.GetOr(0))
  }

  predicate AntesEnFetch(a: Tx, b: Tx) {
    var (f1, s1, c1, i1) := Rango(a);
    var (f2, s2, c2, i2) := Rango(b);
    f1 < f2 || (f1 == f2 && (s1 < s2 || (s1 == s2 && (c1 < c2 || (c1 == c2 && i1 <= i2)))))
  }

  predicate EnOrdenFetch(s: seq<Tx>) {
    forall i, j :: 0 <= i < j < |s| ==> AntesEnFetch(s[i], s[j])
  }

  /** Within a group, transactions keep the fetch order. */
  lemma {:induction false} FiltrarConservaOrden<K>(txs: seq<Tx>, clave: Tx -> K, k: K)
    requires EnOrdenFetch(txs)
    ensures EnOrdenFetch(Filtrar(txs, clave, k))
  {
    if txs != [] {
      var init := txs[..|txs| - 1];
      var t := txs[|txs| - 1];
      assert EnOrdenFetch(init);
      FiltrarConservaOrden(init, clave, k);
      var a := Filtrar(init, clave, k);
      if clave(t) == k {
        var r := a + [t];
        forall i, j | 0 <= i < j < |r| ensures AntesEnFetch(r[i], r[j]) {
          if j == |a| {
            assert r[i] in init;
            var m :| 0 <= m < |init| && init[m] == r[i];
            assert txs[m] == r[i];
          } else {
            assert r[i] == a[i] && r[j] == a[j];
          }
        }
      }
    }
  }

  /** The key of every group that has not been processed yet. */
  ghost predicate Pendientes(grupos: map<string, seq<Tx>>, hechos: seq<string>, pendientes: set<string>) {
    (forall k :: k in grupos <==> k in hechos || k in pendientes)
    && (forall k :: k in hechos ==> k !in pendientes)
    && (forall i, j :: 0 <= i < j < |hechos| ==> hechos[i] != hechos[j])
  }

  /** The persisted kardex, costing details and adjustments. */
  datatype Registros = Registros(kardex: seq<Kardex>, detalles: seq<Detalle>, ajustes: seq<Tx>)

  ghost function RegistrosDe(libro: Libro): Registros
    reads libro
  {
    Registros(libro.kardex, libro.detalles, libro.ajustes)
  }

  /** The records after a fresh processor costs the group `k`: nothing
      for an empty group, otherwise what costing the group from its
      initial balance and its historic lots persists. */
  ghost function RegistrosTras(reg: Registros, k: string, grupo: seq<Tx>, q: Consultas): Registros {
    if grupo == [] then reg
    else
      var s0 := SaldoInicial(grupo[0], q.ultimoKardex);
      var e0 := Estado(s0.cantidad, s0.valor, Lotes(ColaHistorica(q.kardexGuardados, k, grupo[0].fecha)),
                       reg.kardex, reg.detalles, reg.ajustes);
      var r := Procesar(e0, grupo, k, q.tipoAjuste).estado;
      Registros(r.kardex, r.detalles, r.ajustes)
  }

  /** The records after the groups of `orden` are costed one after the
      other. */
  ghost function RegistrosTrasGrupos(reg: Registros, orden: seq<string>, grupos: map<string, seq<Tx>>,
                                     consultas: string -> Consultas): Registros
    requires forall k :: k in orden ==> k in grupos
  {
    if orden == [] then reg
    else
      var k := orden[|orden| - 1];
      RegistrosTras(RegistrosTrasGrupos(reg, orden[..|orden| - 1], grupos, consultas), k, grupos[k], consultas(k))
  }

  /** Each group's result is a prefix of its transactions marked costed. */
  ghost predicate ResultadoMarcado(grupos: map<string, seq<Tx>>, resultado: map<string, seq<Tx>>) {
    forall k :: k in resultado && k in grupos ==>
      exists n: nat :: n <= |grupos[k]| && resultado[k] == Marcadas(grupos[k], n)
  }

  /** A turn of the loop of `procesarCosteo` keeps its bookkeeping: the
      group `k` moves from pending to done with its marked transactions. */
  lemma Turno(grupos: map<string, seq<Tx>>, orden: seq<string>, pendientes: set<string>,
              resultado: map<string, seq<Tx>>, k: string, marcadas: seq<Tx>)
    requires Pendientes(grupos, orden, pendientes) && k in pendientes
    requires resultado.Keys == set j | j in orden
    requires ResultadoMarcado(grupos, resultado)
    requires exists n: nat :: n <= |grupos[k]| && marcadas == Marcadas(grupos[k], n)
    ensures Pendientes(grupos, orden + [k], pendientes - {k})
    ensures resultado[k := marcadas].Keys == set j | j in orden + [k]
    ensures ResultadoMarcado(grupos, resultado[k := marcadas])
  {
    assert forall j :: j in orden + [k] <==> j in orden || j == k;
  }

  /** One more group costed after the others. */
  lemma RegistrosTrasUnoMas(reg: Registros, orden: seq<string>, k: string, grupos: map<string, seq<Tx>>,
                            consultas: string -> Consultas)
    requires forall j :: j in orden ==> j in grupos
    requires k in grupos
    ensures RegistrosTrasGrupos(reg, orden + [k], grupos, consultas)
         == RegistrosTras(RegistrosTrasGrupos(reg, orden, grupos, consultas), k, grupos[k], consultas(k))
  {
    assert (orden + [k])[..|orden|] == orden;
  }

  /** One iteration of `procesarCosteo`: a fresh processor for the group,
      whose transactions come back marked costed up to the first failure,
      and whose kardex, details and adjustments are persisted. */
  method ProcesarGrupo(k: string, grupo: seq<Tx>, libro: Libro, consultas: Consultas, diarios: map<int, Saldo>)
    returns (marcadas: seq<Tx>)
    modifies libro
    ensures exists n: nat :: n <= |grupo| && marcadas == Marcadas(grupo, n)
    ensures RegistrosDe(libro) == RegistrosTras(old(RegistrosDe(libro)), k, grupo, consultas)
  {
    var procesador := new GroupProcessor(k, grupo, libro, diarios);
    ghost var n := procesador.Process(consultas);
    marcadas := procesador.transacciones;
    assert [] + Lotes(ColaHistorica(consultas.kardexGuardados, k, if grupo == [] then 0 else grupo[0].fecha))
        == Lotes(ColaHistorica(consultas.kardexGuardados, k, if grupo == [] then 0 else grupo[0].fecha));
  }

  /** `procesarCosteo`: every group, in the map's iteration order, by a
      processor of its own sharing the persistence context. Returns the
      order the groups were processed in and each group's transactions as
      its processor left them. */
  method ProcesarCosteo(transacciones: seq<Tx>, libro: Libro,
                        consultas: string -> Consultas, diarios: string -> map<int, Saldo>)
    returns (orden: seq<string>, resultado: map<string, seq<Tx>>)
    modifies libro
    ensures forall k :: k in orden <==> k in Agrupar(transacciones, Clave)
    ensures forall i, j :: 0 <= i < j < |orden| ==> orden[i] != orden[j]
    ensures resultado.Keys == Agrupar(transacciones, Clave).Keys
    ensures forall k :: k in resultado ==>
      exists n: nat :: n <= |Agrupar(transacciones, Clave)[k]| && resultado[k] == Marcadas(Agrupar(transacciones, Clave)[k], n)
    ensures RegistrosDe(libro) == RegistrosTrasGrupos(old(RegistrosDe(libro)), orden, Agrupar(transacciones, Clave), consultas)
  {
    var grupos := Agrupar(transacciones, Clave);
    var pendientes := grupos.Keys;
    ghost var reg0 := RegistrosDe(libro);
    orden := [];
    resultado := map[];
    while pendientes != {}
      invariant Pendientes(grupos, orden, pendientes)
      invariant resultado.Keys == set k | k in orden
      invariant ResultadoMarcado(grupos, resultado)
      invariant RegistrosDe(libro) == RegistrosTrasGrupos(reg0, orden, grupos, consultas)
      decreases pendientes
    {
      var k :| k in pendientes;
      var marcadas := ProcesarGrupo(k, grupos[k], libro, consultas(k), diarios(k));
      Turno(grupos, orden, pendientes, resultado, k, marcadas);
      resultado := resultado[k := marcadas];
      RegistrosTrasUnoMas(reg0, orden, k, grupos, consultas);
      orden := orden + [k];
      pendientes := pendientes - {k};
    }
  }
}
