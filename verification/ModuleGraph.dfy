/** A Map that remembers the order in which its keys were first set. */
module OrderedMaps {

  datatype OrderedMap<K(==), V> = OrderedMap(keys: seq<K>, at: map<K, V>) {

    ghost predicate Valid() {
      && (forall k | k in at :: k in keys) && (forall k | k in keys :: k in at)
      && (forall i, j | 0 <= i < j < |keys| :: keys[i] != keys[j])
    }

    function Put(k: K, v: V): (r: OrderedMap<K, V>)
      requires Valid()
      ensures r.Valid() && r.at == at[k := v]
    {
      OrderedMap(if k in at then keys else keys + [k], at[k := v])
    }
  }

  function EmptyMap<K(==), V>(): OrderedMap<K, V> { OrderedMap([], map[]) }
}

/**
 The measured graphs of a repository: which module imports which, and which package is
 imported by which module, with the number of imports each edge stands for.
 */
module ModuleGraph {
  import opened Common
  import opened OrderedMaps
  import opened StableSort

  const ROOT_MODULE := "(root)"
  const MAX_MODULE_EDGES := 24
  const MAX_EXTERNAL_IMPORTS := 40

  type Pair = (string, string)
  type Row = OrderedMap<string, nat>
  type Weights = OrderedMap<string, Row>

  datatype Edge = Edge(from: string, to: string, weight: nat)

  function ModuleOfFile(fileToModule: map<string, string>, path: string): string {
    if path in fileToModule then fileToModule[path] else ROOT_MODULE
  }

  // ─── Counting ───────────────────────────────────────────────────────────────

  function WeightOf(w: Weights, from: string, to: string): nat {
    if from in w.at && to in w.at[from].at then w.at[from].at[to] else 0
  }

  /** The nested counters agree with the pairs counted, and hold no zero. */
  ghost predicate Counts(w: Weights, pairs: seq<Pair>) {
    && w.Valid()
    && (forall m | m in w.at :: w.at[m].Valid())
    && (forall m, n | m in w.at && n in w.at[m].at :: w.at[m].at[n] > 0)
    && (forall m, n :: WeightOf(w, m, n) == multiset(pairs)[(m, n)])
  }

  lemma CountedOneMore(w: Weights, r: Weights, from: string, to: string, pairs: seq<Pair>, m: string, n: string)
    requires WeightOf(w, m, n) == multiset(pairs)[(m, n)]
    requires WeightOf(r, m, n) == WeightOf(w, m, n) + (if m == from && n == to then 1 else 0)
    ensures WeightOf(r, m, n) == multiset(pairs + [(from, to)])[(m, n)]
  {
  }

  function RowOf(w: Weights, from: string): Row {
    if from in w.at then w.at[from] else EmptyMap()
  }

  /** The counters with one more import of to by from. */
  function Counted(w: Weights, from: string, to: string): Weights
    requires w.Valid() && RowOf(w, from).Valid()
  {
    w.Put(from, RowOf(w, from).Put(to, WeightOf(w, from, to) + 1))
  }

  lemma CountedWeight(w: Weights, from: string, to: string, m: string, n: string)
    requires w.Valid() && RowOf(w, from).Valid()
    ensures WeightOf(Counted(w, from, to), m, n) == WeightOf(w, m, n) + (if m == from && n == to then 1 else 0)
  {
  }

  method Count(w: Weights, from: string, to: string, ghost pairs: seq<Pair>) returns (r: Weights)
    requires Counts(w, pairs)
    ensures Counts(r, pairs + [(from, to)])
  {
    var row := RowOf(w, from);
    r := w.Put(from, row.Put(to, WeightOf(w, from, to) + 1));
    CountedCounts(w, from, to, pairs);
  }

  lemma CountedCounts(w: Weights, from: string, to: string, pairs: seq<Pair>)
    requires Counts(w, pairs)
    ensures Counts(Counted(w, from, to), pairs + [(from, to)])
  {
    var r := Counted(w, from, to);
    forall m, n ensures WeightOf(r, m, n) == multiset(pairs + [(from, to)])[(m, n)] {
      CountedWeight(w, from, to, m, n);
      CountedOneMore(w, r, from, to, pairs, m, n);
    }
    CountedRows(w, from, to);
  }

  lemma CountedRows(w: Weights, from: string, to: string)
    requires w.Valid() && (forall m | m in w.at :: w.at[m].Valid())
    requires forall m, n | m in w.at && n in w.at[m].at :: w.at[m].at[n] > 0
    ensures var r := Counted(w, from, to);
            && r.Valid() && (forall m | m in r.at :: r.at[m].Valid())
            && (forall m, n | m in r.at && n in r.at[m].at :: r.at[m].at[n] > 0)
  {
  }

  // ─── Flattening, sorting, capping ───────────────────────────────────────────

  /** One edge per pair counted, weighing what was counted. */
  ghost predicate Edges(edges: seq<Edge>, pairs: seq<Pair>) {
    && (forall i | 0 <= i < |edges| :: edges[i].weight == multiset(pairs)[(edges[i].from, edges[i].to)] > 0)
    && (forall i, j | 0 <= i < j < |edges| :: edges[i].from != edges[j].from || edges[i].to != edges[j].to)
  }

  ghost predicate Covers(edges: seq<Edge>, p: Pair) {
    exists i | 0 <= i < |edges| :: edges[i].from == p.0 && edges[i].to == p.1
  }

  /** The cap dropped nothing heavier than what it kept, and nothing at all while there was room. */
  ghost predicate HeaviestKept(edges: seq<Edge>, pairs: seq<Pair>, cap: nat) {
    && |edges| <= cap
    && (forall i, j | 0 <= i < j < |edges| :: edges[i].weight >= edges[j].weight)
    && (forall p | p in pairs && !Covers(edges, p) ::
          |edges| == cap && forall i | 0 <= i < |edges| :: edges[i].weight >= multiset(pairs)[p])
  }

  function ByWeight(): Edge -> int { (e: Edge) => 0 - e.weight }

  /** The entries of one row, as edges. */
  method FlattenRow(w: Weights, from: string, ghost pairs: seq<Pair>) returns (edges: seq<Edge>)
    requires Counts(w, pairs) && from in w.at
    ensures Edges(edges, pairs)
    ensures forall e | e in edges :: e.from == from
    ensures forall n | n in w.at[from].at :: Covers(edges, (from, n))
  {
    var row := w.at[from];
    edges := [];
    for j := 0 to |row.keys|
      invariant |edges| == j
      invariant forall k | 0 <= k < j :: edges[k] == Edge(from, row.keys[k], row.at[row.keys[k]])
    {
      edges := edges + [Edge(from, row.keys[j], row.at[row.keys[j]])];
    }
    forall k | 0 <= k < |edges| ensures edges[k].weight == multiset(pairs)[(edges[k].from, edges[k].to)] > 0 {
      assert WeightOf(w, from, row.keys[k]) == row.at[row.keys[k]];
    }
    forall n | n in row.at ensures Covers(edges, (from, n)) {
      var k :| 0 <= k < |row.keys| && row.keys[k] == n;
      assert edges[k].to == n;
    }
  }

  /** The rows before the i-th are flattened. */
  ghost predicate Flattened(w: Weights, pairs: seq<Pair>, edges: seq<Edge>, i: nat)
    requires i <= |w.keys| && forall m | m in w.keys :: m in w.at
  {
    && Edges(edges, pairs)
    && (forall e | e in edges :: e.from in w.keys[..i])
    && (forall a, n | 0 <= a < i && n in w.at[w.keys[a]].at :: Covers(edges, (w.keys[a], n)))
  }

  lemma FlattenOne(w: Weights, pairs: seq<Pair>, edges: seq<Edge>, i: nat, more: seq<Edge>)
    requires i < |w.keys| && Counts(w, pairs) && Flattened(w, pairs, edges, i)
    requires Edges(more, pairs) && (forall e | e in more :: e.from == w.keys[i])
    requires forall n | n in w.at[w.keys[i]].at :: Covers(more, (w.keys[i], n))
    ensures Flattened(w, pairs, edges + more, i + 1)
  {
    JoinEdges(edges, more, pairs, w.keys[i]);
    CoversMore(edges, more);
  }

  method Flatten(w: Weights, ghost pairs: seq<Pair>) returns (edges: seq<Edge>)
    requires Counts(w, pairs)
    ensures Edges(edges, pairs)
    ensures forall p | p in pairs :: Covers(edges, p)
  {
    edges := [];
    for i := 0 to |w.keys|
      invariant Flattened(w, pairs, edges, i)
    {
      var more := FlattenRow(w, w.keys[i], pairs);
      FlattenOne(w, pairs, edges, i, more);
      edges := edges + more;
    }
    AllCovered(w, pairs, edges);
  }

  lemma AllCovered(w: Weights, pairs: seq<Pair>, edges: seq<Edge>)
    requires Counts(w, pairs)
    requires forall a, n | 0 <= a < |w.keys| && n in w.at[w.keys[a]].at :: Covers(edges, (w.keys[a], n))
    ensures forall p | p in pairs :: Covers(edges, p)
  {
    forall p | p in pairs ensures Covers(edges, p) {
      assert WeightOf(w, p.0, p.1) == multiset(pairs)[p] > 0;
      var a :| 0 <= a < |w.keys| && w.keys[a] == p.0;
    }
  }

  lemma JoinEdges(edges: seq<Edge>, more: seq<Edge>, pairs: seq<Pair>, from: string)
    requires Edges(edges, pairs) && Edges(more, pairs)
    requires (forall e | e in more :: e.from == from) && (forall e | e in edges :: e.from != from)
    ensures Edges(edges + more, pairs)
  {
  }

  lemma CoversMore(edges: seq<Edge>, more: seq<Edge>)
    ensures forall p :: Covers(edges, p) || Covers(more, p) ==> Covers(edges + more, p)
  {
    forall p | Covers(edges, p) ensures Covers(edges + more, p) {
      var i :| 0 <= i < |edges| && edges[i].from == p.0 && edges[i].to == p.1;
      assert (edges + more)[i] == edges[i];
    }
    forall p | Covers(more, p) ensures Covers(edges + more, p) {
      var i :| 0 <= i < |more| && more[i].from == p.0 && more[i].to == p.1;
      assert (edges + more)[|edges| + i] == more[i];
    }
  }

  method HeaviestFirst(w: Weights, cap: nat, ghost pairs: seq<Pair>) returns (edges: seq<Edge>)
    requires Counts(w, pairs)
    ensures Edges(edges, pairs) && HeaviestKept(edges, pairs, cap)
  {
    var all := Flatten(w, pairs);
    var sorted := SortBy(all, ByWeight());
    edges := if |sorted| > cap then sorted[..cap] else sorted;
    SortedEdges(all, pairs, sorted);
    CapKeepsHeaviest(sorted, pairs, cap);
  }

  lemma CapKeepsHeaviest(sorted: seq<Edge>, pairs: seq<Pair>, cap: nat)
    requires Edges(sorted, pairs) && forall p | p in pairs :: Covers(sorted, p)
    requires forall i, j | 0 <= i < j < |sorted| :: sorted[i].weight >= sorted[j].weight
    ensures var edges := if |sorted| > cap then sorted[..cap] else sorted;
            Edges(edges, pairs) && HeaviestKept(edges, pairs, cap)
  {
    var edges := if |sorted| > cap then sorted[..cap] else sorted;
    forall p | p in pairs && !Covers(edges, p)
      ensures |edges| == cap && forall i | 0 <= i < |edges| :: edges[i].weight >= multiset(pairs)[p]
    {
      assert forall j | 0 <= j < |edges| :: edges[j] == sorted[j];
      var j :| 0 <= j < |sorted| && sorted[j].from == p.0 && sorted[j].to == p.1;
    }
  }

  lemma SortedEdges(all: seq<Edge>, pairs: seq<Pair>, sorted: seq<Edge>)
    requires Edges(all, pairs) && (forall p | p in pairs :: Covers(all, p))
    requires sorted == SortBy(all, ByWeight())
    ensures Edges(sorted, pairs)
    ensures forall p | p in pairs :: Covers(sorted, p)
    ensures forall i, j | 0 <= i < j < |sorted| :: sorted[i].weight >= sorted[j].weight
  {
    SortByCorrect(all, ByWeight());
    SortBySameElements(all, ByWeight());
    forall i | 0 <= i < |sorted|
      ensures sorted[i].weight == multiset(pairs)[(sorted[i].from, sorted[i].to)] > 0
    {
      assert sorted[i] in all;
    }
    forall p | p in pairs ensures Covers(sorted, p) {
      var i :| 0 <= i < |all| && all[i].from == p.0 && all[i].to == p.1;
      assert all[i] in sorted;
    }
    forall i, j | 0 <= i < j < |sorted|
      ensures sorted[i].from != sorted[j].from || sorted[i].to != sorted[j].to
      ensures sorted[i].weight >= sorted[j].weight
    {
      assert ByWeight()(sorted[i]) <= ByWeight()(sorted[j]);
      if sorted[i].from == sorted[j].from && sorted[i].to == sorted[j].to {
        assert sorted[i] == sorted[j];
        Twice(sorted, i, j);
        OncePerPair(all, pairs, sorted[i]);
        assert false;
      }
    }
  }

  lemma {:induction false} OncePerPair(s: seq<Edge>, pairs: seq<Pair>, e: Edge)
    requires Edges(s, pairs)
    ensures multiset(s)[e] <= 1
  {
    if s != [] {
      var front := s[..|s| - 1];
      assert s == front + [s[|s| - 1]];
      OncePerPair(front, pairs, e);
      if e == s[|s| - 1] { assert e !in front; }
    }
  }

  // ─── The two graphs ─────────────────────────────────────────────────────────

  /** An import is counted when it resolves to a known module other than the importer's. */
  function CrossModule(fileToModule: map<string, string>, from: string, dep: string): seq<Pair> {
    if dep in fileToModule && fileToModule[dep] != "" && fileToModule[dep] != from
    then [(from, fileToModule[dep])] else []
  }

  function CrossModuleAll(fileToModule: map<string, string>, from: string, deps: seq<string>): seq<Pair> {
    if deps == [] then []
    else CrossModuleAll(fileToModule, from, deps[..|deps| - 1]) + CrossModule(fileToModule, from, deps[|deps| - 1])
  }

  /** The cross-module resolved imports of all files; reading a file's imports may fail. */
  function Imports(files: seq<string>, deps: string -> Option<seq<string>>, fileToModule: map<string, string>): seq<Pair> {
    if files == [] then []
    else
      var path := files[|files| - 1];
      Imports(files[..|files| - 1], deps, fileToModule)
      + CrossModuleAll(fileToModule, ModuleOfFile(fileToModule, path), deps(path).GetOr([]))
  }

  lemma {:induction false} NoSelfImport(files: seq<string>, deps: string -> Option<seq<string>>, fileToModule: map<string, string>)
    ensures forall p | p in Imports(files, deps, fileToModule) :: p.0 != p.1
  {
    if files != [] {
      NoSelfImport(files[..|files| - 1], deps, fileToModule);
      var path := files[|files| - 1];
      NoSelfDep(fileToModule, ModuleOfFile(fileToModule, path), deps(path).GetOr([]));
    }
  }

  lemma {:induction false} NoSelfDep(fileToModule: map<string, string>, from: string, deps: seq<string>)
    ensures forall p | p in CrossModuleAll(fileToModule, from, deps) :: p.0 != p.1
  {
    if deps != [] { NoSelfDep(fileToModule, from, deps[..|deps| - 1]); }
  }

  lemma NextDep(fileToModule: map<string, string>, from: string, deps: seq<string>, j: nat, pairs: seq<Pair>)
    requires j < |deps|
    ensures var counted := pairs + CrossModuleAll(fileToModule, from, deps[..j]);
            pairs + CrossModuleAll(fileToModule, from, deps[..j + 1])
            == if deps[j] !in fileToModule || fileToModule[deps[j]] == "" || fileToModule[deps[j]] == from then counted
               else counted + [(from, fileToModule[deps[j]])]
  {
    assert deps[..j + 1][..j] == deps[..j];
  }

  /** Count the imports of one file. */
  method CountFile(w: Weights, from: string, deps: seq<string>, fileToModule: map<string, string>, ghost pairs: seq<Pair>)
    returns (weights: Weights)
    requires Counts(w, pairs)
    ensures Counts(weights, pairs + CrossModuleAll(fileToModule, from, deps))
  {
    weights := w;
    assert pairs + [] == pairs;
    for j := 0 to |deps|
      invariant Counts(weights, pairs + CrossModuleAll(fileToModule, from, deps[..j]))
    {
      var dep := deps[j];
      NextDep(fileToModule, from, deps, j, pairs);
      ghost var counted := CrossModuleAll(fileToModule, from, deps[..j]);
      if dep !in fileToModule || fileToModule[dep] == "" || fileToModule[dep] == from { continue; }
      weights := Count(weights, from, fileToModule[dep], pairs + counted);
    }
    assert deps[..|deps|] == deps;
  }

  method ModuleEdges(files: seq<string>, deps: string -> Option<seq<string>>, fileToModule: map<string, string>)
    returns (edges: seq<Edge>)
    ensures Edges(edges, Imports(files, deps, fileToModule))
    ensures HeaviestKept(edges, Imports(files, deps, fileToModule), MAX_MODULE_EDGES)
    ensures forall i | 0 <= i < |edges| :: edges[i].from != edges[i].to
  {
    var weights: Weights := EmptyMap();
    for i := 0 to |files|
      invariant Counts(weights, Imports(files[..i], deps, fileToModule))
    {
      assert files[..i + 1][..i] == files[..i];
      ghost var pairs := Imports(files[..i], deps, fileToModule);
      var found := deps(files[i]);
      if found.None? {
        assert pairs + [] == pairs;
        continue;
      }
      weights := CountFile(weights, ModuleOfFile(fileToModule, files[i]), found.value, fileToModule, pairs);
    }
    assert files[..|files|] == files;
    ghost var imports := Imports(files, deps, fileToModule);
    edges := HeaviestFirst(weights, MAX_MODULE_EDGES, imports);
    NoSelfImport(files, deps, fileToModule);
    forall i | 0 <= i < |edges| ensures edges[i].from != edges[i].to {
      assert (edges[i].from, edges[i].to) in imports;
    }
  }

  /** The imports of declared packages, as (module, package). */
  function PackageImports(imports: seq<(string, string)>, packageOf: string -> Option<string>, declared: set<string>,
                          fileToModule: map<string, string>): seq<Pair>
  {
    if imports == [] then []
    else
      var (specifier, path) := imports[|imports| - 1];
      var package := packageOf(specifier);
      PackageImports(imports[..|imports| - 1], packageOf, declared, fileToModule)
      + (if package.Some? && package.value in declared then [(ModuleOfFile(fileToModule, path), package.value)] else [])
  }

  lemma NextImport(imports: seq<(string, string)>, packageOf: string -> Option<string>, declared: set<string>,
                   fileToModule: map<string, string>, i: nat)
    requires i < |imports|
    ensures var pairs := PackageImports(imports[..i], packageOf, declared, fileToModule);
            var package := packageOf(imports[i].0);
            PackageImports(imports[..i + 1], packageOf, declared, fileToModule)
            == if package.Some? && package.value in declared
               then pairs + [(ModuleOfFile(fileToModule, imports[i].1), package.value)] else pairs
  {
    assert imports[..i + 1][..i] == imports[..i];
  }

  method ExternalImports(imports: seq<(string, string)>, packageOf: string -> Option<string>, declared: set<string>,
                         fileToModule: map<string, string>)
    returns (edges: seq<Edge>)
    ensures Edges(edges, PackageImports(imports, packageOf, declared, fileToModule))
    ensures HeaviestKept(edges, PackageImports(imports, packageOf, declared, fileToModule), MAX_EXTERNAL_IMPORTS)
  {
    var weights: Weights := EmptyMap();
    for i := 0 to |imports|
      invariant Counts(weights, PackageImports(imports[..i], packageOf, declared, fileToModule))
    {
      NextImport(imports, packageOf, declared, fileToModule, i);
      ghost var pairs := PackageImports(imports[..i], packageOf, declared, fileToModule);
      var (specifier, path) := imports[i];
      var package := packageOf(specifier);
      if package.None? || package.value !in declared { continue; }
      weights := Count(weights, ModuleOfFile(fileToModule, path), package.value, pairs);
    }
    assert imports[..|imports|] == imports;
    edges := HeaviestFirst(weights, MAX_EXTERNAL_IMPORTS, PackageImports(imports, packageOf, declared, fileToModule));
  }
}
