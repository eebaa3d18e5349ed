/**
 Call chains: greedy walks over the call graph, from the handlers of the routes or, when no
 route has one, from the exported functions that call most. Each hop prefers a callee in
 another file, then the one that itself calls most.
 */
module CallChains {
  import opened Common
  import opened Seqs
  import opened StableSort

  const MAX_CALL_CHAINS := 5
  const MAX_CHAIN_STEPS := 8
  const MIN_CHAIN_STEPS := 3
  const MAX_CHAIN_SEEDS := 24

  datatype Kind = Function | Method | OtherKind
  datatype Node = Node(id: string, name: string, file: string, line: nat, kind: Kind, exported: bool)
  datatype Route = Route(handler: string, file: string)
  datatype Step = Step(symbol: string, file: string, line: nat)
  datatype Chain = Chain(name: string, entryFile: string, steps: seq<Step>)

  /** The graph: callees by node id, how many calls a node makes, the nodes of a file, and the
      nodes that are functions. Reading may fail. */
  datatype Graph = Graph(
    callees: string -> Option<seq<Node>>,
    outDegree: string -> nat,
    nodesInFile: string -> Option<seq<Node>>,
    functions: Option<seq<Node>>)

  function Ids(path: seq<Node>): (r: set<string>)
    ensures forall i | 0 <= i < |path| :: path[i].id in r
    ensures forall id | id in r :: exists i | 0 <= i < |path| :: path[i].id == id
  {
    if path == [] then {} else Ids(path[..|path| - 1]) + {path[|path| - 1].id}
  }

  function NotIn(visited: set<string>): Node -> bool { (n: Node) => n.id !in visited }

  function Unvisited(nodes: seq<Node>, visited: set<string>): (r: seq<Node>)
    ensures forall n :: n in r <==> n in nodes && n.id !in visited
  {
    Filter(nodes, NotIn(visited))
  }

  function CrossKey(file: string): Node -> int { (n: Node) => if n.file != file then -1 else 0 }

  function DegreeKey(g: Graph): Node -> int { (n: Node) => 0 - g.outDegree(n.id) }

  /** The comparator sort: other files first, then by calls made. A stable sort on the first
      key after a stable sort on the second orders by both. */
  function Preferred(g: Graph, nodes: seq<Node>, file: string): seq<Node> {
    SortBy(SortBy(nodes, DegreeKey(g)), CrossKey(file))
  }

  /** The hop the walk takes from the end of a path, if any. */
  function NextHop(g: Graph, path: seq<Node>): Option<Node>
    requires path != []
  {
    var here := path[|path| - 1];
    match g.callees(here.id)
    case None => None
    case Some(callees) =>
      var sorted := Preferred(g, Unvisited(callees, Ids(path)), here.file);
      if sorted == [] then None else Some(sorted[0])
  }

  /** The whole walk from a path on. */
  function Walk(g: Graph, path: seq<Node>): seq<Node>
    requires 0 < |path| <= MAX_CHAIN_STEPS
    decreases MAX_CHAIN_STEPS - |path|
  {
    if |path| == MAX_CHAIN_STEPS || NextHop(g, path).None? then path
    else Walk(g, path + [NextHop(g, path).value])
  }

  // ─── What a hop is ──────────────────────────────────────────────────────────

  /** a beats b, or they are equal: another file first, then more calls made. */
  predicate AtLeast(g: Graph, file: string, a: Node, b: Node) {
    (a.file != file && b.file == file) || ((a.file != file <==> b.file != file) && g.outDegree(a.id) >= g.outDegree(b.id))
  }

  lemma PreferredFirst(g: Graph, nodes: seq<Node>, file: string)
    requires Preferred(g, nodes, file) != []
    ensures Preferred(g, nodes, file)[0] in nodes
    ensures forall n | n in nodes :: AtLeast(g, file, Preferred(g, nodes, file)[0], n)
  {
    var best := Preferred(g, nodes, file)[0];
    PreferredElements(g, nodes, file, best);
    forall n | n in nodes ensures AtLeast(g, file, best, n) {
      BestOver(g, nodes, file, n);
    }
  }

  lemma PreferredElements(g: Graph, nodes: seq<Node>, file: string, n: Node)
    ensures n in SortBy(nodes, DegreeKey(g)) <==> n in nodes
    ensures n in Preferred(g, nodes, file) <==> n in nodes
  {
    SortBySameElements(nodes, DegreeKey(g));
    SortBySameElements(SortBy(nodes, DegreeKey(g)), CrossKey(file));
  }

  lemma BestOver(g: Graph, nodes: seq<Node>, file: string, n: Node)
    requires n in nodes && Preferred(g, nodes, file) != []
    ensures AtLeast(g, file, Preferred(g, nodes, file)[0], n)
  {
    var cross, degree := CrossKey(file), DegreeKey(g);
    var byDegree, sorted := SortBy(nodes, degree), Preferred(g, nodes, file);
    var k := cross(sorted[0]);
    PreferredElements(g, nodes, file, n);
    SortByCorrect(byDegree, cross);
    FirstIsLeast(sorted, cross, n);
    if cross(n) == k {
      SortByCorrect(nodes, degree);
      HeadOfKey(sorted, cross);
      WithKeySorted(byDegree, cross, k, degree);
      InWithKey(byDegree, cross, k, n);
      FirstIsLeast(WithKey(byDegree, cross, k), degree, n);
    }
  }

  lemma FirstIsLeast(s: seq<Node>, key: Node -> int, n: Node)
    requires SortedBy(s, key) && n in s
    ensures key(s[0]) <= key(n)
  {
    var i :| 0 <= i < |s| && s[i] == n;
  }

  /** A hop goes to an unvisited callee that no other unvisited callee beats; there is none to
      take exactly when the callees cannot be read or are all visited. */
  ghost predicate Hop(g: Graph, path: seq<Node>, next: Node)
    requires path != []
  {
    var here := path[|path| - 1];
    && g.callees(here.id).Some?
    && next in g.callees(here.id).value && next.id !in Ids(path)
    && forall n | n in g.callees(here.id).value && n.id !in Ids(path) :: AtLeast(g, here.file, next, n)
  }

  ghost predicate Stuck(g: Graph, path: seq<Node>)
    requires path != []
  {
    var callees := g.callees(path[|path| - 1].id);
    callees.Some? ==> forall n | n in callees.value :: n.id in Ids(path)
  }

  lemma NextHopIs(g: Graph, path: seq<Node>)
    requires path != []
    ensures NextHop(g, path).Some? ==> Hop(g, path, NextHop(g, path).value)
    ensures NextHop(g, path).None? <==> Stuck(g, path)
  {
    var here := path[|path| - 1];
    if g.callees(here.id).Some? {
      var open := Unvisited(g.callees(here.id).value, Ids(path));
      if Preferred(g, open, here.file) == [] {
        SortByCorrect(open, DegreeKey(g));
        SortByCorrect(SortBy(open, DegreeKey(g)), CrossKey(here.file));
        assert open == [];
        forall n | n in g.callees(here.id).value ensures n.id in Ids(path) {
          assert n !in open;
        }
      } else {
        PreferredFirst(g, open, here.file);
      }
    }
  }

  /** A simple path along call edges, every hop the preferred one. */
  ghost predicate GreedyPath(g: Graph, path: seq<Node>) {
    && path != []
    && DistinctIds(path)
    && (forall k | 0 < k < |path| :: Hop(g, path[..k], path[k]))
  }

  predicate DistinctIds(path: seq<Node>) {
    forall i, j | 0 <= i < j < |path| :: path[i].id != path[j].id
  }

  lemma ExtendIds(path: seq<Node>, next: Node)
    requires DistinctIds(path) && next.id !in Ids(path)
    ensures DistinctIds(path + [next])
  {
  }

  lemma Extend(g: Graph, path: seq<Node>, next: Node)
    requires GreedyPath(g, path) && Hop(g, path, next)
    ensures GreedyPath(g, path + [next])
  {
    var longer := path + [next];
    ExtendIds(path, next);
    forall k | 0 < k < |longer| ensures Hop(g, longer[..k], longer[k]) {
      TakeOfSnoc(path, next, k);
    }
  }

  lemma {:induction false} WalkIs(g: Graph, path: seq<Node>)
    requires 0 < |path| <= MAX_CHAIN_STEPS && GreedyPath(g, path)
    ensures path <= Walk(g, path) && |Walk(g, path)| <= MAX_CHAIN_STEPS
    ensures GreedyPath(g, Walk(g, path))
    ensures |Walk(g, path)| == MAX_CHAIN_STEPS || Stuck(g, Walk(g, path))
    decreases MAX_CHAIN_STEPS - |path|
  {
    NextHopIs(g, path);
    if |path| < MAX_CHAIN_STEPS && NextHop(g, path).Some? {
      var longer := path + [NextHop(g, path).value];
      Extend(g, path, NextHop(g, path).value);
      WalkIs(g, longer);
    }
  }

  // ─── Where to start ─────────────────────────────────────────────────────────

  predicate Handles(n: Node, handler: string) { n.name == handler && (n.kind.Function? || n.kind.Method?) }

  /** The first function or method of that name in a file. */
  function FindHandler(nodes: seq<Node>, handler: string): (found: Option<Node>)
    ensures found.Some? ==>
              && found.value.name == handler && found.value.kind != OtherKind
              && exists k | 0 <= k < |nodes| :: nodes[k] == found.value && forall j | 0 <= j < k :: !Handles(nodes[j], handler)
    ensures found.None? <==> forall n | n in nodes :: n.name != handler || n.kind == OtherKind
  {
    if nodes == [] then None
    else if Handles(nodes[0], handler) then Some(nodes[0])
    else
      assert forall n :: n in nodes <==> n == nodes[0] || n in nodes[1..];
      FindHandler(nodes[1..], handler)
  }

  function HandlerOf(g: Graph, route: Route): Option<Node> {
    match g.nodesInFile(route.file)
    case None => None
    case Some(nodes) => FindHandler(nodes, route.handler)
  }

  predicate HasId(nodes: seq<Node>, id: string) { exists n | n in nodes :: n.id == id }

  /** A seed is taken once, by id. */
  function AddSeed(seeds: seq<Node>, n: Node): seq<Node> { if HasId(seeds, n.id) then seeds else seeds + [n] }

  function AddSeeds(seeds: seq<Node>, nodes: seq<Node>): seq<Node> {
    if nodes == [] then seeds else AddSeed(AddSeeds(seeds, nodes[..|nodes| - 1]), nodes[|nodes| - 1])
  }

  /** The handlers that could be found, in the order of their routes. */
  function Handlers(g: Graph, routes: seq<Route>): (r: seq<Node>)
    ensures forall n | n in r :: exists route | route in routes :: HandlerOf(g, route) == Some(n)
    ensures forall route | route in routes && HandlerOf(g, route).Some? :: HandlerOf(g, route).value in r
  {
    if routes == [] then []
    else
      var last := routes[|routes| - 1];
      assert forall route | route in routes :: route in routes[..|routes| - 1] || route == last;
      Handlers(g, routes[..|routes| - 1]) + (if HandlerOf(g, last).Some? then [HandlerOf(g, last).value] else [])
  }

  predicate IsExported(n: Node) { n.exported }

  function Exported(nodes: seq<Node>): (r: seq<Node>)
    ensures forall n :: n in r <==> n in nodes && n.exported
  {
    Filter(nodes, IsExported)
  }

  /** The exported functions looked at. */
  function Candidates(g: Graph): seq<Node> { Take(Exported(g.functions.GetOr([])), MAX_CHAIN_SEEDS * 2) }

  /** Those of them that call most. */
  function Busiest(g: Graph): seq<Node> { Take(SortBy(Candidates(g), DegreeKey(g)), MAX_CHAIN_SEEDS) }

  function Seeds(g: Graph, routes: seq<Route>): seq<Node> {
    var handlers := AddSeeds([], Handlers(g, routes));
    if handlers != [] then handlers else AddSeeds([], Busiest(g))
  }

  lemma {:induction false} AddedSeeds(nodes: seq<Node>)
    ensures DistinctIds(AddSeeds([], nodes))
    ensures forall n | n in AddSeeds([], nodes) :: n in nodes
    ensures forall n | n in nodes :: HasId(AddSeeds([], nodes), n.id)
  {
    if nodes != [] {
      var front, last := nodes[..|nodes| - 1], nodes[|nodes| - 1];
      AddedSeeds(front);
      var seeds := AddSeeds([], front);
      assert forall n | n in nodes :: n in front || n == last;
      assert forall n | n in seeds :: n in AddSeed(seeds, last);
      if !HasId(seeds, last.id) {
        assert last in AddSeed(seeds, last);
        forall i, j | 0 <= i < j < |seeds + [last]| ensures (seeds + [last])[i].id != (seeds + [last])[j].id {
          if j == |seeds| { assert seeds[i] in seeds; }
        }
      }
    }
  }

  lemma BusyAreCandidates(g: Graph, n: Node)
    requires n in Busiest(g)
    ensures n in Candidates(g) && n.exported
  {
    SortBySameElements(Candidates(g), DegreeKey(g));
    assert n in SortBy(Candidates(g), DegreeKey(g));
    assert n in Exported(g.functions.GetOr([]));
  }

  lemma BusiestCallMost(g: Graph, n: Node, m: Node)
    requires n in Busiest(g) && m in Candidates(g) && m !in Busiest(g)
    ensures n in Candidates(g) && g.outDegree(n.id) >= g.outDegree(m.id)
  {
    var sorted := SortBy(Candidates(g), DegreeKey(g));
    SortBySameElements(Candidates(g), DegreeKey(g));
    SortByCorrect(Candidates(g), DegreeKey(g));
    var i :| 0 <= i < |Busiest(g)| && Busiest(g)[i] == n;
    assert sorted[i] == n && n in sorted;
    var j := InRest(sorted, MAX_CHAIN_SEEDS, m);
  }

  lemma {:induction false} NoHandlers(g: Graph, routes: seq<Route>)
    requires forall route | route in routes :: HandlerOf(g, route).None?
    ensures Handlers(g, routes) == []
  {
    if routes != [] { NoHandlers(g, routes[..|routes| - 1]); }
  }

  /** No seed twice. If any route's handler is found, the seeds are the handlers found, all of
      them; else they are exported functions, and no candidate left out calls more. */
  lemma SeedsAre(g: Graph, routes: seq<Route>)
    ensures DistinctIds(Seeds(g, routes))
    ensures
      if exists route :: route in routes && HandlerOf(g, route).Some? then
        && (forall n | n in Seeds(g, routes) :: exists route | route in routes :: HandlerOf(g, route) == Some(n))
        && (forall route | route in routes && HandlerOf(g, route).Some? :: HasId(Seeds(g, routes), HandlerOf(g, route).value.id))
      else
        && (forall n | n in Seeds(g, routes) :: n in Candidates(g) && n.exported)
        && (forall n, m | n in Seeds(g, routes) && m in Candidates(g) && !HasId(Seeds(g, routes), m.id) ::
              g.outDegree(n.id) >= g.outDegree(m.id))
  {
    var handlers := Handlers(g, routes);
    AddedSeeds(handlers);
    AddedSeeds(Busiest(g));
    if route :| route in routes && HandlerOf(g, route).Some? {
      assert HandlerOf(g, route).value in handlers;
      assert Seeds(g, routes) == AddSeeds([], handlers);
    } else {
      NoHandlers(g, routes);
      SeedsAreBusiest(g, Seeds(g, routes));
    }
  }

  lemma SeedsAreBusiest(g: Graph, seeds: seq<Node>)
    requires seeds == AddSeeds([], Busiest(g))
    ensures forall n | n in seeds :: n in Candidates(g) && n.exported
    ensures forall n, m | n in seeds && m in Candidates(g) && !HasId(seeds, m.id) :: g.outDegree(n.id) >= g.outDegree(m.id)
  {
    AddedSeeds(Busiest(g));
    forall n | n in seeds ensures n in Candidates(g) && n.exported { BusyAreCandidates(g, n); }
    forall n, m | n in seeds && m in Candidates(g) && !HasId(seeds, m.id) ensures g.outDegree(n.id) >= g.outDegree(m.id) {
      BusiestCallMost(g, n, m);
    }
  }

  /** The ids of the seeds so far. */
  ghost predicate Tracks(seen: set<string>, seeds: seq<Node>) { forall id :: id in seen <==> HasId(seeds, id) }

  method PushSeed(seeds: seq<Node>, seen: set<string>, n: Node) returns (seeds': seq<Node>, seen': set<string>)
    requires Tracks(seen, seeds)
    ensures seeds' == AddSeed(seeds, n) && Tracks(seen', seeds')
  {
    if n.id in seen { return seeds, seen; }
    seeds', seen' := seeds + [n], seen + {n.id};
    assert forall x | x in seeds' :: x in seeds || x == n;
    assert n in seeds' && forall x | x in seeds :: x in seeds';
  }

  lemma NextHandler(g: Graph, routes: seq<Route>, i: nat)
    requires i < |routes|
    ensures var seeds, handler := AddSeeds([], Handlers(g, routes[..i])), HandlerOf(g, routes[i]);
            AddSeeds([], Handlers(g, routes[..i + 1])) == if handler.Some? then AddSeed(seeds, handler.value) else seeds
  {
    assert routes[..i + 1][..i] == routes[..i];
    var handlers, handler := Handlers(g, routes[..i]), HandlerOf(g, routes[i]);
    if handler.Some? {
      assert (handlers + [handler.value])[..|handlers|] == handlers;
    } else {
      assert Handlers(g, routes[..i + 1]) == handlers;
    }
  }

  method ChainSeeds(g: Graph, routes: seq<Route>) returns (seeds: seq<Node>)
    ensures seeds == Seeds(g, routes)
  {
    seeds := [];
    var seen: set<string> := {};
    for i := 0 to |routes|
      invariant seeds == AddSeeds([], Handlers(g, routes[..i])) && Tracks(seen, seeds)
    {
      NextHandler(g, routes, i);
      var handler := HandlerOf(g, routes[i]);
      if handler.Some? {
        seeds, seen := PushSeed(seeds, seen, handler.value);
      }
    }
    assert routes[..|routes|] == routes;
    if seeds == [] { seeds := PushAll(Busiest(g), seen); }
  }

  method PushAll(nodes: seq<Node>, seen: set<string>) returns (seeds: seq<Node>)
    requires Tracks(seen, [])
    ensures seeds == AddSeeds([], nodes)
  {
    seeds := [];
    var seen := seen;
    for i := 0 to |nodes|
      invariant seeds == AddSeeds([], nodes[..i]) && Tracks(seen, seeds)
    {
      assert nodes[..i + 1][..i] == nodes[..i];
      seeds, seen := PushSeed(seeds, seen, nodes[i]);
    }
    assert nodes[..|nodes|] == nodes;
  }

  // ─── The chains ─────────────────────────────────────────────────────────────

  function StepOf(n: Node): Step { Step(n.name, n.file, n.line) }

  function Steps(path: seq<Node>): (r: seq<Step>)
    ensures |r| == |path| && forall i | 0 <= i < |path| :: r[i] == StepOf(path[i])
  {
    seq(|path|, i requires 0 <= i < |path| => StepOf(path[i]))
  }

  /** The walks long enough to be chains, in the order of their seeds. */
  function LongWalks(g: Graph, seeds: seq<Node>): seq<seq<Node>> {
    if seeds == [] then []
    else
      var walk := Walk(g, [seeds[|seeds| - 1]]);
      LongWalks(g, seeds[..|seeds| - 1]) + (if |walk| >= MIN_CHAIN_STEPS then [walk] else [])
  }

  /** A chain names its first node, and lists all of them by name, file and line. */
  ghost predicate IsChainOf(c: Chain, path: seq<Node>) {
    && path != [] && c.name == path[0].name && c.entryFile == path[0].file && |c.steps| == |path|
    && forall i | 0 <= i < |path| ::
         c.steps[i].symbol == path[i].name && c.steps[i].file == path[i].file && c.steps[i].line == path[i].line
  }

  ghost predicate ChainsOf(chains: seq<Chain>, paths: seq<seq<Node>>) {
    |chains| == |paths| && forall i | 0 <= i < |paths| :: IsChainOf(chains[i], paths[i])
  }

  /** Where the walk loop stands. */
  ghost predicate Walking(g: Graph, seed: Node, path: seq<Node>, steps: seq<Step>, visited: set<string>, current: string) {
    && 0 < |path| <= MAX_CHAIN_STEPS && steps == Steps(path)
    && visited == Ids(path) && current == path[|path| - 1].id
    && Walk(g, [seed]) == Walk(g, path)
  }

  lemma WalkOn(g: Graph, seed: Node, path: seq<Node>, steps: seq<Step>, visited: set<string>, current: string, next: Node)
    requires Walking(g, seed, path, steps, visited, current) && |path| < MAX_CHAIN_STEPS && NextHop(g, path) == Some(next)
    ensures Walking(g, seed, path + [next], steps + [StepOf(next)], visited + {next.id}, next.id)
  {
    TakeOfSnoc(path, next, |path|);
  }

  /** The next hop, from the running state of the walk. */
  method TakeHop(g: Graph, steps: seq<Step>, visited: set<string>, current: string, ghost path: seq<Node>) returns (hop: Option<Node>)
    requires path != [] && steps == Steps(path) && visited == Ids(path) && current == path[|path| - 1].id
    ensures hop == NextHop(g, path)
  {
    assert steps[|steps| - 1] == StepOf(path[|path| - 1]);
    var candidates := g.callees(current);
    if candidates.None? { return None; }
    var sorted := Preferred(g, Unvisited(candidates.value, visited), steps[|steps| - 1].file);
    if sorted == [] { return None; }
    return Some(sorted[0]);
  }

  lemma WalkEnds(g: Graph, path: seq<Node>)
    requires 0 < |path| <= MAX_CHAIN_STEPS && (|path| == MAX_CHAIN_STEPS || NextHop(g, path).None?)
    ensures Walk(g, path) == path
  {
  }

  /** One walk, as the loop takes it: a growing list of steps and a set of visited ids. */
  method WalkFrom(g: Graph, seed: Node) returns (steps: seq<Step>, ghost path: seq<Node>)
    ensures steps == Steps(Walk(g, [seed])) && path == Walk(g, [seed])
  {
    path := [seed];
    steps := [StepOf(seed)];
    var visited, current := {seed.id}, seed.id;
    assert [seed][..0] == [];
    var going := true;
    while going && |steps| < MAX_CHAIN_STEPS
      invariant Walking(g, seed, path, steps, visited, current)
      invariant going || NextHop(g, path).None?
      decreases MAX_CHAIN_STEPS - |steps|, going
    {
      var hop := TakeHop(g, steps, visited, current, path);
      if hop.None? {
        going := false;
      } else {
        WalkOn(g, seed, path, steps, visited, current, hop.value);
        path := path + [hop.value];
        visited, current := visited + {hop.value.id}, hop.value.id;
        steps := steps + [StepOf(hop.value)];
      }
    }
    WalkEnds(g, path);
  }

  lemma ChainsGrow(chains: seq<Chain>, paths: seq<seq<Node>>, chain: Chain, path: seq<Node>)
    requires ChainsOf(chains, paths) && IsChainOf(chain, path)
    ensures ChainsOf(chains + [chain], paths + [path])
  {
  }

  method CallChainFacts(g: Graph, routes: seq<Route>) returns (chains: seq<Chain>)
    ensures ChainsOf(chains, Take(LongWalks(g, Take(Seeds(g, routes), MAX_CHAIN_SEEDS)), MAX_CALL_CHAINS))
  {
    var seeds := ChainSeeds(g, routes);
    chains := WalkSeeds(g, seeds);
  }

  method WalkSeeds(g: Graph, seeds: seq<Node>) returns (chains: seq<Chain>)
    ensures ChainsOf(chains, Take(LongWalks(g, Take(seeds, MAX_CHAIN_SEEDS)), MAX_CALL_CHAINS))
  {
    chains := [];
    var tried := Take(seeds, MAX_CHAIN_SEEDS);
    ghost var paths: seq<seq<Node>> := [];
    for i := 0 to |tried|
      invariant Tried(g, tried, i, chains, paths)
    {
      if |chains| >= MAX_CALL_CHAINS {
        AllTried(g, tried, i, chains, paths);
        return;
      }
      var steps, path := WalkFrom(g, tried[i]);
      NextWalk(g, tried, i, chains, paths, path);
      if |steps| >= MIN_CHAIN_STEPS {
        chains := chains + [Chain(tried[i].name, tried[i].file, steps)];
        paths := paths + [path];
      }
    }
    AllTried(g, tried, |tried|, chains, paths);
  }

  /** The chains of the first i seeds, not yet more than fit. */
  ghost predicate Tried(g: Graph, tried: seq<Node>, i: nat, chains: seq<Chain>, paths: seq<seq<Node>>)
    requires i <= |tried|
  {
    paths == LongWalks(g, tried[..i]) && |paths| <= MAX_CALL_CHAINS && ChainsOf(chains, paths)
  }

  lemma NextWalk(g: Graph, tried: seq<Node>, i: nat, chains: seq<Chain>, paths: seq<seq<Node>>, path: seq<Node>)
    requires i < |tried| && Tried(g, tried, i, chains, paths) && |paths| < MAX_CALL_CHAINS && path == Walk(g, [tried[i]])
    ensures if |path| >= MIN_CHAIN_STEPS
            then Tried(g, tried, i + 1, chains + [Chain(tried[i].name, tried[i].file, Steps(path))], paths + [path])
            else Tried(g, tried, i + 1, chains, paths)
  {
    assert tried[..i + 1][..i] == tried[..i];
    WalkStarts(g, tried[i]);
    ChainsGrow(chains, paths, Chain(tried[i].name, tried[i].file, Steps(path)), path);
  }

  lemma AllTried(g: Graph, tried: seq<Node>, i: nat, chains: seq<Chain>, paths: seq<seq<Node>>)
    requires i <= |tried| && Tried(g, tried, i, chains, paths) && (i == |tried| || |chains| >= MAX_CALL_CHAINS)
    ensures ChainsOf(chains, Take(LongWalks(g, tried), MAX_CALL_CHAINS))
  {
    LongWalksGrow(g, tried, i);
    assert tried[..|tried|] == tried;
  }

  lemma WalkStarts(g: Graph, seed: Node)
    ensures Walk(g, [seed]) != [] && Walk(g, [seed])[0] == seed
  {
    WalkIs(g, [seed]);
  }

  lemma {:induction false} LongWalksGrow(g: Graph, seeds: seq<Node>, i: nat)
    requires i <= |seeds|
    ensures LongWalks(g, seeds[..i]) <= LongWalks(g, seeds)
  {
    if i < |seeds| {
      LongWalksGrow(g, seeds[..|seeds| - 1], i);
      assert seeds[..|seeds| - 1][..i] == seeds[..i];
    } else {
      assert seeds[..i] == seeds;
    }
  }

  /** Every chain is a simple path of three to eight nodes along preferred call edges, cut
      short only where the graph ends. */
  lemma {:induction false} LongWalksAre(g: Graph, seeds: seq<Node>, i: nat)
    requires i < |LongWalks(g, seeds)|
    ensures var path := LongWalks(g, seeds)[i];
            && MIN_CHAIN_STEPS <= |path| <= MAX_CHAIN_STEPS
            && GreedyPath(g, path) && path[0] in seeds
            && (|path| == MAX_CHAIN_STEPS || Stuck(g, path))
  {
    var n := |seeds| - 1;
    if i < |LongWalks(g, seeds[..n])| {
      LongWalksAre(g, seeds[..n], i);
    } else {
      WalkIs(g, [seeds[n]]);
    }
  }
}
