/**
 The diagram builders: from measured facts and agents' findings to the items of a diagram.
 Every edge a builder draws joins two identifiers that the same diagram declares.
 */
module D2Builder {
  import opened Common
  import opened Seqs
  import opened Decimal
  import opened StableSort
  import opened D2Text
  import opened D2Ids
  import opened D2Reader

  const MAX_MODULES := 15
  const MAX_EDGES := 20
  const MAX_DEPS := 15
  const MAX_STEPS := 8
  const MAX_VULNS := 4
  const MAX_FLOW_STEPS := 6
  const MAX_FLOW_DEPS := 3
  const MAX_DEP_MODULES := 6
  const MAX_DEP_PACKAGES := 12
  const MAX_DEP_EDGES := 18

  // ─── Well-wired diagrams ────────────────────────────────────────────────────

  predicate Joins(item: Item, declared: seq<string>) {
    item.Edge? || item.Back? ==> item.from in declared && item.to in declared
  }

  /** Lexically valid throughout, and no edge names an undeclared node. */
  predicate Wired(items: seq<Item>) {
    forall item | item in items :: Lexical(item) && Joins(item, Declarations(items))
  }

  predicate NoRepeats<T(==)>(s: seq<T>) {
    forall i, j | 0 <= i < j < |s| :: s[i] != s[j]
  }

  lemma {:induction false} DeclarationsAppend(a: seq<Item>, b: seq<Item>)
    ensures Declarations(a + b) == Declarations(a) + Declarations(b)
  {
    if a == [] {
      assert a + b == b;
    } else {
      assert (a + b)[1..] == a[1..] + b && (a + b)[0] == a[0];
      DeclarationsAppend(a[1..], b);
      Regroup(Declares1(a[0]), Declarations(a[1..]), Declarations(b));
    }
  }

  function Declares1(item: Item): seq<string> {
    if item.Node? || item.Open? then [item.id] else []
  }

  /** Appending one item whose edge, if it is one, joins declared nodes. */
  lemma Add(items: seq<Item>, item: Item)
    requires Wired(items) && Lexical(item) && Joins(item, Declarations(items))
    ensures Wired(items + [item])
    ensures Declarations(items + [item]) == Declarations(items) + Declares1(item)
  {
    DeclarationsAppend(items, [item]);
    assert [item][1..] == [];
    assert Declarations([item]) == Declares1(item);
    forall x | x in items + [item] ensures Lexical(x) && Joins(x, Declarations(items + [item])) {
      assert x in items || x == item;
    }
  }

  /** The declared identifiers are those of the keys, one by one. */
  predicate Named(items: seq<Item>, keys: seq<string>, idOf: map<string, string>) {
    && |Declarations(items)| == |keys|
    && forall i | 0 <= i < |keys| :: keys[i] in idOf && Declarations(items)[i] == idOf[keys[i]]
  }

  predicate Injective(idOf: map<string, string>) {
    forall a, b | a in idOf && b in idOf && idOf[a] == idOf[b] :: a == b
  }

  /** Declaring the node of one more key. */
  lemma Declare(items: seq<Item>, keys: seq<string>, idOf: map<string, string>, key: string, item: Item)
    requires Wired(items) && Named(items, keys, idOf)
    requires item.Node? && IsIdent(item.id) && (key in idOf ==> idOf[key] == item.id)
    ensures Wired(items + [item]) && Named(items + [item], keys + [key], idOf[key := item.id])
  {
    Add(items, item);
  }

  /** Drawing an edge between two drawn keys. */
  lemma Connect(items: seq<Item>, keys: seq<string>, idOf: map<string, string>, a: string, b: string, item: Item)
    requires Wired(items) && Named(items, keys, idOf) && a in keys && b in keys && Lexical(item)
    requires item.Edge? || item.Back?
    requires a in idOf && b in idOf && item.from == idOf[a] && item.to == idOf[b]
    ensures Wired(items + [item]) && Named(items + [item], keys, idOf)
  {
    DeclaredKey(items, keys, idOf, a);
    DeclaredKey(items, keys, idOf, b);
    Add(items, item);
  }

  /** So a node is declared twice exactly when a key is drawn twice. */
  lemma NamedOnce(items: seq<Item>, keys: seq<string>, idOf: map<string, string>)
    requires Named(items, keys, idOf) && Injective(idOf)
    ensures NoRepeats(Declarations(items)) <==> NoRepeats(keys)
  {
    forall i, j | 0 <= i < j < |keys| ensures keys[i] == keys[j] <==> Declarations(items)[i] == Declarations(items)[j] {
    }
  }

  /** What the node counter makes of a builder's output: the declarations, which are the
      distinct nodes exactly when none is declared twice. */
  lemma CounterCountsNodes(items: seq<Item>)
    requires Wired(items)
    ensures CountNodes(Print(items)) == |Declarations(items)| >= |Distinct(items)|
    ensures CountNodes(Print(items)) == |Distinct(items)| <==> NoRepeats(Declarations(items))
  {
    CounterReadsDeclarations(items);
    DistinctCount(Declarations(items));
  }

  /** So in the text D2 compiles, no arrow makes a node of its own. */
  lemma PrintedWired(items: seq<Item>)
    requires Wired(items)
    ensures ArrowsJoin(Read(Print(items)))
  {
    var says := Read(Print(items));
    PrintedIsMeant(items);
    ReadersAgree(items);
    forall s | s in says && s.Arrow? ensures s.from in DeclaredIds(says) && s.to in DeclaredIds(says) {
      var item := MeantArrow(items, 0, s);
    }
  }

  /** The nodes of a diagram, however often each is declared. */
  function Distinct(items: seq<Item>): set<string> { set id | id in Declarations(items) }

  lemma {:induction false} DistinctCount(s: seq<string>)
    ensures |set x | x in s| <= |s|
    ensures |set x | x in s| == |s| <==> NoRepeats(s)
  {
    if s != [] {
      var front, last := s[..|s| - 1], s[|s| - 1];
      assert s == front + [last];
      DistinctCount(front);
      if last in front { TwiceInAll(front, last); } else { OnceMore(front, last); }
    }
  }

  lemma TwiceInAll(front: seq<string>, last: string)
    requires last in front
    ensures (set x | x in front + [last]) == (set x | x in front) && !NoRepeats(front + [last])
  {
    var i :| 0 <= i < |front| && front[i] == last;
    assert (front + [last])[i] == (front + [last])[|front|];
  }

  lemma OnceMore(front: seq<string>, last: string)
    requires last !in front
    ensures NoRepeats(front + [last]) <==> NoRepeats(front)
    ensures (set x | x in front + [last]) == (set x | x in front) + {last}
  {
    if NoRepeats(front + [last]) {
      forall i, j | 0 <= i < j < |front| ensures front[i] != front[j] {
        assert (front + [last])[i] != (front + [last])[j];
      }
    }
  }

  function Placeholder(message: string): (r: seq<Item>)
    ensures Wired(r) && |Declarations(r)| == 1
  {
    var r := [Node(false, "empty", message, Some(Muted))];
    assert Declarations(r) == ["empty"];
    r
  }

  /** A source starts with a directive, which declares nothing. */
  lemma Start(line: FixedLine)
    ensures Wired([Fixed(line)]) && Declarations([Fixed(line)]) == []
  {
    assert [Fixed(line)][1..] == [];
  }

  // ─── Module graph ───────────────────────────────────────────────────────────

  datatype Dep = Dep(from: string, to: string, text: string)

  predicate HasEnds(d: Dep) { d.from != "" && d.to != "" }

  function Usable(deps: seq<Dep>): (r: seq<Dep>)
    ensures forall d :: d in r <==> d in deps && d.from != "" && d.to != ""
  {
    Filter(deps, HasEnds)
  }

  /** Adding to a set that remembers insertion order. */
  function AddOnce(s: seq<string>, x: string): (r: seq<string>)
    requires NoRepeats(s)
    ensures NoRepeats(r) && (forall y :: y in r <==> y in s || y == x)
  {
    if x in s then s else s + [x]
  }

  function AddAll(s: seq<string>, xs: seq<string>): (r: seq<string>)
    requires NoRepeats(s)
    ensures NoRepeats(r) && (forall y :: y in r <==> y in s || y in xs)
  {
    if xs == [] then s
    else
      assert forall y :: y in xs <==> y in xs[..|xs| - 1] || y == xs[|xs| - 1];
      AddOnce(AddAll(s, xs[..|xs| - 1]), xs[|xs| - 1])
  }

  function Ends(deps: seq<Dep>): (r: seq<string>)
    ensures |r| == 2 * |deps|
    ensures forall i | 0 <= i < |deps| :: r[2 * i] == deps[i].from && r[2 * i + 1] == deps[i].to
  {
    if deps == [] then [] else Ends(deps[..|deps| - 1]) + [deps[|deps| - 1].from, deps[|deps| - 1].to]
  }

  /** The nodes: the declared modules, then whatever the edges mention. */
  function NodeSet(deps: seq<Dep>, declared: seq<string>): (r: seq<string>)
    ensures NoRepeats(r) && forall m :: m in r <==> m in declared || Mentioned(deps, m)
  {
    assert forall m :: m in Ends(deps) <==> Mentioned(deps, m) by {
      forall m ensures m in Ends(deps) <==> Mentioned(deps, m) { EndsAre(deps, m); }
    }
    AddAll(AddAll([], declared), Ends(deps))
  }

  predicate Mentioned(deps: seq<Dep>, m: string) {
    exists d | d in deps :: d.from == m || d.to == m
  }

  lemma EndsAre(deps: seq<Dep>, m: string)
    ensures m in Ends(deps) <==> Mentioned(deps, m)
  {
    var ends := Ends(deps);
    if Mentioned(deps, m) {
      var d :| d in deps && (d.from == m || d.to == m);
      var i :| 0 <= i < |deps| && deps[i] == d;
      assert ends[2 * i] == d.from && ends[2 * i + 1] == d.to;
    }
    if m in ends {
      var k :| 0 <= k < |ends| && ends[k] == m;
      assert k == 2 * (k / 2) || k == 2 * (k / 2) + 1;
      assert deps[k / 2] in deps;
    }
  }

  predicate HasIncoming(deps: seq<Dep>, m: string) {
    exists d | d in deps :: d.to == m
  }

  function RootsFirst(deps: seq<Dep>): string -> int {
    (m: string) => if HasIncoming(deps, m) then 1 else 0
  }

  /** The modules drawn: roots of the wiring first, as many as fit. */
  function DrawnModules(deps: seq<Dep>, declared: seq<string>): seq<string> {
    Take(SortBy(NodeSet(deps, declared), RootsFirst(deps)), MAX_MODULES)
  }

  /** No dependency leads to the module. */
  ghost predicate IsRoot(deps: seq<Dep>, m: string) { forall d | d in deps :: d.to != m }

  /** As many modules as fit, none twice; the roots come first, and none is left out while
      another module is drawn. */
  ghost predicate RootsLead(drawn: seq<string>, deps: seq<Dep>, declared: seq<string>) {
    && NoRepeats(drawn) && |drawn| == Min(MAX_MODULES, |NodeSet(deps, declared)|)
    && (forall m | m in drawn :: m in declared || Mentioned(deps, m))
    && (forall i, j | 0 <= i < j < |drawn| && IsRoot(deps, drawn[j]) :: IsRoot(deps, drawn[i]))
    && (forall m | (m in declared || Mentioned(deps, m)) && m !in drawn && IsRoot(deps, m) ::
          forall i | 0 <= i < |drawn| :: IsRoot(deps, drawn[i]))
  }

  lemma DrawnAre(deps: seq<Dep>, declared: seq<string>)
    ensures RootsLead(DrawnModules(deps, declared), deps, declared)
  {
    var nodes, key := NodeSet(deps, declared), RootsFirst(deps);
    var drawn := DrawnModules(deps, declared);
    KeptFirst(nodes, key, MAX_MODULES);
    DrawnOnce(deps, declared);
    forall m ensures key(m) == if IsRoot(deps, m) then 0 else 1 { RootKey(deps, m); }
    assert forall i, j | 0 <= i < j < |drawn| :: key(drawn[i]) <= key(drawn[j]);
  }

  lemma RootKey(deps: seq<Dep>, m: string)
    ensures RootsFirst(deps)(m) == if IsRoot(deps, m) then 0 else 1
  {
  }

  ghost predicate IsModuleNode(item: Item, deps: seq<Dep>, m: string, id: string) {
    && item.Node? && item.id == id && item.caption == m
    && item.tone == if IsRoot(deps, m) then Some(Entry) else None
  }

  function ModuleNode(deps: seq<Dep>, m: string, id: string): Item {
    Node(false, id, m, if HasIncoming(deps, m) then None else Some(Entry))
  }

  /** The edges drawn: those between drawn modules. */
  function EdgesBetween(deps: seq<Dep>, idOf: map<string, string>): (r: seq<Item>)
    ensures |r| <= |deps|
    ensures forall e | e in r :: e.Edge?
  {
    if deps == [] then []
    else
      var d := deps[|deps| - 1];
      EdgesBetween(deps[..|deps| - 1], idOf)
      + (if d.from in idOf && d.to in idOf then [Edge(idOf[d.from], idOf[d.to], d.text)] else [])
  }

  ghost predicate Draws(edge: Item, d: Dep, idOf: map<string, string>) {
    d.from in idOf && d.to in idOf && edge == Edge(idOf[d.from], idOf[d.to], d.text)
  }

  /** The edges are those of the dependencies at these positions, from their `from` to their
      `to`, and every dependency between modules with an identifier is at one. */
  ghost predicate EdgesAt(edges: seq<Item>, deps: seq<Dep>, idOf: map<string, string>, at: seq<nat>) {
    && |at| == |edges| && Increasing(at)
    && (forall k | 0 <= k < |at| :: at[k] < |deps| && Draws(edges[k], deps[at[k]], idOf))
    && (forall i | 0 <= i < |deps| && deps[i].from in idOf && deps[i].to in idOf :: i in at)
  }

  ghost predicate EdgesAre(edges: seq<Item>, deps: seq<Dep>, idOf: map<string, string>) {
    exists at :: EdgesAt(edges, deps, idOf, at)
  }

  lemma EdgesAtNext(edges: seq<Item>, front: seq<Dep>, last: Dep, idOf: map<string, string>, at: seq<nat>)
    requires EdgesAt(edges, front, idOf, at)
    ensures
      if last.from in idOf && last.to in idOf
      then EdgesAt(edges + [Edge(idOf[last.from], idOf[last.to], last.text)], front + [last], idOf, at + [|front|])
      else EdgesAt(edges, front + [last], idOf, at)
  {
    var deps, more := front + [last], at + [|front|];
    assert forall i | 0 <= i < |front| :: deps[i] == front[i];
    assert forall i :: i in more <==> i in at || i == |front|;
  }

  lemma {:induction false} EdgesBetweenAre(deps: seq<Dep>, idOf: map<string, string>) returns (at: seq<nat>)
    ensures EdgesAt(EdgesBetween(deps, idOf), deps, idOf, at)
  {
    if deps == [] {
      at := [];
    } else {
      var front, last := deps[..|deps| - 1], deps[|deps| - 1];
      at := EdgesBetweenAre(front, idOf);
      EdgesAtNext(EdgesBetween(front, idOf), front, last, idOf, at);
      Snoc(deps, |deps| - 1);
      if last.from in idOf && last.to in idOf { at := at + [|front|]; }
    }
  }

  lemma DrawnOnce(deps: seq<Dep>, declared: seq<string>)
    ensures NoRepeats(DrawnModules(deps, declared))
  {
    SortOnce(NodeSet(deps, declared), RootsFirst(deps));
  }

  lemma SortOnce(s: seq<string>, key: string -> int)
    requires NoRepeats(s)
    ensures NoRepeats(SortBy(s, key)) && forall x :: x in SortBy(s, key) <==> x in s
  {
    SortByCorrect(s, key);
    SortBySameElements(s, key);
    var sorted := SortBy(s, key);
    forall i, j | 0 <= i < j < |sorted| ensures sorted[i] != sorted[j] {
      if sorted[i] == sorted[j] {
        Twice(sorted, i, j);
        OnceInMultiset(s, sorted[i]);
        assert false;
      }
    }
  }

  lemma {:induction false} OnceInMultiset(s: seq<string>, x: string)
    requires NoRepeats(s)
    ensures multiset(s)[x] <= 1
  {
    if s != [] {
      var front := s[..|s| - 1];
      assert s == front + [s[|s| - 1]];
      OnceInMultiset(front, x);
      if x == s[|s| - 1] { assert x !in front; }
    }
  }

  function Elements(s: seq<string>): set<string> { set x | x in s }

  /** The whole diagram, given the identifiers. */
  ghost predicate IsModuleGraph(items: seq<Item>, deps: seq<Dep>, drawn: seq<string>, idOf: map<string, string>) {
    && |items| >= 1 + |drawn| && items[0] == Fixed(DirectionRight)
    && (forall i | 0 <= i < |drawn| :: drawn[i] in idOf && IsModuleNode(items[1 + i], deps, drawn[i], idOf[drawn[i]]))
    && EdgesAre(items[1 + |drawn|..], Take(deps, MAX_EDGES), idOf)
    && idOf.Keys == Elements(drawn)
  }

  method DeclareModule(ids: IdAllocator, ghost items: seq<Item>, deps: seq<Dep>, drawn: seq<string>, i: nat) returns (node: Item)
    requires ids.Valid() && i < |drawn| && NoRepeats(drawn) && ids.byLabel.Keys == Elements(drawn[..i])
    requires Wired(items) && Named(items, drawn[..i], ids.byLabel)
    modifies ids
    ensures ids.Valid() && ids.byLabel.Keys == Elements(drawn[..i + 1])
    ensures ids.byLabel == old(ids.byLabel)[drawn[i] := ids.byLabel[drawn[i]]] && drawn[i] !in old(ids.byLabel)
    ensures Wired(items + [node]) && Named(items + [node], drawn[..i + 1], ids.byLabel)
    ensures node == ModuleNode(deps, drawn[i], ids.byLabel[drawn[i]])
  {
    var m := drawn[i];
    assert m !in drawn[..i];
    ghost var before := ids.byLabel;
    var id := ids.Get(m);
    node := ModuleNode(deps, m, id);
    Declare(items, drawn[..i], before, m, node);
    assert drawn[..i + 1] == drawn[..i] + [m];
  }

  method DeclareModules(ids: IdAllocator, deps: seq<Dep>, drawn: seq<string>) returns (items: seq<Item>)
    requires ids.Valid() && ids.byLabel == map[] && NoRepeats(drawn)
    modifies ids
    ensures ids.Valid() && ids.byLabel.Keys == Elements(drawn)
    ensures Wired(items) && |items| == 1 + |drawn| && items[0] == Fixed(DirectionRight) && Named(items, drawn, ids.byLabel)
    ensures forall k | 0 <= k < |drawn| :: items[1 + k] == ModuleNode(deps, drawn[k], ids.byLabel[drawn[k]])
  {
    items := [Fixed(DirectionRight)];
    Start(DirectionRight);
    for i := 0 to |drawn|
      invariant ids.Valid() && ids.byLabel.Keys == Elements(drawn[..i])
      invariant Wired(items) && |items| == 1 + i && items[0] == Fixed(DirectionRight)
      invariant Named(items, drawn[..i], ids.byLabel)
      invariant forall k | 0 <= k < i :: items[1 + k] == ModuleNode(deps, drawn[k], ids.byLabel[drawn[k]])
    {
      var node := DeclareModule(ids, items, deps, drawn, i);
      items := items + [node];
    }
    assert drawn[..|drawn|] == drawn;
  }

  /** The nodes, followed by the edges of the dependencies looked at so far. */
  ghost predicate Connected(items: seq<Item>, nodes: seq<Item>, deps: seq<Dep>, idOf: map<string, string>) {
    && items == nodes + EdgesBetween(deps, idOf)
    && Wired(items) && Declarations(items) == Declarations(nodes)
  }

  lemma ConnectOne(items: seq<Item>, nodes: seq<Item>, deps: seq<Dep>, drawn: seq<string>, idOf: map<string, string>, j: nat)
    requires j < |deps| && Connected(items, nodes, deps[..j], idOf)
    requires Wired(nodes) && Named(nodes, drawn, idOf) && idOf.Keys == Elements(drawn)
    requires forall key | key in drawn :: IsIdent(idOf[key])
    ensures var d := deps[j];
            if d.from in idOf && d.to in idOf
            then Connected(items + [Edge(idOf[d.from], idOf[d.to], d.text)], nodes, deps[..j + 1], idOf)
            else Connected(items, nodes, deps[..j + 1], idOf)
  {
    var d := deps[j];
    assert deps[..j + 1][..j] == deps[..j];
    if d.from in idOf && d.to in idOf {
      DeclaredKey(nodes, drawn, idOf, d.from);
      DeclaredKey(nodes, drawn, idOf, d.to);
      Add(items, Edge(idOf[d.from], idOf[d.to], d.text));
    }
  }

  method ConnectModules(ids: IdAllocator, nodes: seq<Item>, deps: seq<Dep>, drawn: seq<string>) returns (items: seq<Item>)
    requires ids.Valid() && Wired(nodes) && Named(nodes, drawn, ids.byLabel) && ids.byLabel.Keys == Elements(drawn)
    modifies ids
    ensures ids.Valid() && ids.byLabel == old(ids.byLabel)
    ensures Connected(items, nodes, deps, ids.byLabel)
  {
    items := nodes;
    for j := 0 to |deps|
      invariant ids.Valid() && ids.byLabel == old(ids.byLabel)
      invariant Connected(items, nodes, deps[..j], ids.byLabel)
    {
      var d := deps[j];
      ConnectOne(items, nodes, deps, drawn, ids.byLabel, j);
      if d.from !in ids.byLabel || d.to !in ids.byLabel { continue; }
      var from := ids.Get(d.from);
      var to := ids.Get(d.to);
      items := items + [Edge(from, to, d.text)];
    }
    assert deps[..|deps|] == deps;
  }

  method DrawModules(deps: seq<Dep>, drawn: seq<string>) returns (items: seq<Item>, ghost idOf: map<string, string>)
    requires NoRepeats(drawn)
    ensures Wired(items) && NoRepeats(Declarations(items)) && |Declarations(items)| == |drawn|
    ensures IsModuleGraph(items, deps, drawn, idOf) && Injective(idOf) && Named(items, drawn, idOf)
  {
    var ids := new IdAllocator("m");
    var nodes := DeclareModules(ids, deps, drawn);
    items := ConnectModules(ids, nodes, Take(deps, MAX_EDGES), drawn);
    idOf := ids.byLabel;
    NamedOnce(items, drawn, idOf);
    GraphIs(items, nodes, deps, drawn, idOf);
  }

  lemma GraphIs(items: seq<Item>, nodes: seq<Item>, deps: seq<Dep>, drawn: seq<string>, idOf: map<string, string>)
    requires |nodes| == 1 + |drawn| && nodes[0] == Fixed(DirectionRight) && idOf.Keys == Elements(drawn)
    requires forall k | 0 <= k < |drawn| :: nodes[1 + k] == ModuleNode(deps, drawn[k], idOf[drawn[k]])
    requires items == nodes + EdgesBetween(Take(deps, MAX_EDGES), idOf)
    ensures IsModuleGraph(items, deps, drawn, idOf)
  {
    var at := EdgesBetweenAre(Take(deps, MAX_EDGES), idOf);
    assert items[1 + |drawn|..] == EdgesBetween(Take(deps, MAX_EDGES), idOf);
    forall i | 0 <= i < |drawn| ensures drawn[i] in idOf && IsModuleNode(items[1 + i], deps, drawn[i], idOf[drawn[i]]) {
      assert items[1 + i] == nodes[1 + i];
    }
  }

  /** At most 15 nodes and 20 edges; each drawn module is declared once, under its own
      identifier, the roots first; of the first 20 dependencies exactly those between drawn
      modules are drawn, from the one that depends to the one it depends on. */
  method ModuleGraph(moduleDependencies: seq<Dep>, declared: seq<string>)
    returns (items: seq<Item>, ghost drawn: seq<string>, ghost idOf: map<string, string>)
    ensures Wired(items) && NoRepeats(Declarations(items)) && |Declarations(items)| <= MAX_MODULES
    ensures var deps := Usable(moduleDependencies);
            if deps == [] && declared == [] then items == Placeholder("Module graph not available")
            else
              && RootsLead(drawn, deps, declared)
              && IsModuleGraph(items, deps, drawn, idOf) && Injective(idOf) && Named(items, drawn, idOf)
  {
    var deps := Usable(moduleDependencies);
    drawn, idOf := [], map[];
    NoNodes(deps, declared);
    if NodeSet(deps, declared) == [] {
      return Placeholder("Module graph not available"), drawn, idOf;
    }
    drawn := DrawnModules(deps, declared);
    DrawnAre(deps, declared);
    items, idOf := DrawModules(deps, DrawnModules(deps, declared));
  }

  lemma NoNodes(deps: seq<Dep>, declared: seq<string>)
    ensures NodeSet(deps, declared) == [] <==> deps == [] && declared == []
  {
    var nodes := NodeSet(deps, declared);
    if declared != [] { assert declared[0] in nodes; }
    if deps != [] { assert Mentioned(deps, deps[0].from) && deps[0].from in nodes; }
    if nodes != [] { assert nodes[0] in nodes; }
  }

  /** A key that is drawn has its identifier declared. */
  lemma DeclaredKey(items: seq<Item>, keys: seq<string>, idOf: map<string, string>, key: string)
    requires Named(items, keys, idOf) && key in keys
    ensures key in idOf && idOf[key] in Declarations(items)
  {
    var i :| 0 <= i < |keys| && keys[i] == key;
  }

  // ─── Sequence diagrams ──────────────────────────────────────────────────────

  datatype CallStep = CallStep(symbol: string, file: string)

  /** The path up to its first slash. */
  function FirstSegment(path: string): (r: string)
    ensures r <= path && '/' !in r && (|r| < |path| ==> path[|r|] == '/')
  {
    if path == "" || path[0] == '/' then "" else [path[0]] + FirstSegment(path[1..])
  }

  /** The top-level directory of a path; files outside any are of the root. */
  function ModuleOf(file: string): (r: string)
    ensures if '/' in file && file[0] != '/' then r + "/" <= file && r != "" && '/' !in r else r == "(root)"
  {
    var first := FirstSegment(file);
    assert if |first| < |file| then first + "/" <= file && '/' in file else first == file;
    if first != "" && first != file then first else "(root)"
  }

  /** The arrows: one per consecutive pair of steps, numbered. */
  function Arrows(keys: seq<string>, idOf: map<string, string>, n: nat): (r: seq<Item>)
    requires n < |keys| && forall k | k in keys :: k in idOf
    ensures |r| == n
    ensures forall i | 0 <= i < n :: r[i] == Edge(idOf[keys[i]], idOf[keys[i + 1]], ToDecimal(i + 1))
  {
    seq(n, i requires 0 <= i < n => Edge(idOf[keys[i]], idOf[keys[i + 1]], ToDecimal(i + 1)))
  }

  /** The return arrow, unless the flow already comes back to where it started. */
  function WayBackOf(keys: seq<string>, back: string, idOf: map<string, string>): seq<Item>
    requires keys != [] && forall k | k in keys :: k in idOf
  {
    var first, last := keys[0], keys[|keys| - 1];
    if first != last then [Back(idOf[last], idOf[first], back)] else []
  }

  /** Participants in the order they are first touched, then the arrows, then the way back
      unless the flow already ends where it started. */
  ghost predicate IsSequence(items: seq<Item>, keys: seq<string>, captions: seq<string>, back: string, idOf: map<string, string>)
    requires 0 < |keys| == |captions|
  {
    var drawn := AddAll([], keys);
    && (forall k | k in keys :: k in idOf)
    && |items| >= 1 + |drawn| && items[0] == Fixed(SequenceShape)
    && (forall k | 0 <= k < |drawn| :: IsParticipant(items[1 + k], drawn[k], keys, captions, idOf))
    && items[1 + |drawn|..]
       == Arrows(keys, idOf, |keys| - 1) + WayBackOf(keys, back, idOf)
  }

  ghost predicate IsParticipant(item: Item, key: string, keys: seq<string>, captions: seq<string>, idOf: map<string, string>)
    requires |keys| == |captions| && key in idOf
  {
    exists i | 0 <= i < |keys| :: keys[i] == key && key !in keys[..i] && item == Node(false, idOf[key], captions[i], None)
  }

  /** The participants of the first i steps are declared, each once, and only they have identifiers. */
  ghost predicate Introduced(items: seq<Item>, keys: seq<string>, captions: seq<string>, drawn: seq<string>, i: nat,
                             idOf: map<string, string>)
    requires i <= |keys| == |captions|
  {
    && Wired(items) && |items| == 1 + |drawn| && items[0] == Fixed(SequenceShape) && Named(items, drawn, idOf)
    && (forall k | k in idOf :: k in keys[..i]) && (forall k | k in keys[..i] :: k in drawn)
    && (forall k | 0 <= k < |drawn| :: IsParticipant(items[1 + k], drawn[k], keys, captions, idOf))
  }

  lemma Introduce(items: seq<Item>, keys: seq<string>, captions: seq<string>, drawn: seq<string>, i: nat,
                  idOf: map<string, string>, id: string)
    requires i < |keys| == |captions| && Introduced(items, keys, captions, drawn, i, idOf)
    requires IsIdent(id) && (keys[i] in idOf ==> idOf[keys[i]] == id)
    ensures if keys[i] in idOf then Introduced(items, keys, captions, drawn, i + 1, idOf[keys[i] := id])
            else Introduced(items + [Node(false, id, captions[i], None)], keys, captions, drawn + [keys[i]], i + 1,
                            idOf[keys[i] := id])
  {
    assert keys[..i + 1] == keys[..i] + [keys[i]];
    if keys[i] in idOf {
      assert idOf[keys[i] := id] == idOf;
    } else {
      var item := Node(false, id, captions[i], None);
      assert forall k | k in drawn :: k in idOf by {
        forall k | k in drawn ensures k in idOf { DeclaredKey(items, drawn, idOf, k); }
      }
      Declare(items, drawn, idOf, keys[i], item);
      assert IsParticipant(item, keys[i], keys, captions, idOf[keys[i] := id]);
      forall k | 0 <= k < |drawn| ensures IsParticipant(items[1 + k], drawn[k], keys, captions, idOf[keys[i] := id]) {
        var p :| 0 <= p < |keys| && keys[p] == drawn[k] && drawn[k] !in keys[..p]
                 && items[1 + k] == Node(false, idOf[drawn[k]], captions[p], None);
      }
    }
  }

  /** The drawn keys grow as a set that remembers insertion order does. */
  lemma NextDrawn(keys: seq<string>, i: nat, drawn: seq<string>)
    requires i < |keys| && drawn == AddAll([], keys[..i])
    ensures AddAll([], keys[..i + 1]) == if keys[i] in keys[..i] then drawn else drawn + [keys[i]]
  {
    assert keys[..i + 1][..i] == keys[..i];
  }

  method IntroduceParticipants(ids: IdAllocator, keys: seq<string>, captions: seq<string>)
    returns (items: seq<Item>, ghost drawn: seq<string>)
    requires ids.Valid() && ids.byLabel == map[] && ids.taken == {} && |keys| == |captions|
    modifies ids
    ensures ids.Valid() && drawn == AddAll([], keys)
    ensures Introduced(items, keys, captions, drawn, |keys|, ids.byLabel)
  {
    items, drawn := [Fixed(SequenceShape)], [];
    Start(SequenceShape);
    var seen: set<string> := {};
    for i := 0 to |keys|
      invariant ids.Valid() && seen == ids.taken && drawn == AddAll([], keys[..i])
      invariant Introduced(items, keys, captions, drawn, i, ids.byLabel)
    {
      ghost var before := ids.byLabel;
      NextDrawn(keys, i, drawn);
      var id := ids.Get(keys[i]);
      Introduce(items, keys, captions, drawn, i, before, id);
      KnownKey(items, keys, captions, drawn, i, before);
      if id in seen { continue; }
      seen := seen + {id};
      items := items + [Node(false, id, captions[i], None)];
      drawn := drawn + [keys[i]];
    }
    assert keys[..|keys|] == keys;
  }

  lemma KnownKey(items: seq<Item>, keys: seq<string>, captions: seq<string>, drawn: seq<string>, i: nat, idOf: map<string, string>)
    requires i < |keys| == |captions| && Introduced(items, keys, captions, drawn, i, idOf)
    ensures keys[i] in idOf <==> keys[i] in keys[..i]
  {
    if keys[i] in keys[..i] { DeclaredKey(items, drawn, idOf, keys[i]); }
  }

  /** The first n arrows are drawn. */
  ghost predicate Drawing(items: seq<Item>, nodes: seq<Item>, keys: seq<string>, drawn: seq<string>, idOf: map<string, string>, n: nat)
    requires n < |keys| && forall k | k in keys :: k in idOf
  {
    Wired(items) && Named(items, drawn, idOf) && items == nodes + Arrows(keys, idOf, n)
  }

  lemma Draw(items: seq<Item>, nodes: seq<Item>, keys: seq<string>, drawn: seq<string>, idOf: map<string, string>, n: nat, arrow: Item)
    requires n + 1 < |keys| && (forall k | k in keys :: k in idOf && k in drawn) && Drawing(items, nodes, keys, drawn, idOf, n)
    requires arrow == Edge(idOf[keys[n]], idOf[keys[n + 1]], ToDecimal(n + 1)) && Lexical(arrow)
    ensures Drawing(items + [arrow], nodes, keys, drawn, idOf, n + 1)
  {
    Connect(items, drawn, idOf, keys[n], keys[n + 1], arrow);
    assert Arrows(keys, idOf, n + 1) == Arrows(keys, idOf, n) + [arrow];
  }

  method DrawArrows(ids: IdAllocator, nodes: seq<Item>, keys: seq<string>, ghost drawn: seq<string>, back: string)
    returns (items: seq<Item>)
    requires ids.Valid() && 0 < |keys| && (forall k | k in keys :: k in ids.byLabel && k in drawn) && Quotable(back)
    requires Wired(nodes) && Named(nodes, drawn, ids.byLabel)
    modifies ids
    ensures ids.Valid() && ids.byLabel == old(ids.byLabel)
    ensures Wired(items) && Named(items, drawn, ids.byLabel)
    ensures items == nodes + (Arrows(keys, ids.byLabel, |keys| - 1) + WayBackOf(keys, back, ids.byLabel))
  {
    items := nodes;
    for i := 0 to |keys| - 1
      invariant ids.Valid() && ids.byLabel == old(ids.byLabel)
      invariant Drawing(items, nodes, keys, drawn, ids.byLabel, i)
    {
      var from := ids.Get(keys[i]);
      var to := ids.Get(keys[i + 1]);
      Draw(items, nodes, keys, drawn, ids.byLabel, i, Edge(from, to, ToDecimal(i + 1)));
      items := items + [Edge(from, to, ToDecimal(i + 1))];
    }
    var way := WayBack(ids, items, keys, drawn, back);
    assert nodes + (Arrows(keys, ids.byLabel, |keys| - 1) + way)
           == nodes + Arrows(keys, ids.byLabel, |keys| - 1) + way;
    items := items + way;
  }

  method WayBack(ids: IdAllocator, items: seq<Item>, keys: seq<string>, ghost drawn: seq<string>, back: string)
    returns (way: seq<Item>)
    requires ids.Valid() && 0 < |keys| && (forall k | k in keys :: k in ids.byLabel && k in drawn) && Quotable(back)
    requires Wired(items) && Named(items, drawn, ids.byLabel)
    modifies ids
    ensures ids.Valid() && ids.byLabel == old(ids.byLabel)
    ensures Wired(items + way) && Named(items + way, drawn, ids.byLabel)
    ensures way == WayBackOf(keys, back, ids.byLabel)
  {
    var first := ids.Get(keys[0]);
    var last := ids.Get(keys[|keys| - 1]);
    way := [];
    assert items + [] == items;
    if first != last {
      Connect(items, drawn, ids.byLabel, keys[|keys| - 1], keys[0], Back(last, first, back));
      way := [Back(last, first, back)];
    }
  }

  method Sequence(keys: seq<string>, captions: seq<string>, back: string) returns (items: seq<Item>, ghost idOf: map<string, string>)
    requires 0 < |keys| == |captions| && Quotable(back)
    ensures Wired(items) && Named(items, AddAll([], keys), idOf) && Injective(idOf) && NoRepeats(Declarations(items))
    ensures IsSequence(items, keys, captions, back, idOf)
  {
    var ids := new IdAllocator("p");
    var nodes;
    ghost var drawn;
    nodes, drawn := IntroduceParticipants(ids, keys, captions);
    AllNamed(nodes, keys, captions, drawn, ids.byLabel);
    items := DrawArrows(ids, nodes, keys, drawn, back);
    idOf := ids.byLabel;
    SequenceIs(items, nodes, keys, captions, drawn, back, idOf);
    NamedOnce(items, drawn, idOf);
  }

  lemma AllNamed(nodes: seq<Item>, keys: seq<string>, captions: seq<string>, drawn: seq<string>, idOf: map<string, string>)
    requires |keys| == |captions| && Introduced(nodes, keys, captions, drawn, |keys|, idOf)
    ensures forall k | k in keys :: k in idOf && k in drawn
  {
    assert keys[..|keys|] == keys;
    forall k | k in keys ensures k in idOf && k in drawn { DeclaredKey(nodes, drawn, idOf, k); }
  }

  lemma SequenceIs(items: seq<Item>, nodes: seq<Item>, keys: seq<string>, captions: seq<string>, drawn: seq<string>, back: string,
                   idOf: map<string, string>)
    requires 0 < |keys| == |captions| && drawn == AddAll([], keys) && Introduced(nodes, keys, captions, drawn, |keys|, idOf)
    requires forall k | k in keys :: k in idOf
    requires items == nodes + (Arrows(keys, idOf, |keys| - 1) + WayBackOf(keys, back, idOf))
    ensures IsSequence(items, keys, captions, back, idOf)
  {
    forall k | 0 <= k < |drawn| ensures IsParticipant(items[1 + k], drawn[k], keys, captions, idOf) {
      assert items[1 + k] == nodes[1 + k];
    }
    assert items[1 + |drawn|..] == items[|nodes|..];
  }

  // What a printed sequence shows.

  /** The positions where a key is touched for the first time. */
  function FirstTouches(keys: seq<string>): set<nat> { set i: nat | i < |keys| && keys[i] !in keys[..i] }

  lemma TouchNext(keys: seq<string>, last: string)
    ensures FirstTouches(keys + [last]) == FirstTouches(keys) + if last in keys then {} else {|keys|}
  {
    var all := keys + [last];
    forall i: nat | i < |all| ensures all[..i] == keys[..i] && (i < |keys| ==> all[i] == keys[i]) {
    }
    assert all[..|keys|] == keys && keys[..|keys|] == keys;
  }

  /** These positions, in order. */
  ghost predicate Lists(at: seq<nat>, positions: set<nat>) {
    Increasing(at) && forall i :: i in at <==> i in positions
  }

  lemma AddAllNext(keys: seq<string>, last: string)
    ensures AddAll([], keys + [last]) == if last in keys then AddAll([], keys) else AddAll([], keys) + [last]
  {
    assert (keys + [last])[..|keys|] == keys;
  }

  /** A set that remembers insertion order holds each key where it was first touched. */
  ghost predicate HoldsTouched(keys: seq<string>, drawn: seq<string>, at: seq<nat>) {
    && Lists(at, FirstTouches(keys)) && |at| == |drawn|
    && forall k | 0 <= k < |at| :: at[k] < |keys| && drawn[k] == keys[at[k]]
  }

  lemma HoldsNext(keys: seq<string>, last: string, drawn: seq<string>, at: seq<nat>)
    requires HoldsTouched(keys, drawn, at)
    ensures if last in keys then HoldsTouched(keys + [last], drawn, at)
            else HoldsTouched(keys + [last], drawn + [last], at + [|keys|])
  {
    TouchNext(keys, last);
    var more := at + [|keys|];
    if last !in keys {
      assert forall i :: i in more <==> i in at || i == |keys|;
    }
  }

  lemma TouchedNext(front: seq<string>, last: string, was: seq<nat>) returns (at: seq<nat>)
    requires HoldsTouched(front, AddAll([], front), was)
    ensures HoldsTouched(front + [last], AddAll([], front + [last]), at)
  {
    HoldsNext(front, last, AddAll([], front), was);
    AddAllNext(front, last);
    at := if last in front then was else was + [|front|];
  }

  lemma {:induction false} TouchedInOrder(keys: seq<string>) returns (at: seq<nat>)
    ensures HoldsTouched(keys, AddAll([], keys), at)
  {
    if keys == [] {
      at := [];
    } else {
      var front, last := keys[..|keys| - 1], keys[|keys| - 1];
      at := TouchedInOrder(front);
      at := TouchedNext(front, last, at);
      assert keys == front + [last];
    }
  }

  /** The participants in the order they are first touched, numbered arrows from each step to
      the next, and the way back unless the flow ends where it began. */
  ghost predicate ShowsSequence(text: seq<Statement>, keys: seq<string>, captions: seq<string>, back: string,
                                idOf: map<string, string>, at: seq<nat>)
    requires 0 < |keys| == |captions| && forall k | k in keys :: k in idOf
  {
    var boxes, arrows := Boxes(text), ArrowsIn(text);
    var first, last := keys[0], keys[|keys| - 1];
    && Lists(at, FirstTouches(keys)) && |boxes| == |at|
    && (forall k | 0 <= k < |at| :: at[k] < |keys| && boxes[k] == Box(0, idOf[keys[at[k]]], Label(captions[at[k]]), None))
    && |arrows| == |keys| - 1 + (if first == last then 0 else 1)
    && (forall i | 0 <= i < |keys| - 1 :: arrows[i] == Arrow(idOf[keys[i]], idOf[keys[i + 1]], Label(ToDecimal(i + 1)), false))
    && (first != last ==> arrows[|keys| - 1] == Arrow(idOf[last], idOf[first], back, true))
  }

  lemma SequenceShows(items: seq<Item>, keys: seq<string>, captions: seq<string>, back: string, idOf: map<string, string>)
    returns (at: seq<nat>)
    requires 0 < |keys| == |captions| && Wired(items) && IsSequence(items, keys, captions, back, idOf)
    ensures ShowsSequence(Read(Print(items)), keys, captions, back, idOf, at)
  {
    at := TouchedInOrder(keys);
    ParticipantsAre(items, keys, captions, back, idOf, at);
    Parts(items, |at|);
    PrintedShows(items);
    PartsShow(items[1..1 + |at|], items[1 + |at|..], keys, captions, back, idOf, at);
  }

  lemma Parts(items: seq<Item>, n: nat)
    requires 1 + n <= |items|
    ensures items == [items[0]] + items[1..1 + n] + items[1 + n..]
  {
  }

  lemma PartsShow(nodes: seq<Item>, edges: seq<Item>, keys: seq<string>, captions: seq<string>, back: string,
                  idOf: map<string, string>, at: seq<nat>)
    requires 0 < |keys| == |captions| && (forall k | k in keys :: k in idOf)
    requires AreParticipants(nodes, keys, captions, idOf, at)
    requires edges == Arrows(keys, idOf, |keys| - 1) + WayBackOf(keys, back, idOf)
    ensures
      var items, arrows := [Fixed(SequenceShape)] + nodes + edges, ArrowsOf(edges);
      && |BoxesOf(items, 0)| == |at| && ArrowsOf(items) == arrows && |arrows| == |edges|
      && (forall k | 0 <= k < |at| :: at[k] < |keys| && BoxesOf(items, 0)[k] == Box(0, idOf[keys[at[k]]], Label(captions[at[k]]), None))
      && (forall i | 0 <= i < |keys| - 1 :: arrows[i] == Arrow(idOf[keys[i]], idOf[keys[i + 1]], Label(ToDecimal(i + 1)), false))
      && (keys[0] != keys[|keys| - 1] ==>
            arrows[|keys| - 1] == Arrow(idOf[keys[|keys| - 1]], idOf[keys[0]], back, true))
  {
    ParticipantsShown(nodes, keys, captions, idOf, at);
    ArrowsAre(keys, back, idOf);
    ArrowsShown(edges, keys, back, idOf);
    PlainShown(SequenceShape, nodes, edges);
  }

  ghost predicate AreParticipants(nodes: seq<Item>, keys: seq<string>, captions: seq<string>, idOf: map<string, string>, at: seq<nat>)
    requires |keys| == |captions| && (forall k | k in keys :: k in idOf)
  {
    |nodes| == |at| && forall k | 0 <= k < |at| :: at[k] < |keys| && nodes[k] == Node(false, idOf[keys[at[k]]], captions[at[k]], None)
  }

  lemma ParticipantsAre(items: seq<Item>, keys: seq<string>, captions: seq<string>, back: string, idOf: map<string, string>, at: seq<nat>)
    requires 0 < |keys| == |captions| && IsSequence(items, keys, captions, back, idOf) && HoldsTouched(keys, AddAll([], keys), at)
    ensures AreParticipants(items[1..1 + |at|], keys, captions, idOf, at)
  {
    var nodes := items[1..1 + |at|];
    forall k | 0 <= k < |at| ensures nodes[k] == Node(false, idOf[keys[at[k]]], captions[at[k]], None) {
      assert at[k] in at;
      assert nodes[k] == items[1 + k];
      FirstIs(keys, captions, idOf, items[1 + k], at[k]);
    }
  }

  lemma ParticipantsShown(nodes: seq<Item>, keys: seq<string>, captions: seq<string>, idOf: map<string, string>, at: seq<nat>)
    requires |keys| == |captions| && (forall k | k in keys :: k in idOf)
    requires AreParticipants(nodes, keys, captions, idOf, at)
    ensures forall item | item in nodes :: item.Node?
    ensures |BoxesOf(nodes, 0)| == |at|
    ensures forall k | 0 <= k < |at| :: at[k] < |keys| && BoxesOf(nodes, 0)[k] == Box(0, idOf[keys[at[k]]], Label(captions[at[k]]), None)
  {
    NodesShown(nodes, 0);
    forall k | 0 <= k < |at| ensures BoxesOf(nodes, 0)[k] == Box(0, idOf[keys[at[k]]], Label(captions[at[k]]), None) {
      assert BoxesOf(nodes, 0)[k] == NodeBox(nodes[k], 0);
    }
  }

  lemma FirstIs(keys: seq<string>, captions: seq<string>, idOf: map<string, string>, item: Item, i: nat)
    requires |keys| == |captions| && i < |keys| && keys[i] in idOf && i in FirstTouches(keys)
    requires IsParticipant(item, keys[i], keys, captions, idOf)
    ensures item == Node(false, idOf[keys[i]], captions[i], None)
  {
    var p :| 0 <= p < |keys| && keys[p] == keys[i] && keys[i] !in keys[..p] && item == Node(false, idOf[keys[i]], captions[p], None);
    assert forall q | 0 <= q < i :: keys[q] in keys[..i];
    assert forall q | 0 <= q < p :: keys[q] in keys[..p];
  }

  lemma ArrowShown(from: string, to: string, n: nat)
    ensures ArrowOf(Edge(from, to, ToDecimal(n))) == [Arrow(from, to, Label(ToDecimal(n)), false)]
  {
    NotEmpty(n);
  }

  lemma NumberedShown(edges: seq<Item>, keys: seq<string>, idOf: map<string, string>, i: nat)
    requires i + 1 < |keys| && (forall k | k in keys :: k in idOf)
    requires i < |edges| == |ArrowsOf(edges)| && edges[i] == Edge(idOf[keys[i]], idOf[keys[i + 1]], ToDecimal(i + 1))
    requires ArrowOf(edges[i]) == [ArrowsOf(edges)[i]]
    ensures ArrowsOf(edges)[i] == Arrow(idOf[keys[i]], idOf[keys[i + 1]], Label(ToDecimal(i + 1)), false)
  {
    ArrowShown(idOf[keys[i]], idOf[keys[i + 1]], i + 1);
  }

  /** The arrows of a sequence, and the way back. */
  ghost predicate AreArrows(edges: seq<Item>, keys: seq<string>, back: string, idOf: map<string, string>)
    requires 0 < |keys| && (forall k | k in keys :: k in idOf)
  {
    var n := |keys| - 1;
    && |edges| == (if keys[0] == keys[n] then n else n + 1)
    && (forall i | 0 <= i < n :: edges[i] == Edge(idOf[keys[i]], idOf[keys[i + 1]], ToDecimal(i + 1)))
    && (keys[0] != keys[n] ==> edges[n] == Back(idOf[keys[n]], idOf[keys[0]], back))
    && (forall item | item in edges :: item.Edge? || item.Back?)
  }

  lemma ArrowsAre(keys: seq<string>, back: string, idOf: map<string, string>)
    requires 0 < |keys| && (forall k | k in keys :: k in idOf)
    ensures AreArrows(Arrows(keys, idOf, |keys| - 1) + WayBackOf(keys, back, idOf), keys, back, idOf)
  {
  }

  lemma ArrowsShown(edges: seq<Item>, keys: seq<string>, back: string, idOf: map<string, string>)
    requires 0 < |keys| && (forall k | k in keys :: k in idOf) && AreArrows(edges, keys, back, idOf)
    ensures
      var arrows, first, last := ArrowsOf(edges), keys[0], keys[|keys| - 1];
      && |arrows| == |edges|
      && (forall i | 0 <= i < |keys| - 1 :: arrows[i] == Arrow(idOf[keys[i]], idOf[keys[i + 1]], Label(ToDecimal(i + 1)), false))
      && (first != last ==> arrows[|keys| - 1] == Arrow(idOf[last], idOf[first], back, true))
  {
    EdgesShown(edges, 0);
    forall i | 0 <= i < |keys| - 1
      ensures ArrowsOf(edges)[i] == Arrow(idOf[keys[i]], idOf[keys[i + 1]], Label(ToDecimal(i + 1)), false)
    {
      NumberedShown(edges, keys, idOf, i);
    }
    if keys[0] != keys[|keys| - 1] { assert ArrowOf(edges[|keys| - 1]) == [ArrowsOf(edges)[|keys| - 1]]; }
  }

  lemma NotEmpty(n: nat)
    ensures ToDecimal(n) != ""
  {
  }

  /** The text shows the sequence of these keys. */
  ghost predicate TextShows(text: seq<Statement>, keys: seq<string>, captions: seq<string>, back: string, idOf: map<string, string>) {
    && 0 < |keys| == |captions| && (forall k | k in keys :: k in idOf)
    && exists at :: ShowsSequence(text, keys, captions, back, idOf, at)
  }

  method SequenceDiagram(steps: seq<string>) returns (items: seq<Item>, ghost idOf: map<string, string>)
    ensures Wired(items) && NoRepeats(Declarations(items)) && |Declarations(items)| <= MAX_STEPS
    ensures if |steps| < 2 then items == Placeholder("Request flow not available")
            else var capped := Take(steps, MAX_STEPS);
                 TextShows(Read(Print(items)), capped, capped, "response", idOf) && Injective(idOf)
  {
    idOf := map[];
    if |steps| < 2 {
      return Placeholder("Request flow not available"), idOf;
    }
    var capped := Take(steps, MAX_STEPS);
    items, idOf := Sequence(capped, capped, "response");
    ghost var at := SequenceShows(items, capped, capped, "response", idOf);
    AtMost(capped);
  }

  /** Two functions of one name in two files are two participants. */
  function StepKeys(steps: seq<CallStep>): (r: seq<string>)
    ensures |r| == |steps| && forall i | 0 <= i < |steps| :: r[i] == StepKey(steps[i])
  {
    seq(|steps|, i requires 0 <= i < |steps| => StepKey(steps[i]))
  }

  function StepKey(step: CallStep): string { step.file + "::" + step.symbol }

  predicate NoColon(s: string) { ':' !in s }

  /** Functions of one name in two files have two keys; and so have any two functions if no path
      holds a colon. */
  lemma StepKeysDiffer(a: CallStep, b: CallStep)
    ensures a.symbol == b.symbol && a.file != b.file ==> StepKey(a) != StepKey(b)
    ensures NoColon(a.file) && NoColon(b.file) ==> (StepKey(a) == StepKey(b) <==> a.file == b.file && a.symbol == b.symbol)
  {
    if StepKey(a) == StepKey(b) {
      if |a.file| == |b.file| {
        assert StepKey(a)[..|a.file|] == a.file && StepKey(b)[..|b.file|] == b.file;
        assert StepKey(a)[|a.file| + 2..] == a.symbol && StepKey(b)[|b.file| + 2..] == b.symbol;
      } else {
        assert StepKey(a)[|a.file|] == ':' && StepKey(b)[|b.file|] == ':';
        if |a.file| < |b.file| {
          assert b.file[|a.file|] == StepKey(b)[|a.file|];
        } else {
          assert a.file[|b.file|] == StepKey(a)[|b.file|];
        }
      }
    }
  }

  /** With colons in paths and symbols two functions can share a key. */
  lemma StepKeysCanMeet(dir: string, part: string, name: string)
    ensures StepKey(CallStep(name, dir + "::" + part)) == StepKey(CallStep(part + "::" + name, dir))
  {
    assert dir + "::" + part + "::" + name == dir + "::" + (part + "::" + name);
  }

  /** Two steps of the chain are drawn as one node exactly when their keys agree. */
  ghost predicate NodesApart(steps: seq<CallStep>, idOf: map<string, string>) {
    && (forall i | 0 <= i < |steps| :: StepKey(steps[i]) in idOf)
    && (forall i, j | 0 <= i < |steps| && 0 <= j < |steps| ::
          idOf[StepKey(steps[i])] == idOf[StepKey(steps[j])] <==> StepKey(steps[i]) == StepKey(steps[j]))
    && (forall i, j | 0 <= i < |steps| && 0 <= j < |steps| && steps[i].symbol == steps[j].symbol && steps[i].file != steps[j].file ::
          idOf[StepKey(steps[i])] != idOf[StepKey(steps[j])])
  }

  lemma KeysApart(steps: seq<CallStep>, idOf: map<string, string>)
    requires (forall k | k in StepKeys(steps) :: k in idOf) && Injective(idOf)
    ensures NodesApart(steps, idOf)
  {
    forall i | 0 <= i < |steps| ensures StepKey(steps[i]) in idOf {
      assert StepKeys(steps)[i] == StepKey(steps[i]);
    }
    forall i, j | 0 <= i < |steps| && 0 <= j < |steps| && steps[i].symbol == steps[j].symbol && steps[i].file != steps[j].file
      ensures idOf[StepKey(steps[i])] != idOf[StepKey(steps[j])]
    {
      StepKeysDiffer(steps[i], steps[j]);
    }
  }

  function StepCaptions(steps: seq<CallStep>): (r: seq<string>)
    ensures |r| == |steps| && forall i | 0 <= i < |steps| :: r[i] == steps[i].symbol + " (" + ModuleOf(steps[i].file) + ")"
  {
    seq(|steps|, i requires 0 <= i < |steps| => steps[i].symbol + " (" + ModuleOf(steps[i].file) + ")")
  }

  method SequenceFromChain(chain: seq<CallStep>) returns (items: seq<Item>, ghost idOf: map<string, string>)
    ensures Wired(items) && NoRepeats(Declarations(items)) && |Declarations(items)| <= MAX_STEPS
    ensures var steps := Take(chain, MAX_STEPS);
            if |steps| < 2 then items == Placeholder("Request flow not available")
            else
              && TextShows(Read(Print(items)), StepKeys(steps), StepCaptions(steps), "returns", idOf) && Injective(idOf)
              && NodesApart(steps, idOf)
  {
    idOf := map[];
    var steps := Take(chain, MAX_STEPS);
    if |steps| < 2 {
      return Placeholder("Request flow not available"), idOf;
    }
    items, idOf := Sequence(StepKeys(steps), StepCaptions(steps), "returns");
    ghost var at := SequenceShows(items, StepKeys(steps), StepCaptions(steps), "returns", idOf);
    KeysApart(steps, idOf);
    AtMost(StepKeys(steps));
  }

  lemma {:induction false} AtMost(keys: seq<string>)
    ensures |AddAll([], keys)| <= |keys|
  {
    if keys != [] { AtMost(keys[..|keys| - 1]); }
  }

  // ─── Security flow ──────────────────────────────────────────────────────────

  datatype Severity = CriticalRisk | HighRisk | MediumRisk | LowRisk
  datatype Vulnerability = Vulnerability(severity: Severity, kind: string, location: string)

  predicate IsSerious(v: Vulnerability) { v.severity.CriticalRisk? || v.severity.HighRisk? }

  function Serious(vulns: seq<Vulnerability>): (r: seq<Vulnerability>)
    ensures forall v :: v in r <==> v in vulns && v.severity in {CriticalRisk, HighRisk}
  {
    Filter(vulns, IsSerious)
  }

  function VulnCaption(v: Vulnerability): string {
    (if v.severity.CriticalRisk? then "CRITICAL" else "HIGH") + ": " + v.kind + " @ " + v.location
  }

  function Numbered(prefix: string, n: nat): (r: seq<string>)
    ensures |r| == n && forall i | 0 <= i < n :: r[i] == prefix + ToDecimal(i)
  {
    seq(n, i requires 0 <= i < n => prefix + ToDecimal(i))
  }

  lemma NumberIsIdent(prefix: string, i: nat)
    requires IsIdent(prefix)
    ensures IsIdent(prefix + ToDecimal(i))
  {
    forall c | c in ToDecimal(i) ensures IdentChar(c) { DigitIsIdentChar(c); }
  }

  lemma SameNumber(prefix: string, i: nat, j: nat)
    requires prefix + ToDecimal(i) == prefix + ToDecimal(j)
    ensures i == j
  {
    assert (prefix + ToDecimal(i))[|prefix|..] == ToDecimal(i) && (prefix + ToDecimal(j))[|prefix|..] == ToDecimal(j);
    ToDecimalInjective(i, j);
  }

  /** The steps, then the box of findings. */
  function SecurityIds(steps: nat, findings: nat): seq<string> {
    Numbered("a_", steps) + if findings == 0 then [] else ["vulns"] + Numbered("v_", findings)
  }

  lemma SecurityIdsOnce(steps: nat, findings: nat)
    ensures NoRepeats(SecurityIds(steps, findings))
  {
    var ids := SecurityIds(steps, findings);
    forall i, j | 0 <= i < j < |ids| ensures ids[i] != ids[j] {
      if j < steps {
        if ids[i] == ids[j] { SameNumber("a_", i, j); }
      } else if i < steps {
        assert ids[i][0] == 'a' && ids[j][0] == 'v';
      } else if i == steps {
        assert ids[i][1] == 'u' && ids[j][1] == '_';
      } else {
        if ids[i] == ids[j] { SameNumber("v_", i - steps - 1, j - steps - 1); }
      }
    }
  }

  function StepTone(i: nat, n: nat): Option<Tone> {
    if i == 0 then Some(Entry) else if i + 1 == n then Some(Ok) else None
  }

  function StepId(i: nat): string { "a_" + ToDecimal(i) }

  /** One auth step: its node, and the edge from the step before. */
  function StepItems(steps: seq<string>, i: nat): seq<Item>
    requires i < |steps|
  {
    [Node(false, StepId(i), steps[i], StepTone(i, |steps|))]
    + (if i > 0 then [Edge(StepId(i - 1), StepId(i), "")] else [])
  }

  /** A node that follows a declared one. */
  lemma AddNodeAfter(items: seq<Item>, node: Item, from: string)
    requires node.Node? && Lexical(node) && Wired(items) && from in Declarations(items) && IsIdent(from)
    ensures var more := items + ([node] + [Edge(from, node.id, "")]);
            Wired(more) && Declarations(more) == Declarations(items) + [node.id]
  {
    Add(items, node);
    assert node.id in Declarations(items + [node]);
    Add(items + [node], Edge(from, node.id, ""));
    Regroup(items, [node], [Edge(from, node.id, "")]);
  }

  lemma NumberedGrow(prefix: string, n: nat)
    ensures Numbered(prefix, n + 1) == Numbered(prefix, n) + [prefix + ToDecimal(n)]
  {
    Grown(Numbered(prefix, n), Numbered(prefix, n + 1), prefix + ToDecimal(n));
  }

  lemma AddStep(items: seq<Item>, steps: seq<string>, i: nat)
    requires i < |steps| && Wired(items) && Declarations(items) == Numbered("a_", i)
    ensures Wired(items + StepItems(steps, i)) && Declarations(items + StepItems(steps, i)) == Numbered("a_", i + 1)
  {
    var node := Node(false, StepId(i), steps[i], StepTone(i, |steps|));
    NumberIsIdent("a_", i);
    NumberedGrow("a_", i);
    if i == 0 {
      Add(items, node);
      assert StepItems(steps, i) == [node];
    } else {
      NumberIsIdent("a_", i - 1);
      assert Numbered("a_", i)[i - 1] == StepId(i - 1);
      AddNodeAfter(items, node, StepId(i - 1));
    }
  }

  /** All auth steps, in order. */
  function FlowItems(steps: seq<string>, n: nat): seq<Item>
    requires n <= |steps|
  {
    if n == 0 then [Fixed(DirectionDown)] else FlowItems(steps, n - 1) + StepItems(steps, n - 1)
  }

  method AuthSteps(steps: seq<string>) returns (items: seq<Item>)
    ensures items == FlowItems(steps, |steps|)
    ensures Wired(items) && Declarations(items) == Numbered("a_", |steps|)
  {
    items := [Fixed(DirectionDown)];
    Start(DirectionDown);
    for i := 0 to |steps|
      invariant items == FlowItems(steps, i)
      invariant Wired(items) && Declarations(items) == Numbered("a_", i)
    {
      AddStep(items, steps, i);
      items := items + StepItems(steps, i);
    }
  }

  function Finding(v: Vulnerability, i: nat): Item {
    Node(true, "v_" + ToDecimal(i), VulnCaption(v), Some(Critical))
  }

  const BOX_TITLE := "High / Critical Issues"

  function BoxHead(): seq<Item> { [Open("vulns", BOX_TITLE), Fixed(BoxStroke), Fixed(BoxDash)] }

  lemma BoxTitle()
    ensures Quotable(BOX_TITLE) && IsIdent("vulns")
  {
  }

  /** A container with its properties declares the container. */
  lemma OpenContainer(items: seq<Item>, id: string, title: string, p: FixedLine, q: FixedLine)
    requires Wired(items) && IsIdent(id) && Quotable(title)
    ensures var more := [Open(id, title), Fixed(p), Fixed(q)];
            Wired(items + more) && Declarations(items + more) == Declarations(items) + [id]
  {
    var box := items + [Open(id, title)];
    Add(items, Open(id, title));
    Add(box, Fixed(p));
    Add(box + [Fixed(p)], Fixed(q));
    assert items + [Open(id, title), Fixed(p), Fixed(q)] == box + [Fixed(p)] + [Fixed(q)];
  }

  function Findings(shown: seq<Vulnerability>, n: nat): (r: seq<Item>)
    requires n <= |shown|
    ensures |r| == n && forall i | 0 <= i < n :: r[i] == Finding(shown[i], i)
  {
    seq(n, i requires 0 <= i < n => Finding(shown[i], i))
  }

  /** The first i findings stand behind the head. */
  ghost predicate FindingsAdded(items: seq<Item>, head: seq<Item>, shown: seq<Vulnerability>, i: nat)
    requires i <= |shown|
  {
    && items == head + Findings(shown, i)
    && Wired(items) && Declarations(items) == Declarations(head) + Numbered("v_", i)
  }

  lemma AddFinding(items: seq<Item>, head: seq<Item>, shown: seq<Vulnerability>, i: nat)
    requires i < |shown| && FindingsAdded(items, head, shown, i)
    ensures FindingsAdded(items + [Finding(shown[i], i)], head, shown, i + 1)
  {
    NumberIsIdent("v_", i);
    Add(items, Finding(shown[i], i));
    NumberedGrow("v_", i);
    FindingsAre(shown, i + 1);
    Regroup(head, Findings(shown, i), [Finding(shown[i], i)]);
    Regroup(Declarations(head), Numbered("v_", i), ["v_" + ToDecimal(i)]);
  }

  lemma FindingsAre(shown: seq<Vulnerability>, n: nat)
    requires 0 < n <= |shown|
    ensures Findings(shown, n) == Findings(shown, n - 1) + [Finding(shown[n - 1], n - 1)]
  {
    Grown(Findings(shown, n - 1), Findings(shown, n), Finding(shown[n - 1], n - 1));
  }

  /** The box of findings, appended to the flow. */
  method FindingsBox(flow: seq<Item>, shown: seq<Vulnerability>) returns (items: seq<Item>)
    requires Wired(flow)
    ensures Wired(items) && Declarations(items) == Declarations(flow) + ["vulns"] + Numbered("v_", |shown|)
    ensures items == flow + BoxHead() + Findings(shown, |shown|) + [Close]
  {
    BoxTitle();
    OpenContainer(flow, "vulns", BOX_TITLE, BoxStroke, BoxDash);
    var head := flow + BoxHead();
    items := head;
    for i := 0 to |shown|
      invariant FindingsAdded(items, head, shown, i)
    {
      AddFinding(items, head, shown, i);
      items := items + [Finding(shown[i], i)];
    }
    Add(items, Close);
    items := items + [Close];
  }

  /** The whole diagram: the captioned steps in order, and the captioned findings in their box. */
  function SecurityItems(steps: seq<string>, shown: seq<Vulnerability>): seq<Item> {
    FlowItems(steps, |steps|) + (if shown == [] then [] else BoxHead() + Findings(shown, |shown|) + [Close])
  }

  // What the printed diagram shows.

  function StepBox(steps: seq<string>, i: nat): Box
    requires i < |steps|
  {
    Box(0, "a_" + ToDecimal(i), Label(steps[i]), FillOf(if i == 0 then Some(Entry) else if i == |steps| - 1 then Some(Ok) else None))
  }

  function StepBoxes(steps: seq<string>, n: nat): (r: seq<Box>)
    requires n <= |steps|
    ensures |r| == n && forall i | 0 <= i < n :: r[i] == StepBox(steps, i)
  {
    seq(n, i requires 0 <= i < n => StepBox(steps, i))
  }

  function StepArrow(i: nat): Statement { Arrow("a_" + ToDecimal(i), "a_" + ToDecimal(i + 1), "", false) }

  /** The arrows between n steps. */
  function StepArrows(n: nat): (r: seq<Statement>)
    ensures |r| == (if n == 0 then 0 else n - 1) && forall i | 0 <= i < |r| :: r[i] == StepArrow(i)
  {
    if n == 0 then [] else seq(n - 1, i requires 0 <= i < n - 1 => StepArrow(i))
  }

  function FindingBox(v: Vulnerability, i: nat): Box {
    Box(1, "v_" + ToDecimal(i),
        Label((if v.severity == CriticalRisk then "CRITICAL" else "HIGH") + ": " + v.kind + " @ " + v.location),
        FillOf(Some(Tone.Critical)))
  }

  function FindingBoxes(shown: seq<Vulnerability>, n: nat): (r: seq<Box>)
    requires n <= |shown|
    ensures |r| == n && forall i | 0 <= i < n :: r[i] == FindingBox(shown[i], i)
  {
    seq(n, i requires 0 <= i < n => FindingBox(shown[i], i))
  }

  /** The steps from top to bottom, an arrow from each to the next, the first and the last in
      colour; and the findings, each with its severity in words, inside their box. */
  ghost predicate ShowsSecurity(text: seq<Statement>, steps: seq<string>, shown: seq<Vulnerability>) {
    && Boxes(text) == StepBoxes(steps, |steps|)
                      + (if shown == [] then [] else [Box(0, "vulns", "High / Critical Issues", None)] + FindingBoxes(shown, |shown|))
    && ArrowsIn(text) == StepArrows(|steps|)
  }

  lemma {:induction false} FlowShows(steps: seq<string>, n: nat)
    requires n <= |steps|
    ensures BoxesOf(FlowItems(steps, n), 0) == StepBoxes(steps, n)
    ensures ArrowsOf(FlowItems(steps, n)) == StepArrows(n)
    ensures DepthAfterAll(FlowItems(steps, n), 0) == 0
  {
    if n == 0 {
      OneShown(Fixed(DirectionDown), 0);
    } else {
      FlowShows(steps, n - 1);
      StepShows(steps, n - 1);
      ShownBoth(FlowItems(steps, n - 1), StepItems(steps, n - 1), 0);
      StepBoxesGrow(steps, n);
      StepArrowsGrow(n);
    }
  }

  lemma StepBoxesGrow(steps: seq<string>, n: nat)
    requires 0 < n <= |steps|
    ensures StepBoxes(steps, n) == StepBoxes(steps, n - 1) + [StepBox(steps, n - 1)]
  {
    Grown(StepBoxes(steps, n - 1), StepBoxes(steps, n), StepBox(steps, n - 1));
  }

  lemma StepArrowsGrow(n: nat)
    requires 0 < n
    ensures StepArrows(n) == StepArrows(n - 1) + (if n > 1 then [StepArrow(n - 2)] else [])
  {
  }

  lemma FindingsGrow(shown: seq<Vulnerability>, n: nat)
    requires 0 < n <= |shown|
    ensures Findings(shown, n) == Findings(shown, n - 1) + [Finding(shown[n - 1], n - 1)]
    ensures FindingBoxes(shown, n) == FindingBoxes(shown, n - 1) + [FindingBox(shown[n - 1], n - 1)]
  {
    FindingsAre(shown, n);
    Grown(FindingBoxes(shown, n - 1), FindingBoxes(shown, n), FindingBox(shown[n - 1], n - 1));
  }

  lemma FindingShows(v: Vulnerability, i: nat)
    requires IsSerious(v)
    ensures BoxOf(Finding(v, i), 1) == [FindingBox(v, i)] && ArrowOf(Finding(v, i)) == [] && DepthAfter(Finding(v, i), 1) == 1
  {
  }

  lemma StepShows(steps: seq<string>, i: nat)
    requires i < |steps|
    ensures BoxesOf(StepItems(steps, i), 0) == [StepBox(steps, i)]
    ensures ArrowsOf(StepItems(steps, i)) == if i > 0 then [StepArrow(i - 1)] else []
    ensures DepthAfterAll(StepItems(steps, i), 0) == 0
  {
    var node := Node(false, StepId(i), steps[i], StepTone(i, |steps|));
    OneShown(node, 0);
    if i > 0 {
      var edge := Edge(StepId(i - 1), StepId(i), "");
      OneShown(edge, 0);
      ShownBoth([node], [edge], 0);
    } else {
      assert StepItems(steps, i) == [node];
    }
  }

  lemma {:induction false} FindingsShow(shown: seq<Vulnerability>, n: nat)
    requires n <= |shown| && forall v | v in shown :: IsSerious(v)
    ensures BoxesOf(Findings(shown, n), 1) == FindingBoxes(shown, n)
    ensures ArrowsOf(Findings(shown, n)) == [] && DepthAfterAll(Findings(shown, n), 1) == 1
  {
    if n > 0 {
      var last := Finding(shown[n - 1], n - 1);
      FindingsShow(shown, n - 1);
      FindingsGrow(shown, n);
      FindingShows(shown[n - 1], n - 1);
      OneShown(last, 1);
      ShownBoth(Findings(shown, n - 1), [last], 1);
    }
  }

  lemma BoxShows(shown: seq<Vulnerability>)
    requires forall v | v in shown :: IsSerious(v)
    ensures
      var box := BoxHead() + Findings(shown, |shown|) + [Close];
      && BoxesOf(box, 0) == [Box(0, "vulns", BOX_TITLE, None)] + FindingBoxes(shown, |shown|)
      && ArrowsOf(box) == []
  {
    HeadShows();
    FindingsShow(shown, |shown|);
    ShownBoth(BoxHead(), Findings(shown, |shown|), 0);
    ShownBoth(BoxHead() + Findings(shown, |shown|), [Close], 0);
    OneShown(Close, 1);
  }

  lemma HeadShows()
    ensures BoxesOf(BoxHead(), 0) == [Box(0, "vulns", BOX_TITLE, None)]
    ensures ArrowsOf(BoxHead()) == [] && DepthAfterAll(BoxHead(), 0) == 1
  {
    assert BoxHead()[1..] == [Fixed(BoxStroke), Fixed(BoxDash)];
    assert [Fixed(BoxStroke), Fixed(BoxDash)][1..] == [Fixed(BoxDash)] && [Fixed(BoxDash)][1..] == [];
  }

  lemma SecurityShows(steps: seq<string>, shown: seq<Vulnerability>)
    requires Wired(SecurityItems(steps, shown)) && forall v | v in shown :: IsSerious(v)
    ensures ShowsSecurity(Read(Print(SecurityItems(steps, shown))), steps, shown)
  {
    var flow := FlowItems(steps, |steps|);
    PrintedShows(SecurityItems(steps, shown));
    FlowShows(steps, |steps|);
    if shown == [] {
      assert flow + [] == flow;
    } else {
      BoxShows(shown);
      ShownBoth(flow, BoxHead() + Findings(shown, |shown|) + [Close], 0);
    }
  }

  method SecurityFlow(steps: seq<string>, vulnerabilities: seq<Vulnerability>) returns (items: seq<Item>)
    ensures Wired(items) && NoRepeats(Declarations(items))
    ensures var vulns := Serious(vulnerabilities);
            if steps == [] && vulns == [] then items == Placeholder("Auth flow not detected")
            else
              && ShowsSecurity(Read(Print(items)), steps, Take(vulns, MAX_VULNS))
              && Declarations(items) == SecurityIds(|steps|, |Take(vulns, MAX_VULNS)|)
  {
    var vulns := Serious(vulnerabilities);
    if steps == [] && vulns == [] {
      return Placeholder("Auth flow not detected");
    }
    items := DrawSecurity(steps, Take(vulns, MAX_VULNS));
    SecurityIdsOnce(|steps|, |Take(vulns, MAX_VULNS)|);
    SecurityShows(steps, Take(vulns, MAX_VULNS));
  }

  method DrawSecurity(steps: seq<string>, shown: seq<Vulnerability>) returns (items: seq<Item>)
    ensures Wired(items) && Declarations(items) == SecurityIds(|steps|, |shown|)
    ensures items == SecurityItems(steps, shown)
  {
    items := AuthSteps(steps);
    NoFindings(|steps|);
    assert items + [] == items;
    if shown != [] {
      Regroup(items, BoxHead(), Findings(shown, |shown|));
      Regroup(items, BoxHead() + Findings(shown, |shown|), [Close]);
      items := FindingsBox(items, shown);
      WithFindings(|steps|, |shown|);
    }
  }

  lemma NoFindings(steps: nat)
    ensures SecurityIds(steps, 0) == Numbered("a_", steps)
  {
  }

  lemma WithFindings(steps: nat, findings: nat)
    requires findings > 0
    ensures SecurityIds(steps, findings) == Numbered("a_", steps) + ["vulns"] + Numbered("v_", findings)
  {
  }
}
