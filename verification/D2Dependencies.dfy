/**
 The diagrams of third-party packages: a grid of the declared ones, or, when imports were
 measured, a graph from modules to packages; and the measured path through the system.
 */
module D2Dependencies {
  import opened Common
  import opened Seqs
  import opened Sets
  import opened Decimal
  import opened OrderedMaps
  import opened StableSort
  import opened D2Text
  import opened D2Ids
  import opened D2Reader
  import opened D2Builder
  import RunKeys

  /** A measured import: how often a module imports a package. */
  datatype Import = Import(owner: string, package: string, count: nat)

  /** How a key is drawn. */
  datatype Look = Look(caption: string, tone: Option<Tone>)

  function PackageLook(package: string, critical: set<string>, outdated: set<string>): Look {
    var tags := (if package in critical then ["CRITICAL"] else []) + (if package in outdated then ["OUTDATED"] else []);
    Look(if tags == [] then package else "[" + Join(tags, " + ") + "] " + package,
         if package in critical && package in outdated then Some(Tone.Critical)
         else if package in critical then Some(Entry)
         else if package in outdated then Some(Tone.Warning)
         else None)
  }

  /** What is critical or outdated says so in words ... */
  function CaptionOf(package: string, critical: bool, outdated: bool): string {
    match (critical, outdated)
    case (true, true) => "[CRITICAL + OUTDATED] " + package
    case (true, false) => "[CRITICAL] " + package
    case (false, true) => "[OUTDATED] " + package
    case (false, false) => package
  }

  /** ... and in its colour. */
  function ToneOf(critical: bool, outdated: bool): Option<Tone> {
    match (critical, outdated)
    case (true, true) => Some(Tone.Critical)
    case (true, false) => Some(Entry)
    case (false, true) => Some(Tone.Warning)
    case (false, false) => None
  }

  function PackageBox(depth: int, id: string, package: string, critical: set<string>, outdated: set<string>): Box {
    var isCritical, isOutdated := package in critical, package in outdated;
    Box(depth, id, Label(CaptionOf(package, isCritical, isOutdated)), FillOf(ToneOf(isCritical, isOutdated)))
  }

  lemma LookSays(package: string, critical: set<string>, outdated: set<string>)
    ensures PackageLook(package, critical, outdated).caption == CaptionOf(package, package in critical, package in outdated)
  {
    TagsJoined();
    Bracketed();
  }

  lemma LookShows(nested: bool, id: string, package: string, critical: set<string>, outdated: set<string>, depth: int)
    ensures NodeBox(NodeOf(PackageLook(package, critical, outdated), nested, id), depth) == PackageBox(depth, id, package, critical, outdated)
  {
    LookSays(package, critical, outdated);
  }

  lemma Bracketed()
    ensures "[" + "CRITICAL + OUTDATED" + "] " == "[CRITICAL + OUTDATED] "
    ensures "[" + "CRITICAL" + "] " == "[CRITICAL] " && "[" + "OUTDATED" + "] " == "[OUTDATED] "
  {
  }

  lemma TagsJoined()
    ensures Join(["CRITICAL"] + ["OUTDATED"], " + ") == "CRITICAL + OUTDATED"
    ensures Join(["CRITICAL"] + [], " + ") == "CRITICAL" && Join([] + ["OUTDATED"], " + ") == "OUTDATED"
  {
    assert (["CRITICAL"] + ["OUTDATED"])[1..] == ["OUTDATED"];
    assert Join(["OUTDATED"], " + ") == "OUTDATED";
    assert ["CRITICAL"] + [] == ["CRITICAL"] && [] + ["OUTDATED"] == ["OUTDATED"];
  }

  // ─── Declaring a list of keys ───────────────────────────────────────────────

  function Images(keys: seq<string>, idOf: map<string, string>): (r: seq<string>)
    requires forall k | k in keys :: k in idOf
    ensures |r| == |keys| && forall i | 0 <= i < |keys| :: r[i] == idOf[keys[i]]
  {
    seq(|keys|, i requires 0 <= i < |keys| => idOf[keys[i]])
  }

  predicate Extends(later: map<string, string>, earlier: map<string, string>) {
    forall k | k in earlier :: k in later && later[k] == earlier[k]
  }

  function NodeOf(look: Look, nested: bool, id: string): Item { Node(nested, id, look.caption, look.tone) }

  function NodesOf(keys: seq<string>, looks: seq<Look>, nested: bool, idOf: map<string, string>): (r: seq<Item>)
    requires |keys| == |looks| && forall k | k in keys :: k in idOf
    ensures |r| == |keys| && forall i | 0 <= i < |keys| :: r[i] == NodeOf(looks[i], nested, idOf[keys[i]])
  {
    seq(|keys|, i requires 0 <= i < |keys| => NodeOf(looks[i], nested, idOf[keys[i]]))
  }

  /** Some keys have been declared, on top of what was there. */
  ghost predicate Declared(items: seq<Item>, start: seq<Item>, keys: seq<string>, looks: seq<Look>, nested: bool,
                           before: map<string, string>, idOf: map<string, string>)
    requires |keys| == |looks|
  {
    && Wired(items)
    && Extends(idOf, before) && (forall k | k in keys :: k in idOf) && (forall k | k in idOf :: k in before || k in keys)
    && items == start + NodesOf(keys, looks, nested, idOf)
    && Declarations(items) == Declarations(start) + Images(keys, idOf)
  }

  lemma DeclareNext(items: seq<Item>, start: seq<Item>, keys: seq<string>, looks: seq<Look>, nested: bool, i: nat,
                    before: map<string, string>, idOf: map<string, string>, id: string)
    requires i < |keys| == |looks| && Declared(items, start, keys[..i], looks[..i], nested, before, idOf)
    requires IsIdent(id) && (keys[i] in idOf ==> idOf[keys[i]] == id)
    ensures Declared(items + [NodeOf(looks[i], nested, id)], start, keys[..i + 1], looks[..i + 1], nested, before, idOf[keys[i] := id])
  {
    var next := idOf[keys[i] := id];
    var node := NodeOf(looks[i], nested, id);
    assert keys[..i + 1] == keys[..i] + [keys[i]] && looks[..i + 1] == looks[..i] + [looks[i]];
    Add(items, node);
    assert NodesOf(keys[..i + 1], looks[..i + 1], nested, next) == NodesOf(keys[..i], looks[..i], nested, idOf) + [node];
    assert Images(keys[..i + 1], next) == Images(keys[..i], idOf) + [id];
  }

  method DeclareEach(ids: IdAllocator, start: seq<Item>, keys: seq<string>, looks: seq<Look>, nested: bool)
    returns (items: seq<Item>)
    requires ids.Valid() && Wired(start) && |keys| == |looks|
    modifies ids
    ensures ids.Valid() && Declared(items, start, keys, looks, nested, old(ids.byLabel), ids.byLabel)
  {
    items := start;
    assert start + NodesOf([], [], nested, ids.byLabel) == start;
    assert Declarations(start) + Images([], ids.byLabel) == Declarations(start);
    for i := 0 to |keys|
      invariant ids.Valid() && Declared(items, start, keys[..i], looks[..i], nested, old(ids.byLabel), ids.byLabel)
    {
      ghost var before := ids.byLabel;
      var id := ids.Get(keys[i]);
      DeclareNext(items, start, keys, looks, nested, i, old(ids.byLabel), before, id);
      items := items + [NodeOf(looks[i], nested, id)];
    }
    assert keys[..|keys|] == keys && looks[..|looks|] == looks;
  }

  // ─── The grid ───────────────────────────────────────────────────────────────

  function PackageLooks(packages: seq<string>, critical: set<string>, outdated: set<string>): (r: seq<Look>)
    ensures |r| == |packages| && forall i | 0 <= i < |packages| :: r[i] == PackageLook(packages[i], critical, outdated)
  {
    seq(|packages|, i requires 0 <= i < |packages| => PackageLook(packages[i], critical, outdated))
  }

  const GRID_TITLE := "Runtime dependencies ("

  function GridTitle(n: nat): string { GRID_TITLE + ToDecimal(n) + ")" }

  function GridHead(n: nat): seq<Item> {
    [Fixed(DirectionDown), Node(false, "app", "This App", Some(Root)), Open("deps", GridTitle(n)), Fixed(GridColumns)]
  }

  lemma GridTitleQuotable(n: nat)
    ensures Quotable(GridTitle(n))
  {
    forall c | c in ToDecimal(n) ensures !IsTerminator(c) && c != '"' { DigitIsIdentChar(c); }
    GridTitleStart();
    QuotableBoth(GRID_TITLE, ToDecimal(n));
    QuotableBoth(GRID_TITLE + ToDecimal(n), ")");
  }

  lemma GridTitleStart()
    ensures Quotable(GRID_TITLE)
  {
  }

  lemma ContainerWired(first: FixedLine, node: Item, box: Item, last: FixedLine)
    requires node.Node? && box.Open? && Lexical(node) && Lexical(box)
    ensures var items := [Fixed(first), node, box, Fixed(last)]; Wired(items) && Declarations(items) == [node.id, box.id]
  {
    Start(first);
    Add([Fixed(first)], node);
    Add([Fixed(first)] + [node], box);
    Add([Fixed(first)] + [node] + [box], Fixed(last));
    assert [Fixed(first), node, box, Fixed(last)] == [Fixed(first)] + [node] + [box] + [Fixed(last)];
  }

  lemma GridStarts(n: nat)
    ensures Wired(GridHead(n)) && Declarations(GridHead(n)) == ["app", "deps"]
  {
    GridTitleQuotable(n);
    ContainerWired(DirectionDown, Node(false, "app", "This App", Some(Root)), Open("deps", GridTitle(n)), GridColumns);
  }

  /** What follows the packages: how many did not fit, the end of the box, and its one edge. */
  function GridTail(n: nat): seq<Item> {
    (if n > MAX_DEPS then [Node(true, "more", "+" + ToDecimal(n - MAX_DEPS) + " more", Some(Muted))] else [])
    + [Close, Edge("app", "deps", "")]
  }

  function GridIds(packages: seq<string>, overflow: bool): seq<string> {
    ["app", "deps"] + packages + (if overflow then ["more"] else [])
  }

  lemma GridCloses(items: seq<Item>)
    requires Wired(items) && "app" in Declarations(items) && "deps" in Declarations(items)
    ensures var more := [Close, Edge("app", "deps", "")];
            Wired(items + more) && Declarations(items + more) == Declarations(items)
  {
    Add(items, Close);
    Add(items + [Close], Edge("app", "deps", ""));
    assert items + [Close, Edge("app", "deps", "")] == items + [Close] + [Edge("app", "deps", "")];
  }

  lemma GridEnds(items: seq<Item>, packages: seq<string>, n: nat)
    requires Wired(items) && Declarations(items) == ["app", "deps"] + packages
    ensures Wired(items + GridTail(n)) && Declarations(items + GridTail(n)) == GridIds(packages, n > MAX_DEPS)
  {
    var more := if n > MAX_DEPS then [Node(true, "more", "+" + ToDecimal(n - MAX_DEPS) + " more", Some(Muted))] else [];
    var full := items + more;
    if n > MAX_DEPS { Add(items, more[0]); } else { assert full == items; }
    assert Declarations(full)[0] == "app" && Declarations(full)[1] == "deps";
    GridCloses(full);
    Regroup(items, more, [Close, Edge("app", "deps", "")]);
  }

  /** The second character tells the fixed identifiers and the allocated ones apart. */
  function SecondChar(i: nat, n: nat): char {
    if i == 0 then 'p' else if i == 1 then 'e' else if i < 2 + n then '_' else 'o'
  }

  lemma GridIdAt(packages: seq<string>, overflow: bool, i: nat)
    requires (forall p | p in packages :: "d_" <= p) && i < |GridIds(packages, overflow)|
    ensures var id := GridIds(packages, overflow)[i]; |id| >= 2 && id[1] == SecondChar(i, |packages|)
  {
    var ids := GridIds(packages, overflow);
    if 2 <= i < 2 + |packages| {
      assert ids[i] == packages[i - 2] && packages[i - 2] in packages;
    }
  }

  /** So a node is declared twice exactly when one identifier is allocated twice. */
  lemma GridOnce(packages: seq<string>, overflow: bool)
    requires forall p | p in packages :: "d_" <= p
    ensures NoRepeats(GridIds(packages, overflow)) <==> NoRepeats(packages)
  {
    var ids := GridIds(packages, overflow);
    forall i | 0 <= i < |packages| ensures ids[2 + i] == packages[i] {
    }
    if NoRepeats(packages) {
      forall i, j | 0 <= i < j < |ids| ensures ids[i] != ids[j] {
        GridIdAt(packages, overflow, i);
        GridIdAt(packages, overflow, j);
        if 2 <= i && j < 2 + |packages| {
          assert ids[i] == packages[i - 2] && ids[j] == packages[j - 2];
        }
      }
    } else {
      var i, j :| 0 <= i < j < |packages| && packages[i] == packages[j];
      assert ids[2 + i] == ids[2 + j];
    }
  }

  lemma ImagesOnce(keys: seq<string>, idOf: map<string, string>)
    requires (forall k | k in keys :: k in idOf) && Injective(idOf)
    ensures NoRepeats(Images(keys, idOf)) <==> NoRepeats(keys)
  {
    forall i, j | 0 <= i < j < |keys| ensures keys[i] == keys[j] <==> Images(keys, idOf)[i] == Images(keys, idOf)[j] {
    }
  }

  /** The grid, given the identifiers. */
  ghost predicate IsGrid(items: seq<Item>, runtime: seq<string>, critical: set<string>, outdated: set<string>, idOf: map<string, string>) {
    var drawn := Take(runtime, MAX_DEPS);
    && Injective(idOf) && (forall p | p in drawn :: p in idOf)
    && items == GridHead(|runtime|) + NodesOf(drawn, PackageLooks(drawn, critical, outdated), true, idOf) + GridTail(|runtime|)
  }

  // What the printed grid shows.

  function PackageBoxes(packages: seq<string>, critical: set<string>, outdated: set<string>, idOf: map<string, string>): (r: seq<Box>)
    requires forall p | p in packages :: p in idOf
    ensures |r| == |packages|
    ensures forall i | 0 <= i < |packages| :: r[i] == PackageBox(1, idOf[packages[i]], packages[i], critical, outdated)
  {
    seq(|packages|, i requires 0 <= i < |packages| => PackageBox(1, idOf[packages[i]], packages[i], critical, outdated))
  }

  lemma GridCounts(declared: seq<Item>, drawn: seq<string>, n: nat, idOf: map<string, string>)
    requires Wired(declared) && Injective(idOf) && (forall p | p in drawn :: p in idOf)
    requires Declarations(declared) == ["app", "deps"] + Images(drawn, idOf)
    requires forall id | id in Images(drawn, idOf) :: "d_" <= id
    ensures
      var items := declared + GridTail(n);
      && Wired(items) && (NoRepeats(Declarations(items)) <==> NoRepeats(drawn))
      && (CountNodes(Print(items)) == |Distinct(items)| <==> NoRepeats(drawn))
  {
    GridEnds(declared, Images(drawn, idOf), n);
    GridOnce(Images(drawn, idOf), n > MAX_DEPS);
    ImagesOnce(drawn, idOf);
    CounterCountsNodes(declared + GridTail(n));
  }

  /** The app, and in one container the first fifteen packages and how many more there are; one arrow. */
  ghost predicate ShowsGrid(text: seq<Statement>, runtime: seq<string>, critical: set<string>, outdated: set<string>, idOf: map<string, string>)
    requires forall p | p in Take(runtime, MAX_DEPS) :: p in idOf
  {
    && Boxes(text)
       == [Box(0, "app", Label("This App"), FillOf(Some(Root))), Box(0, "deps", "Runtime dependencies (" + ToDecimal(|runtime|) + ")", None)]
          + PackageBoxes(Take(runtime, MAX_DEPS), critical, outdated, idOf)
          + (if |runtime| > 15 then [Box(1, "more", Label("+" + ToDecimal(|runtime| - 15) + " more"), FillOf(Some(Muted)))] else [])
    && ArrowsIn(text) == [Arrow("app", "deps", "", false)]
  }

  lemma ContainerOpens(first: FixedLine, node: Item, box: Item, last: FixedLine)
    requires node.Node? && box.Open?
    ensures var items := [Fixed(first), node, box, Fixed(last)];
            BoxesOf(items, 0) == BoxOf(node, 0) + BoxOf(box, 0) && ArrowsOf(items) == [] && DepthAfterAll(items, 0) == 1
  {
    FixedFirst(first, node);
    FixedLast(box, last, 0);
    ShownBoth([Fixed(first), node], [box, Fixed(last)], 0);
    assert [Fixed(first), node] + [box, Fixed(last)] == [Fixed(first), node, box, Fixed(last)];
  }

  lemma FixedFirst(line: FixedLine, node: Item)
    requires node.Node?
    ensures var items := [Fixed(line), node];
            BoxesOf(items, 0) == BoxOf(node, 0) && ArrowsOf(items) == [] && DepthAfterAll(items, 0) == 0
  {
    assert [Fixed(line), node][1..] == [node];
    OneShown(node, 0);
  }

  lemma FixedLast(box: Item, line: FixedLine, depth: int)
    requires box.Open?
    ensures var items := [box, Fixed(line)];
            BoxesOf(items, depth) == BoxOf(box, depth) && ArrowsOf(items) == [] && DepthAfterAll(items, depth) == depth + 1
  {
    assert [box, Fixed(line)][1..] == [Fixed(line)];
    OneShown(Fixed(line), depth + 1);
  }

  lemma GridHeadShows(n: nat)
    ensures
      BoxesOf(GridHead(n), 0)
      == [Box(0, "app", Label("This App"), FillOf(Some(Root))), Box(0, "deps", "Runtime dependencies (" + ToDecimal(n) + ")", None)]
    ensures ArrowsOf(GridHead(n)) == [] && DepthAfterAll(GridHead(n), 0) == 1
  {
    ContainerOpens(DirectionDown, Node(false, "app", "This App", Some(Root)), Open("deps", GridTitle(n)), GridColumns);
  }

  lemma GridTailShows(n: nat)
    ensures BoxesOf(GridTail(n), 1)
            == if n > 15 then [Box(1, "more", Label("+" + ToDecimal(n - 15) + " more"), FillOf(Some(Muted)))] else []
    ensures ArrowsOf(GridTail(n)) == [Arrow("app", "deps", "", false)]
  {
    var edge := Edge("app", "deps", "");
    OneShown(Close, 1);
    OneShown(edge, 0);
    ShownBoth([Close], [edge], 1);
    assert [Close] + [edge] == [Close, edge];
    if n > 15 {
      var more := Node(true, "more", "+" + ToDecimal(n - MAX_DEPS) + " more", Some(Muted));
      OneShown(more, 1);
      ShownBoth([more], [Close, edge], 1);
    } else {
      assert GridTail(n) == [Close, edge];
    }
  }

  lemma GridPackagesShow(packages: seq<string>, critical: set<string>, outdated: set<string>, idOf: map<string, string>)
    requires forall p | p in packages :: p in idOf
    ensures
      var nodes := NodesOf(packages, PackageLooks(packages, critical, outdated), true, idOf);
      && BoxesOf(nodes, 1) == PackageBoxes(packages, critical, outdated, idOf)
      && ArrowsOf(nodes) == [] && DepthAfterAll(nodes, 1) == 1
  {
    var nodes := NodesOf(packages, PackageLooks(packages, critical, outdated), true, idOf);
    NodesShown(nodes, 1);
    forall i | 0 <= i < |packages| ensures BoxesOf(nodes, 1)[i] == PackageBox(1, idOf[packages[i]], packages[i], critical, outdated) {
      LookShows(true, idOf[packages[i]], packages[i], critical, outdated, 1);
    }
  }

  lemma GridShows(items: seq<Item>, runtime: seq<string>, critical: set<string>, outdated: set<string>, idOf: map<string, string>)
    requires Wired(items) && IsGrid(items, runtime, critical, outdated, idOf)
    ensures ShowsGrid(Read(Print(items)), runtime, critical, outdated, idOf)
  {
    var drawn := Take(runtime, MAX_DEPS);
    var nodes := NodesOf(drawn, PackageLooks(drawn, critical, outdated), true, idOf);
    PrintedShows(items);
    GridHeadShows(|runtime|);
    GridPackagesShow(drawn, critical, outdated, idOf);
    GridTailShows(|runtime|);
    ShownBoth(GridHead(|runtime|), nodes, 0);
    ShownBoth(GridHead(|runtime|) + nodes, GridTail(|runtime|), 0);
  }

  method DependencyGrid(runtime: seq<string>, critical: set<string>, outdated: set<string>)
    returns (items: seq<Item>, ghost idOf: map<string, string>)
    ensures Wired(items) && IsGrid(items, runtime, critical, outdated, idOf)
    ensures ShowsGrid(Read(Print(items)), runtime, critical, outdated, idOf)
    ensures var drawn := Take(runtime, MAX_DEPS);
            && (NoRepeats(Declarations(items)) <==> NoRepeats(drawn))
            && (CountNodes(Print(items)) == |Distinct(items)| <==> NoRepeats(drawn))
  {
    var ids := new IdAllocator("d");
    var drawn := Take(runtime, MAX_DEPS);
    GridStarts(|runtime|);
    items := DeclareEach(ids, GridHead(|runtime|), drawn, PackageLooks(drawn, critical, outdated), true);
    idOf := ids.byLabel;
    GridCounts(items, drawn, |runtime|, idOf);
    items := items + GridTail(|runtime|);
    GridShows(items, runtime, critical, outdated, idOf);
  }

  /** Two packages listed under one name are one node, declared and counted twice. */
  lemma ListedTwice(package: string)
    ensures !NoRepeats(Take([package, package], MAX_DEPS))
  {
    assert [package, package][0] == [package, package][1];
  }

  // ─── The measured graph ─────────────────────────────────────────────────────

  function Owners(imports: seq<Import>): (r: seq<string>)
    ensures |r| == |imports| && forall i | 0 <= i < |imports| :: r[i] == imports[i].owner
  {
    seq(|imports|, i requires 0 <= i < |imports| => imports[i].owner)
  }

  function Packages(imports: seq<Import>): (r: seq<string>)
    ensures |r| == |imports| && forall i | 0 <= i < |imports| :: r[i] == imports[i].package
  {
    seq(|imports|, i requires 0 <= i < |imports| => imports[i].package)
  }

  function TotalOf(imports: seq<Import>, owner: string): nat {
    if imports == [] then 0
    else TotalOf(imports[..|imports| - 1], owner)
         + (if imports[|imports| - 1].owner == owner then imports[|imports| - 1].count else 0)
  }

  /** The modules that import anything, in the order they were first seen, with their totals. */
  method CountByModule(imports: seq<Import>) returns (totals: OrderedMap<string, nat>)
    ensures totals.Valid() && totals.keys == AddAll([], Owners(imports))
    ensures forall m | m in totals.at :: totals.at[m] == TotalOf(imports, m)
  {
    totals := EmptyMap();
    for i := 0 to |imports|
      invariant totals.Valid() && totals.keys == AddAll([], Owners(imports[..i])) && Totals(totals, imports[..i])
    {
      var e := imports[i];
      NextOwner(imports, i);
      NextTotal(totals, imports, i);
      totals := totals.Put(e.owner, Seen(totals, e.owner) + e.count);
    }
    assert imports[..|imports|] == imports;
    forall m | m in totals.at ensures totals.at[m] == TotalOf(imports, m) {
      assert Seen(totals, m) == TotalOf(imports, m);
    }
  }

  function Seen(totals: OrderedMap<string, nat>, m: string): nat { if m in totals.at then totals.at[m] else 0 }

  ghost predicate Totals(totals: OrderedMap<string, nat>, imports: seq<Import>) {
    forall m :: Seen(totals, m) == TotalOf(imports, m)
  }

  lemma NextOwner(imports: seq<Import>, i: nat)
    requires i < |imports|
    ensures AddAll([], Owners(imports[..i + 1])) == AddOnce(AddAll([], Owners(imports[..i])), imports[i].owner)
  {
    var owners := Owners(imports[..i + 1]);
    assert owners[..i] == Owners(imports[..i]) && owners[i] == imports[i].owner && |owners| == i + 1;
  }

  lemma NextTotal(totals: OrderedMap<string, nat>, imports: seq<Import>, i: nat)
    requires i < |imports| && totals.Valid() && Totals(totals, imports[..i])
    ensures Totals(totals.Put(imports[i].owner, Seen(totals, imports[i].owner) + imports[i].count), imports[..i + 1])
  {
    var totals' := totals.Put(imports[i].owner, Seen(totals, imports[i].owner) + imports[i].count);
    forall m ensures Seen(totals', m) == TotalOf(imports[..i + 1], m) {
      assert imports[..i + 1][..i] == imports[..i];
      assert Seen(totals, m) == TotalOf(imports[..i], m);
    }
  }

  function ByTotal(imports: seq<Import>): string -> int { (m: string) => 0 - TotalOf(imports, m) }

  function ByCount(): Import -> int { (e: Import) => 0 - e.count }

  function OwnerIn(owners: seq<string>): Import -> bool { (e: Import) => e.owner in owners }

  function OwnedBy(imports: seq<Import>, owners: seq<string>): (r: seq<Import>)
    ensures forall e :: e in r <==> e in imports && e.owner in owners
  {
    Filter(imports, OwnerIn(owners))
  }

  /** The busiest modules, their heaviest imports, and the packages of those. */
  function BusyModules(imports: seq<Import>): seq<string> {
    Take(SortBy(AddAll([], Owners(imports)), ByTotal(imports)), MAX_DEP_MODULES)
  }

  function HeavyImports(imports: seq<Import>): seq<Import> {
    Take(SortBy(OwnedBy(imports, BusyModules(imports)), ByCount()), MAX_DEP_EDGES)
  }

  function KeptPackages(imports: seq<Import>): seq<string> {
    Take(AddAll([], Packages(HeavyImports(imports))), MAX_DEP_PACKAGES)
  }

  function Prefixed(prefix: string, names: seq<string>): (r: seq<string>)
    ensures |r| == |names| && forall i | 0 <= i < |names| :: r[i] == prefix + names[i]
  {
    seq(|names|, i requires 0 <= i < |names| => prefix + names[i])
  }

  lemma PrefixedIn(prefix: string, names: seq<string>, name: string)
    requires name in names
    ensures prefix + name in Prefixed(prefix, names)
  {
    var i :| 0 <= i < |names| && names[i] == name;
    assert Prefixed(prefix, names)[i] == prefix + name;
  }

  function GraphKeys(modules: seq<string>, packages: seq<string>): seq<string> {
    Prefixed("mod:", modules) + Prefixed("pkg:", packages)
  }

  lemma GraphKeysOnce(modules: seq<string>, packages: seq<string>)
    requires NoRepeats(modules) && NoRepeats(packages)
    ensures NoRepeats(GraphKeys(modules, packages))
  {
    var keys := GraphKeys(modules, packages);
    forall i, j | 0 <= i < j < |keys| ensures keys[i] != keys[j] {
      if j < |modules| {
        assert keys[i][4..] == modules[i] && keys[j][4..] == modules[j];
      } else if |modules| <= i {
        assert keys[i][4..] == packages[i - |modules|] && keys[j][4..] == packages[j - |modules|];
      } else {
        assert keys[i][0] == 'm' && keys[j][0] == 'p';
      }
    }
  }

  function ModuleLooks(modules: seq<string>): (r: seq<Look>)
    ensures |r| == |modules| && forall i | 0 <= i < |modules| :: r[i] == Look(modules[i], Some(Root))
  {
    seq(|modules|, i requires 0 <= i < |modules| => Look(modules[i], Some(Root)))
  }

  function IdOf(idOf: map<string, string>, key: string): string { if key in idOf then idOf[key] else "" }

  function ImportEdge(e: Import, idOf: map<string, string>): Item {
    Edge(IdOf(idOf, "mod:" + e.owner), IdOf(idOf, "pkg:" + e.package), ToDecimal(e.count))
  }

  function ImportEdges(edges: seq<Import>, packages: seq<string>, idOf: map<string, string>): (r: seq<Item>)
    ensures |r| <= |edges|
    ensures forall e | e in edges && e.package in packages :: ImportEdge(e, idOf) in r
    ensures forall item | item in r :: exists e | e in edges && e.package in packages :: item == ImportEdge(e, idOf)
  {
    if edges == [] then []
    else
      var e := edges[|edges| - 1];
      assert forall x | x in edges :: x in edges[..|edges| - 1] || x == e;
      ImportEdges(edges[..|edges| - 1], packages, idOf)
      + (if e.package in packages then [ImportEdge(e, idOf)] else [])
  }

  function TotalKey(totals: OrderedMap<string, nat>): string -> int {
    (m: string) => if m in totals.at then -(totals.at[m] as int) else 0
  }

  lemma BusyOnce(imports: seq<Import>)
    ensures NoRepeats(BusyModules(imports))
  {
    SortOnce(AddAll([], Owners(imports)), ByTotal(imports));
  }

  lemma HeavyFromBusy(imports: seq<Import>)
    ensures forall e | e in HeavyImports(imports) :: e in imports && e.owner in BusyModules(imports)
  {
    var owned := OwnedBy(imports, BusyModules(imports));
    SortBySameElements(owned, ByCount());
    forall e | e in HeavyImports(imports) ensures e in imports && e.owner in BusyModules(imports) {
      assert e in SortBy(owned, ByCount());
    }
  }

  lemma KeptImported(edges: seq<Import>, p: string)
    requires p in AddAll([], Packages(edges))
    ensures exists e :: e in edges && e.package == p
  {
    var i :| 0 <= i < |edges| && Packages(edges)[i] == p;
    assert edges[i] in edges;
  }

  lemma KeptOnce(imports: seq<Import>)
    ensures NoRepeats(KeptPackages(imports))
    ensures forall p | p in KeptPackages(imports) :: p in AddAll([], Packages(HeavyImports(imports)))
  {
  }

  ghost predicate ImportsDrawn(items: seq<Item>, nodes: seq<Item>, edges: seq<Import>, packages: seq<string>,
                               idOf: map<string, string>)
  {
    && Wired(items) && Declarations(items) == Declarations(nodes)
    && items == nodes + ImportEdges(edges, packages, idOf)
  }

  /** Both ends of every edge are declared. */
  predicate EndsDeclared(nodes: seq<Item>, modules: seq<string>, packages: seq<string>, idOf: map<string, string>) {
    && (forall m | m in modules :: "mod:" + m in idOf) && (forall p | p in packages :: "pkg:" + p in idOf)
    && (forall m | m in modules :: idOf["mod:" + m] in Declarations(nodes) && IsIdent(idOf["mod:" + m]))
    && (forall p | p in packages :: idOf["pkg:" + p] in Declarations(nodes) && IsIdent(idOf["pkg:" + p]))
  }

  lemma DrawImport(items: seq<Item>, nodes: seq<Item>, edges: seq<Import>, i: nat, modules: seq<string>,
                   packages: seq<string>, idOf: map<string, string>)
    requires i < |edges| && EndsDeclared(nodes, modules, packages, idOf)
    requires forall e | e in edges :: e.owner in modules
    requires ImportsDrawn(items, nodes, edges[..i], packages, idOf)
    ensures if edges[i].package in packages
            then ImportsDrawn(items + [ImportEdge(edges[i], idOf)], nodes, edges[..i + 1], packages, idOf)
            else ImportsDrawn(items, nodes, edges[..i + 1], packages, idOf)
  {
    assert edges[..i + 1][..i] == edges[..i];
    if edges[i].package in packages {
      Add(items, ImportEdge(edges[i], idOf));
    }
  }

  method EdgeOf(ids: IdAllocator, e: Import) returns (edge: Item)
    requires ids.Valid() && "mod:" + e.owner in ids.byLabel && "pkg:" + e.package in ids.byLabel
    modifies ids
    ensures ids.Valid() && ids.byLabel == old(ids.byLabel) && edge == ImportEdge(e, ids.byLabel)
  {
    var from := ids.Get("mod:" + e.owner);
    var to := ids.Get("pkg:" + e.package);
    edge := Edge(from, to, ToDecimal(e.count));
  }

  method ConnectImports(ids: IdAllocator, nodes: seq<Item>, edges: seq<Import>, modules: seq<string>, packages: seq<string>)
    returns (items: seq<Item>)
    requires ids.Valid() && Wired(nodes) && EndsDeclared(nodes, modules, packages, ids.byLabel)
    requires forall e | e in edges :: e.owner in modules
    modifies ids
    ensures ids.Valid() && ids.byLabel == old(ids.byLabel)
    ensures ImportsDrawn(items, nodes, edges, packages, ids.byLabel)
  {
    items := nodes;
    for i := 0 to |edges|
      invariant ids.Valid() && ids.byLabel == old(ids.byLabel)
      invariant ImportsDrawn(items, nodes, edges[..i], packages, ids.byLabel)
    {
      DrawImport(items, nodes, edges, i, modules, packages, ids.byLabel);
      if edges[i].package !in packages { continue; }
      var edge := EdgeOf(ids, edges[i]);
      items := items + [edge];
    }
    assert edges[..|edges|] == edges;
  }

  lemma SameUnderExtension(keys: seq<string>, looks: seq<Look>, nested: bool, earlier: map<string, string>, later: map<string, string>)
    requires |keys| == |looks| && Extends(later, earlier) && forall k | k in keys :: k in earlier
    ensures NodesOf(keys, looks, nested, later) == NodesOf(keys, looks, nested, earlier)
    ensures Images(keys, later) == Images(keys, earlier)
  {
  }

  lemma ImagesAppend(a: seq<string>, b: seq<string>, idOf: map<string, string>)
    requires forall k | k in a + b :: k in idOf
    ensures (forall k | k in a :: k in idOf) && (forall k | k in b :: k in idOf)
    ensures Images(a + b, idOf) == Images(a, idOf) + Images(b, idOf)
  {
    forall k | k in a || k in b ensures k in idOf { assert k in a + b; }
  }

  lemma ImageIn(keys: seq<string>, idOf: map<string, string>, key: string)
    requires (forall k | k in keys :: k in idOf) && key in keys
    ensures idOf[key] in Images(keys, idOf)
  {
    var i :| 0 <= i < |keys| && keys[i] == key;
    assert Images(keys, idOf)[i] == idOf[key];
  }

  /** Everything an edge can join has been declared. */
  lemma EndsAre(nodes: seq<Item>, modules: seq<string>, packages: seq<string>, idOf: map<string, string>)
    requires forall k | k in GraphKeys(modules, packages) :: k in idOf && IsIdent(idOf[k])
    requires Declarations(nodes) == Images(GraphKeys(modules, packages), idOf)
    ensures EndsDeclared(nodes, modules, packages, idOf)
  {
    var keys := GraphKeys(modules, packages);
    forall m | m in modules ensures "mod:" + m in keys && idOf["mod:" + m] in Declarations(nodes) {
      PrefixedIn("mod:", modules, m);
      ImageIn(keys, idOf, "mod:" + m);
    }
    forall p | p in packages ensures "pkg:" + p in keys && idOf["pkg:" + p] in Declarations(nodes) {
      PrefixedIn("pkg:", packages, p);
      ImageIn(keys, idOf, "pkg:" + p);
    }
  }

  /** The nodes of the graph: modules, then packages. */
  function GraphNodes(modules: seq<string>, packages: seq<string>, looks: seq<Look>, idOf: map<string, string>): seq<Item>
    requires |looks| == |packages| && forall k | k in GraphKeys(modules, packages) :: k in idOf
  {
    assert forall k | k in Prefixed("mod:", modules) :: k in GraphKeys(modules, packages);
    assert forall k | k in Prefixed("pkg:", packages) :: k in GraphKeys(modules, packages);
    [Fixed(DirectionRight)]
    + NodesOf(Prefixed("mod:", modules), ModuleLooks(modules), false, idOf)
    + NodesOf(Prefixed("pkg:", packages), looks, false, idOf)
  }

  method DeclareGraph(ids: IdAllocator, modules: seq<string>, packages: seq<string>, looks: seq<Look>) returns (nodes: seq<Item>)
    requires ids.Valid() && ids.byLabel == map[] && |looks| == |packages|
    modifies ids
    ensures ids.Valid() && (forall k | k in GraphKeys(modules, packages) :: k in ids.byLabel)
    ensures Wired(nodes) && nodes == GraphNodes(modules, packages, looks, ids.byLabel)
    ensures Declarations(nodes) == Images(GraphKeys(modules, packages), ids.byLabel)
  {
    Start(DirectionRight);
    var moduleKeys, packageKeys := Prefixed("mod:", modules), Prefixed("pkg:", packages);
    nodes := DeclareEach(ids, [Fixed(DirectionRight)], moduleKeys, ModuleLooks(modules), false);
    ghost var earlier := ids.byLabel;
    nodes := DeclareEach(ids, nodes, packageKeys, looks, false);
    SameUnderExtension(moduleKeys, ModuleLooks(modules), false, earlier, ids.byLabel);
    ImagesAppend(moduleKeys, packageKeys, ids.byLabel);
    assert [] + Images(moduleKeys, earlier) == Images(moduleKeys, earlier);
  }

  /** The whole graph, given the identifiers: the modules and packages drawn, each once, and
      the heaviest imports between them. */
  ghost predicate IsEdgeGraph(items: seq<Item>, imports: seq<Import>, critical: set<string>, outdated: set<string>,
                              idOf: map<string, string>)
  {
    var modules, edges, packages := BusyModules(imports), HeavyImports(imports), KeptPackages(imports);
    && Injective(idOf) && (forall k | k in GraphKeys(modules, packages) :: k in idOf)
    && (forall e | e in edges :: e.owner in modules)
    && items == GraphNodes(modules, packages, PackageLooks(packages, critical, outdated), idOf)
                + ImportEdges(edges, packages, idOf)
  }

  // What the drawn modules, imports and packages are.

  /** At most six modules, none of which imports less than one left out; the eighteen heaviest of
      their imports; and the first twelve packages of those. */
  lemma GraphPicks(imports: seq<Import>)
    ensures
      var modules := BusyModules(imports);
      && |modules| == Min(6, |AddAll([], Owners(imports))|) && (forall m | m in modules :: exists e | e in imports :: e.owner == m)
      && (forall e | e in imports && e.owner !in modules ::
            forall i | 0 <= i < |modules| :: TotalOf(imports, modules[i]) >= TotalOf(imports, e.owner))
    ensures
      var heavy := HeavyImports(imports);
      && |heavy| <= 18 && (forall i, j | 0 <= i < j < |heavy| :: heavy[i].count >= heavy[j].count)
      && (forall e | e in heavy :: e in imports && e.owner in BusyModules(imports))
      && (forall e | e in imports && e.owner in BusyModules(imports) && e !in heavy ::
            forall i | 0 <= i < |heavy| :: heavy[i].count >= e.count)
    ensures |KeptPackages(imports)| <= 12 && KeptPackages(imports) <= AddAll([], Packages(HeavyImports(imports)))
  {
    var owners, total := AddAll([], Owners(imports)), ByTotal(imports);
    KeptFirst(owners, total, MAX_DEP_MODULES);
    forall m | m in BusyModules(imports) ensures exists e | e in imports :: e.owner == m {
      var e := BusyImports(imports, m);
    }
    forall e | e in imports && e.owner !in BusyModules(imports)
      ensures forall i | 0 <= i < |BusyModules(imports)| :: TotalOf(imports, BusyModules(imports)[i]) >= TotalOf(imports, e.owner)
    {
      OwnerListed(imports, e);
      assert forall i | 0 <= i < |BusyModules(imports)| :: total(BusyModules(imports)[i]) <= total(e.owner);
    }
    HeaviestKept(imports, BusyModules(imports), MAX_DEP_EDGES);
  }

  lemma OwnerListed(imports: seq<Import>, e: Import)
    requires e in imports
    ensures e.owner in AddAll([], Owners(imports))
  {
    var i :| 0 <= i < |imports| && imports[i] == e;
    assert Owners(imports)[i] == e.owner;
  }

  /** The n heaviest imports of some modules. */
  lemma HeaviestKept(imports: seq<Import>, owners: seq<string>, n: nat)
    ensures
      var heavy := Take(SortBy(OwnedBy(imports, owners), ByCount()), n);
      && |heavy| <= n && (forall i, j | 0 <= i < j < |heavy| :: heavy[i].count >= heavy[j].count)
      && (forall e | e in heavy :: e in imports && e.owner in owners)
      && (forall e | e in imports && e.owner in owners && e !in heavy :: forall i | 0 <= i < |heavy| :: heavy[i].count >= e.count)
  {
    var heavy := Take(SortBy(OwnedBy(imports, owners), ByCount()), n);
    KeptFirst(OwnedBy(imports, owners), ByCount(), n);
    assert forall i, j | 0 <= i < j < |heavy| :: ByCount()(heavy[i]) <= ByCount()(heavy[j]);
    forall e | e in imports && e.owner in owners && e !in heavy ensures forall i | 0 <= i < |heavy| :: heavy[i].count >= e.count {
      assert forall i | 0 <= i < |heavy| :: ByCount()(heavy[i]) <= ByCount()(e);
    }
  }

  // What the printed graph shows.

  function Drawn(packages: seq<string>): Import -> bool { (e: Import) => e.package in packages }

  /** The first boxes are the modules. */
  ghost predicate AreModules(boxes: seq<Box>, modules: seq<string>, idOf: map<string, string>) {
    && |modules| <= |boxes|
    && forall i | 0 <= i < |modules| :: boxes[i] == Box(0, IdOf(idOf, "mod:" + modules[i]), Label(modules[i]), FillOf(Some(Root)))
  }

  /** From the k-th on, the boxes are the packages. */
  ghost predicate ArePackages(boxes: seq<Box>, k: nat, packages: seq<string>, critical: set<string>, outdated: set<string>,
                              idOf: map<string, string>) {
    && |boxes| == k + |packages|
    && forall i | 0 <= i < |packages| ::
         boxes[k + i] == PackageBox(0, IdOf(idOf, "pkg:" + packages[i]), packages[i], critical, outdated)
  }

  /** The modules and packages drawn, and an arrow from module to package for each of the heaviest
      imports, in order, with its count. */
  ghost predicate ShowsGraph(text: seq<Statement>, imports: seq<Import>, critical: set<string>, outdated: set<string>,
                             idOf: map<string, string>)
  {
    var modules, packages := BusyModules(imports), KeptPackages(imports);
    var edges := Filter(HeavyImports(imports), Drawn(packages));
    var boxes, arrows := Boxes(text), ArrowsIn(text);
    && AreModules(boxes, modules, idOf) && ArePackages(boxes, |modules|, packages, critical, outdated, idOf)
    && |arrows| == |edges|
    && (forall i | 0 <= i < |edges| ::
          arrows[i] == Arrow(IdOf(idOf, "mod:" + edges[i].owner), IdOf(idOf, "pkg:" + edges[i].package),
                             Label(ToDecimal(edges[i].count)), false))
  }

  lemma {:induction false} ImportEdgesAre(edges: seq<Import>, packages: seq<string>, idOf: map<string, string>)
    ensures
      var kept, items := Filter(edges, Drawn(packages)), ImportEdges(edges, packages, idOf);
      |items| == |kept| && forall i | 0 <= i < |kept| :: items[i] == ImportEdge(kept[i], idOf)
  {
    if edges != [] { ImportEdgesAre(edges[..|edges| - 1], packages, idOf); }
  }

  lemma ImportArrows(edges: seq<Import>, packages: seq<string>, idOf: map<string, string>)
    ensures
      var kept, items := Filter(edges, Drawn(packages)), ImportEdges(edges, packages, idOf);
      && (forall item | item in items :: item.Edge?) && |ArrowsOf(items)| == |kept|
      && forall i | 0 <= i < |kept| ::
           ArrowsOf(items)[i] == Arrow(IdOf(idOf, "mod:" + kept[i].owner), IdOf(idOf, "pkg:" + kept[i].package),
                                       Label(ToDecimal(kept[i].count)), false)
  {
    var kept, items := Filter(edges, Drawn(packages)), ImportEdges(edges, packages, idOf);
    ImportEdgesAre(edges, packages, idOf);
    EdgesShown(items, 0);
    forall i | 0 <= i < |kept|
      ensures ArrowsOf(items)[i] == Arrow(IdOf(idOf, "mod:" + kept[i].owner), IdOf(idOf, "pkg:" + kept[i].package),
                                          Label(ToDecimal(kept[i].count)), false)
    {
      assert ArrowOf(items[i]) == [ArrowsOf(items)[i]];
      NotEmpty(kept[i].count);
    }
  }

  /** Nodes declared from keys and looks show them. */
  lemma NodesOfShow(keys: seq<string>, looks: seq<Look>, idOf: map<string, string>)
    requires |keys| == |looks| && forall k | k in keys :: k in idOf
    ensures
      var nodes := NodesOf(keys, looks, false, idOf);
      && (forall item | item in nodes :: item.Node?) && |BoxesOf(nodes, 0)| == |keys|
      && forall i | 0 <= i < |keys| :: BoxesOf(nodes, 0)[i] == NodeBox(NodeOf(looks[i], false, IdOf(idOf, keys[i])), 0)
  {
    NodesShown(NodesOf(keys, looks, false, idOf), 0);
  }

  lemma ModuleNodesShow(modules: seq<string>, idOf: map<string, string>) returns (nodes: seq<Item>)
    requires forall k | k in Prefixed("mod:", modules) :: k in idOf
    ensures nodes == NodesOf(Prefixed("mod:", modules), ModuleLooks(modules), false, idOf)
    ensures (forall item | item in nodes :: item.Node?)
    ensures |BoxesOf(nodes, 0)| == |modules| && AreModules(BoxesOf(nodes, 0), modules, idOf)
  {
    nodes := NodesOf(Prefixed("mod:", modules), ModuleLooks(modules), false, idOf);
    NodesOfShow(Prefixed("mod:", modules), ModuleLooks(modules), idOf);
  }

  lemma PackageNodesShow(packages: seq<string>, critical: set<string>, outdated: set<string>, idOf: map<string, string>)
    returns (nodes: seq<Item>)
    requires forall k | k in Prefixed("pkg:", packages) :: k in idOf
    ensures nodes == NodesOf(Prefixed("pkg:", packages), PackageLooks(packages, critical, outdated), false, idOf)
    ensures (forall item | item in nodes :: item.Node?) && ArePackages(BoxesOf(nodes, 0), 0, packages, critical, outdated, idOf)
  {
    var looks := PackageLooks(packages, critical, outdated);
    nodes := NodesOf(Prefixed("pkg:", packages), looks, false, idOf);
    NodesOfShow(Prefixed("pkg:", packages), looks, idOf);
    forall i | 0 <= i < |packages|
      ensures BoxesOf(nodes, 0)[i] == PackageBox(0, IdOf(idOf, "pkg:" + packages[i]), packages[i], critical, outdated)
    {
      LookShows(false, IdOf(idOf, "pkg:" + packages[i]), packages[i], critical, outdated, 0);
    }
  }

  lemma BoxesSideBySide(top: seq<Box>, rest: seq<Box>, modules: seq<string>, packages: seq<string>,
                        critical: set<string>, outdated: set<string>, idOf: map<string, string>)
    requires |top| == |modules| && AreModules(top, modules, idOf) && ArePackages(rest, 0, packages, critical, outdated, idOf)
    ensures AreModules(top + rest, modules, idOf) && ArePackages(top + rest, |modules|, packages, critical, outdated, idOf)
  {
    Sides(top + rest, top, rest);
    forall i | 0 <= i < |packages|
      ensures (top + rest)[|modules| + i] == PackageBox(0, IdOf(idOf, "pkg:" + packages[i]), packages[i], critical, outdated)
    {
      assert rest[0 + i] == PackageBox(0, IdOf(idOf, "pkg:" + packages[i]), packages[i], critical, outdated);
    }
  }

  /** The nodes of the graph show the modules, then the packages. */
  lemma GraphNodesShow(modules: seq<string>, packages: seq<string>, critical: set<string>, outdated: set<string>, idOf: map<string, string>)
    returns (nodes: seq<Item>)
    requires forall k | k in GraphKeys(modules, packages) :: k in idOf
    ensures GraphNodes(modules, packages, PackageLooks(packages, critical, outdated), idOf) == [Fixed(DirectionRight)] + nodes
    ensures forall item | item in nodes :: item.Node?
    ensures AreModules(BoxesOf(nodes, 0), modules, idOf)
    ensures ArePackages(BoxesOf(nodes, 0), |modules|, packages, critical, outdated, idOf)
  {
    GraphKeysIn(modules, packages, idOf);
    var top := ModuleNodesShow(modules, idOf);
    var rest := PackageNodesShow(packages, critical, outdated, idOf);
    nodes := top + rest;
    Regroup([Fixed(DirectionRight)], top, rest);
    BothShown(top, rest);
    BoxesSideBySide(BoxesOf(top, 0), BoxesOf(rest, 0), modules, packages, critical, outdated, idOf);
  }

  lemma BothShown(top: seq<Item>, rest: seq<Item>)
    requires forall item | item in top :: item.Node?
    ensures BoxesOf(top + rest, 0) == BoxesOf(top, 0) + BoxesOf(rest, 0)
  {
    NodesShown(top, 0);
    ShownBoth(top, rest, 0);
  }

  lemma GraphShows(items: seq<Item>, imports: seq<Import>, critical: set<string>, outdated: set<string>, idOf: map<string, string>)
    requires Wired(items) && IsEdgeGraph(items, imports, critical, outdated, idOf)
    ensures ShowsGraph(Read(Print(items)), imports, critical, outdated, idOf)
  {
    var packages, edges := KeptPackages(imports), HeavyImports(imports);
    var nodes := GraphNodesShow(BusyModules(imports), packages, critical, outdated, idOf);
    PrintedShows(items);
    ImportArrows(edges, packages, idOf);
    PlainShown(DirectionRight, nodes, ImportEdges(edges, packages, idOf));
  }

  lemma GraphKeysIn(modules: seq<string>, packages: seq<string>, idOf: map<string, string>)
    requires forall k | k in GraphKeys(modules, packages) :: k in idOf
    ensures forall k | k in Prefixed("mod:", modules) :: k in idOf
    ensures forall k | k in Prefixed("pkg:", packages) :: k in idOf
  {
    assert forall k | k in Prefixed("mod:", modules) :: k in GraphKeys(modules, packages);
    assert forall k | k in Prefixed("pkg:", packages) :: k in GraphKeys(modules, packages);
  }

  method PickModules(imports: seq<Import>) returns (modules: seq<string>)
    ensures modules == BusyModules(imports)
  {
    var totals := CountByModule(imports);
    SameSort(totals.keys, TotalKey(totals), ByTotal(imports));
    modules := Take(SortBy(totals.keys, TotalKey(totals)), MAX_DEP_MODULES);
  }

  /** At most 18 nodes, each declared once, and 18 edges, each from a drawn module to a drawn
      package; and no package floats. */
  method DependencyEdgeGraph(imports: seq<Import>, critical: set<string>, outdated: set<string>)
    returns (items: seq<Item>, ghost idOf: map<string, string>)
    ensures Wired(items) && NoRepeats(Declarations(items))
    ensures |Declarations(items)| <= MAX_DEP_MODULES + MAX_DEP_PACKAGES
    ensures IsEdgeGraph(items, imports, critical, outdated, idOf)
    ensures ShowsGraph(Read(Print(items)), imports, critical, outdated, idOf)
    ensures forall p | p in KeptPackages(imports) ::
              exists e | e in HeavyImports(imports) ::
                e.package == p && e.owner in BusyModules(imports) && ImportEdge(e, idOf) in items
  {
    var modules := PickModules(imports);
    var edges := Take(SortBy(OwnedBy(imports, modules), ByCount()), MAX_DEP_EDGES);
    var packages := Take(AddAll([], Packages(edges)), MAX_DEP_PACKAGES);
    BusyOnce(imports);
    HeavyFromBusy(imports);
    KeptOnce(imports);
    var ids := new IdAllocator("d");
    var nodes := DeclareGraph(ids, modules, packages, PackageLooks(packages, critical, outdated));
    idOf := ids.byLabel;
    EndsAre(nodes, modules, packages, idOf);
    items := ConnectImports(ids, nodes, edges, modules, packages);
    GraphKeysOnce(modules, packages);
    ImagesOnce(GraphKeys(modules, packages), idOf);
    NoneFloats(nodes, edges, modules, packages, idOf);
    GraphShows(items, imports, critical, outdated, idOf);
  }

  /** Every package drawn is imported by a drawn module, and that import is drawn. */
  lemma NoneFloats(nodes: seq<Item>, edges: seq<Import>, modules: seq<string>, packages: seq<string>, idOf: map<string, string>)
    requires forall e | e in edges :: e.owner in modules
    requires forall p | p in packages :: p in AddAll([], Packages(edges))
    ensures forall p | p in packages ::
              exists e | e in edges :: e.package == p && e.owner in modules
                                       && ImportEdge(e, idOf) in nodes + ImportEdges(edges, packages, idOf)
  {
    forall p | p in packages
      ensures exists e | e in edges :: e.package == p && e.owner in modules
                                       && ImportEdge(e, idOf) in nodes + ImportEdges(edges, packages, idOf)
    {
      KeptImported(edges, p);
      var e :| e in edges && e.package == p;
      assert ImportEdge(e, idOf) in ImportEdges(edges, packages, idOf);
    }
  }

  // ─── When a module floats ───────────────────────────────────────────────────

  /** An edge of the diagram starts at this module. */
  ghost predicate HasEdge(items: seq<Item>, idOf: map<string, string>, m: string)
    requires "mod:" + m in idOf
  {
    exists item | item in items :: item.Edge? && item.from == idOf["mod:" + m]
  }

  /** One of the module's imports made it under both caps: it is among the first 18 by count,
      and its package among those drawn. */
  ghost predicate Kept(imports: seq<Import>, m: string) {
    exists e | e in HeavyImports(imports) :: e.owner == m && e.package in KeptPackages(imports)
  }

  lemma DrawnKeys(imports: seq<Import>, m: string)
    requires m in BusyModules(imports)
    ensures "mod:" + m in GraphKeys(BusyModules(imports), KeptPackages(imports))
  {
    PrefixedIn("mod:", BusyModules(imports), m);
  }

  lemma SameModule(idOf: map<string, string>, m: string, n: string)
    requires Injective(idOf) && "mod:" + m in idOf && "mod:" + n in idOf && idOf["mod:" + m] == idOf["mod:" + n]
    ensures m == n
  {
    assert ("mod:" + m)[4..] == m && ("mod:" + n)[4..] == n;
  }

  lemma NodesAreNoEdges(modules: seq<string>, packages: seq<string>, looks: seq<Look>, idOf: map<string, string>, item: Item)
    requires |looks| == |packages| && forall k | k in GraphKeys(modules, packages) :: k in idOf
    requires item in GraphNodes(modules, packages, looks, idOf)
    ensures !item.Edge?
  {
  }

  lemma EdgeIsKept(edges: seq<Import>, packages: seq<string>, modules: seq<string>, idOf: map<string, string>, m: string, item: Item)
    requires Injective(idOf) && "mod:" + m in idOf && (forall n | n in modules :: "mod:" + n in idOf)
    requires forall e | e in edges :: e.owner in modules
    requires item in ImportEdges(edges, packages, idOf) && item.Edge? && item.from == idOf["mod:" + m]
    ensures exists e | e in edges :: e.owner == m && e.package in packages
  {
    var e :| e in edges && e.package in packages && item == ImportEdge(e, idOf);
    SameModule(idOf, m, e.owner);
  }

  lemma KeptIsEdge(edges: seq<Import>, packages: seq<string>, idOf: map<string, string>, m: string, e: Import)
    requires "mod:" + m in idOf && e in edges && e.owner == m && e.package in packages
    ensures exists item | item in ImportEdges(edges, packages, idOf) :: item.Edge? && item.from == idOf["mod:" + m]
  {
    assert ImportEdge(e, idOf) in ImportEdges(edges, packages, idOf);
  }

  /** A drawn module has an edge exactly when one of its imports made it under both caps. */
  lemma ModuleHasEdge(items: seq<Item>, imports: seq<Import>, critical: set<string>, outdated: set<string>, idOf: map<string, string>,
                      m: string)
    requires IsEdgeGraph(items, imports, critical, outdated, idOf) && m in BusyModules(imports)
    ensures "mod:" + m in idOf
    ensures HasEdge(items, idOf, m) <==> Kept(imports, m)
  {
    var modules, edges, packages := BusyModules(imports), HeavyImports(imports), KeptPackages(imports);
    var looks := PackageLooks(packages, critical, outdated);
    forall n | n in modules ensures "mod:" + n in idOf { DrawnKeys(imports, n); }
    if HasEdge(items, idOf, m) {
      var item :| item in items && item.Edge? && item.from == idOf["mod:" + m];
      if item in GraphNodes(modules, packages, looks, idOf) { NodesAreNoEdges(modules, packages, looks, idOf, item); }
      EdgeIsKept(edges, packages, modules, idOf, m, item);
    }
    if Kept(imports, m) {
      var e :| e in edges && e.owner == m && e.package in packages;
      KeptIsEdge(edges, packages, idOf, m, e);
    }
  }

  /** What a caller can see beforehand: at most 18 imports of at most 12 packages. */
  predicate FitsCaps(imports: seq<Import>) {
    |imports| <= MAX_DEP_EDGES && |AddAll([], Packages(imports))| <= MAX_DEP_PACKAGES
  }

  /** Then every drawn module has an edge. */
  lemma NoModuleFloats(imports: seq<Import>, m: string)
    requires FitsCaps(imports) && m in BusyModules(imports)
    ensures Kept(imports, m)
  {
    AllHeavy(imports);
    var e := BusyImports(imports, m);
    FewPackages(imports, HeavyImports(imports));
    PackageIn(HeavyImports(imports), e);
  }

  /** Under the cap no import of a drawn module is dropped. */
  lemma AllHeavy(imports: seq<Import>)
    requires |imports| <= MAX_DEP_EDGES
    ensures forall e | e in imports && e.owner in BusyModules(imports) :: e in HeavyImports(imports)
    ensures forall e | e in HeavyImports(imports) :: e in imports
  {
    var owned := OwnedBy(imports, BusyModules(imports));
    FilterNoMore(imports, OwnerIn(BusyModules(imports)));
    SortBySameElements(owned, ByCount());
    SortByCorrect(owned, ByCount());
  }

  lemma BusyImports(imports: seq<Import>, m: string) returns (e: Import)
    requires m in BusyModules(imports)
    ensures e in imports && e.owner == m
  {
    SortOnce(AddAll([], Owners(imports)), ByTotal(imports));
    assert m in SortBy(AddAll([], Owners(imports)), ByTotal(imports));
    assert m in Owners(imports);
    var i :| 0 <= i < |Owners(imports)| && Owners(imports)[i] == m;
    e := imports[i];
  }

  lemma PackageIn(imports: seq<Import>, e: Import)
    requires e in imports
    ensures e.package in AddAll([], Packages(imports))
  {
    var i :| 0 <= i < |imports| && imports[i] == e;
    assert Packages(imports)[i] == e.package;
  }

  /** Fewer imports reach no more packages. */
  lemma FewPackages(imports: seq<Import>, some: seq<Import>)
    requires forall e | e in some :: e in imports
    ensures |AddAll([], Packages(some))| <= |AddAll([], Packages(imports))|
  {
    var few, all := AddAll([], Packages(some)), AddAll([], Packages(imports));
    DistinctCount(few);
    DistinctCount(all);
    forall p | p in few ensures p in all {
      var i :| 0 <= i < |some| && Packages(some)[i] == p;
      assert some[i] in some;
      PackageIn(imports, some[i]);
    }
    SubsetSize(set p | p in few, set p | p in all);
  }

  /** One module with eighteen imports of weight two, and another with one of weight one. */
  function Lopsided(): (r: seq<Import>)
    ensures |r| == 19 && r[18] == Import("b", "q", 1)
    ensures forall i | 0 <= i < 18 :: r[i] == Import("a", "p" + ToDecimal(i), 2)
  {
    seq(18, i requires 0 <= i < 18 => Import("a", "p" + ToDecimal(i), 2)) + [Import("b", "q", 1)]
  }

  /** The edge cap cuts a drawn module's only import: packages never float, but in every drawing
      of these imports one of the two modules does. */
  lemma ModulesCanFloat(items: seq<Item>, critical: set<string>, outdated: set<string>, idOf: map<string, string>)
    requires IsEdgeGraph(items, Lopsided(), critical, outdated, idOf)
    ensures "b" in BusyModules(Lopsided()) && "mod:" + "b" in idOf && !HasEdge(items, idOf, "b")
  {
    BIsCut();
    ModuleHasEdge(items, Lopsided(), critical, outdated, idOf, "b");
  }

  lemma BIsCut()
    ensures "b" in BusyModules(Lopsided())
    ensures forall e | e in HeavyImports(Lopsided()) :: e.owner != "b"
  {
    LopsidedIs();
    LastIsCut(Lopsided(), "a", "b");
  }

  /** Of sorted imports of two modules the last is cut, when the first module has eighteen. */
  lemma LastIsCut(imports: seq<Import>, a: string, b: string)
    requires |imports| == MAX_DEP_EDGES + 1 && SortedBy(imports, ByCount()) && a != b && imports[MAX_DEP_EDGES].owner == b
    requires forall i | 0 <= i < MAX_DEP_EDGES :: imports[i].owner == a
    ensures b in BusyModules(imports) && forall e | e in HeavyImports(imports) :: e.owner != b
  {
    AllBusy(imports, a, b);
    assert imports[MAX_DEP_EDGES] in imports;
    Capped(imports);
    OnlyFrom(Take(imports, MAX_DEP_EDGES), a);
  }

  lemma LopsidedIs()
    ensures SortedBy(Lopsided(), ByCount())
    ensures Lopsided()[18].owner == "b" && forall i | 0 <= i < 18 :: Lopsided()[i].owner == "a"
  {
  }

  lemma OnlyFrom(imports: seq<Import>, owner: string)
    requires forall i | 0 <= i < |imports| :: imports[i].owner == owner
    ensures forall e | e in imports :: e.owner == owner
  {
  }

  /** Sorted imports of drawn modules are cut where they stand. */
  lemma Capped(imports: seq<Import>)
    requires (forall e | e in imports :: e.owner in BusyModules(imports)) && SortedBy(imports, ByCount())
    ensures HeavyImports(imports) == Take(imports, MAX_DEP_EDGES)
  {
    FilterAll(imports, OwnerIn(BusyModules(imports)));
    AlreadySorted(imports, ByCount());
  }

  /** Two modules are both drawn. */
  lemma AllBusy(imports: seq<Import>, a: string, b: string)
    requires forall e | e in imports :: e.owner == a || e.owner == b
    ensures forall e | e in imports :: e.owner in BusyModules(imports)
  {
    var owners := AddAll([], Owners(imports));
    SortOnce(owners, ByTotal(imports));
    SortByCorrect(owners, ByTotal(imports));
    forall o | o in owners ensures o == a || o == b {
      var i :| 0 <= i < |imports| && Owners(imports)[i] == o;
      assert imports[i] in imports;
    }
    AtMostTwo(owners, a, b);
    forall e | e in imports ensures e.owner in BusyModules(imports) {
      var i :| 0 <= i < |imports| && imports[i] == e;
      assert Owners(imports)[i] == e.owner;
    }
  }

  lemma AtMostTwo(s: seq<string>, a: string, b: string)
    requires NoRepeats(s) && forall x | x in s :: x == a || x == b
    ensures |s| <= 2
  {
    DistinctCount(s);
    SubsetSize(set x | x in s, {a, b});
  }

  /** The graph when imports were measured, else the grid, else a placeholder. */
  method DependencyGraph(imports: seq<Import>, runtime: seq<string>, critical: set<string>, outdated: set<string>)
    returns (items: seq<Item>, ghost idOf: map<string, string>)
    ensures Wired(items)
    ensures if imports != [] then IsEdgeGraph(items, imports, critical, outdated, idOf)
            else if runtime == [] then items == Placeholder("Dependency info not available")
            else IsGrid(items, runtime, critical, outdated, idOf)
    ensures NoRepeats(Declarations(items)) <==> imports != [] || NoRepeats(Take(runtime, MAX_DEPS))
  {
    idOf := map[];
    if imports != [] {
      items, idOf := DependencyEdgeGraph(imports, critical, outdated);
    } else if runtime == [] {
      items := Placeholder("Dependency info not available");
    } else {
      items, idOf := DependencyGrid(runtime, critical, outdated);
    }
  }

  // ─── The path through the system ────────────────────────────────────────────

  function ByLength(): seq<CallStep> -> int { (steps: seq<CallStep>) => 0 - |steps| }

  /** The longest measured chain, cut to the steps that fit; none when there is no chain of two. */
  function Spine(chains: seq<seq<CallStep>>): seq<CallStep> {
    var sorted := SortBy(chains, ByLength());
    if sorted == [] || |sorted[0]| < 2 then [] else Take(sorted[0], MAX_FLOW_STEPS)
  }

  function FlowKey(step: CallStep, i: nat): string { ModuleOf(step.file) + "/" + step.symbol + "#" + ToDecimal(i) }

  function FlowKeys(steps: seq<CallStep>): (r: seq<string>)
    ensures |r| == |steps| && forall i | 0 <= i < |steps| :: r[i] == FlowKey(steps[i], i)
  {
    seq(|steps|, i requires 0 <= i < |steps| => FlowKey(steps[i], i))
  }

  /** The position at the end of a key keeps the steps apart, whatever the symbols. */
  lemma FlowKeysOnce(steps: seq<CallStep>)
    ensures NoRepeats(FlowKeys(steps))
  {
    forall i, j | 0 <= i < j < |steps| ensures FlowKey(steps[i], i) != FlowKey(steps[j], j) {
      if FlowKey(steps[i], i) == FlowKey(steps[j], j) {
        FlowKeyPosition(steps[i], i, steps[j], j);
        assert false;
      }
    }
  }

  lemma FlowKeyPosition(a: CallStep, i: nat, b: CallStep, j: nat)
    requires FlowKey(a, i) == FlowKey(b, j)
    ensures i == j
  {
    var x, y := ModuleOf(a.file) + "/" + a.symbol, ModuleOf(b.file) + "/" + b.symbol;
    assert FlowKey(a, i) == x + ['#'] + ToDecimal(i) && FlowKey(b, j) == y + ['#'] + ToDecimal(j);
    assert !IsDigit('#');
    RunKeys.NotADigit(ToDecimal(i), '#');
    RunKeys.NotADigit(ToDecimal(j), '#');
    RunKeys.SplitAtLast(x, ToDecimal(i), y, ToDecimal(j), '#');
    ToDecimalInjective(i, j);
  }

  function FlowLook(step: CallStep, i: nat): Look {
    Look(ModuleOf(step.file) + " \U{203A} " + step.symbol, if i == 0 then Some(Entry) else None)
  }

  function FlowLooks(steps: seq<CallStep>): (r: seq<Look>)
    ensures |r| == |steps| && forall i | 0 <= i < |steps| :: r[i] == FlowLook(steps[i], i)
  {
    seq(|steps|, i requires 0 <= i < |steps| => FlowLook(steps[i], i))
  }

  /** The heaviest imports of the modules the path touches. */
  function Reached(steps: seq<CallStep>, imports: seq<Import>): seq<Import> {
    Take(SortBy(OwnedBy(imports, Touched(steps)), ByCount()), MAX_FLOW_DEPS)
  }

  function Touched(steps: seq<CallStep>): (r: seq<string>)
    ensures |r| == |steps| && forall i | 0 <= i < |steps| :: r[i] == ModuleOf(steps[i].file)
  {
    seq(|steps|, i requires 0 <= i < |steps| => ModuleOf(steps[i].file))
  }

  /** The first n steps: each captioned node, and the numbered arrow from the one before. */
  function PathDrawn(keys: seq<string>, looks: seq<Look>, n: nat, idOf: map<string, string>): seq<Item>
    requires n <= |keys| == |looks|
  {
    if n == 0 then [Fixed(DirectionRight)]
    else PathDrawn(keys, looks, n - 1, idOf)
         + PathItems(if n == 1 then "" else IdOf(idOf, keys[n - 2]), IdOf(idOf, keys[n - 1]), looks[n - 1], n - 1)
  }

  function PathItems(before: string, id: string, look: Look, n: nat): seq<Item> {
    [NodeOf(look, false, id)] + (if n > 0 then [Edge(before, id, ToDecimal(n))] else [])
  }

  /** The first n packages: each muted node, and its edge from the end of the path. */
  function UsesDrawn(lastKey: string, packages: seq<string>, n: nat, idOf: map<string, string>): seq<Item>
    requires n <= |packages|
  {
    if n == 0 then []
    else UsesDrawn(lastKey, packages, n - 1, idOf) + UseItems(IdOf(idOf, lastKey), packages[n - 1], IdOf(idOf, "pkg:" + packages[n - 1]))
  }

  function UseItems(last: string, package: string, id: string): seq<Item> {
    [Node(false, id, package, Some(Muted)), Edge(last, id, "uses")]
  }

  lemma {:induction false} SamePath(keys: seq<string>, looks: seq<Look>, n: nat, idOf: map<string, string>, later: map<string, string>)
    requires n <= |keys| == |looks| && Extends(later, idOf) && forall k | 0 <= k < n :: keys[k] in idOf
    ensures PathDrawn(keys, looks, n, later) == PathDrawn(keys, looks, n, idOf)
  {
    if n > 0 { SamePath(keys, looks, n - 1, idOf, later); }
  }

  lemma {:induction false} SameUses(lastKey: string, packages: seq<string>, n: nat, idOf: map<string, string>, later: map<string, string>)
    requires n <= |packages| && Extends(later, idOf) && lastKey in idOf && forall k | 0 <= k < n :: "pkg:" + packages[k] in idOf
    ensures UsesDrawn(lastKey, packages, n, later) == UsesDrawn(lastKey, packages, n, idOf)
  {
    if n > 0 { SameUses(lastKey, packages, n - 1, idOf, later); }
  }

  /** Keys are declared, and consecutive ones joined in order. */
  ghost predicate Path(items: seq<Item>, keys: seq<string>, looks: seq<Look>, n: nat, idOf: map<string, string>)
    requires n <= |keys| == |looks|
  {
    && Wired(items) && Named(items, keys[..n], idOf)
    && (forall k | 0 <= k < n :: keys[k] in idOf)
    && items == PathDrawn(keys, looks, n, idOf)
  }

  lemma PathStep(items: seq<Item>, keys: seq<string>, looks: seq<Look>, n: nat, idOf: map<string, string>, id: string, before: string)
    requires n < |keys| == |looks| && NoRepeats(keys) && Path(items, keys, looks, n, idOf) && IsIdent(id)
    requires keys[n] !in idOf && (if n > 0 then before == idOf[keys[n - 1]] && IsIdent(before) else before == "")
    ensures Path(items + PathItems(before, id, looks[n], n), keys, looks, n + 1, idOf[keys[n] := id])
  {
    var next := idOf[keys[n] := id];
    var node := NodeOf(looks[n], false, id);
    assert keys[..n + 1] == keys[..n] + [keys[n]];
    SamePath(keys, looks, n, idOf, next);
    Declare(items, keys[..n], idOf, keys[n], node);
    if n > 0 {
      JoinPath(items + [node], keys, n, next, id, before);
      Regroup(items, [node], [Edge(before, id, ToDecimal(n))]);
    } else {
      assert PathItems(before, id, looks[n], n) == [node];
    }
  }

  lemma JoinPath(items: seq<Item>, keys: seq<string>, n: nat, idOf: map<string, string>, id: string, before: string)
    requires 0 < n < |keys| && Wired(items) && Named(items, keys[..n + 1], idOf)
    requires keys[n - 1] in idOf && before == idOf[keys[n - 1]] && keys[n] in idOf && id == idOf[keys[n]]
    requires IsIdent(before) && IsIdent(id)
    ensures var arrow := Edge(before, id, ToDecimal(n));
            Wired(items + [arrow]) && Named(items + [arrow], keys[..n + 1], idOf)
  {
    assert keys[..n + 1][n - 1] == keys[n - 1] && keys[..n + 1][n] == keys[n];
    Connect(items, keys[..n + 1], idOf, keys[n - 1], keys[n], Edge(before, id, ToDecimal(n)));
  }

  method DrawStep(ids: IdAllocator, ghost items: seq<Item>, keys: seq<string>, looks: seq<Look>, i: nat, last: string)
    returns (more: seq<Item>, id: string)
    requires ids.Valid() && NoRepeats(keys) && i < |keys| == |looks| && Path(items, keys, looks, i, ids.byLabel)
    requires forall k | k in ids.byLabel :: k in keys[..i]
    requires if i > 0 then last == ids.byLabel[keys[i - 1]] && IsIdent(last) else last == ""
    modifies ids
    ensures ids.Valid() && Path(items + more, keys, looks, i + 1, ids.byLabel)
    ensures forall k | k in ids.byLabel :: k in keys[..i + 1]
    ensures id == ids.byLabel[keys[i]] && IsIdent(id)
  {
    ghost var before := ids.byLabel;
    assert keys[i] !in keys[..i];
    id := ids.Get(keys[i]);
    PathStep(items, keys, looks, i, before, id, last);
    more := PathItems(last, id, looks[i], i);
  }

  method DrawPath(ids: IdAllocator, keys: seq<string>, looks: seq<Look>) returns (items: seq<Item>)
    requires ids.Valid() && ids.byLabel == map[] && NoRepeats(keys) && |looks| == |keys|
    modifies ids
    ensures ids.Valid() && Path(items, keys, looks, |keys|, ids.byLabel)
    ensures forall k | k in ids.byLabel :: k in keys
  {
    items := [Fixed(DirectionRight)];
    Start(DirectionRight);
    var last := "";
    for i := 0 to |keys|
      invariant ids.Valid() && Path(items, keys, looks, i, ids.byLabel)
      invariant forall k | k in ids.byLabel :: k in keys[..i]
      invariant if i > 0 then last == ids.byLabel[keys[i - 1]] && IsIdent(last) else last == ""
    {
      var more, id := DrawStep(ids, items, keys, looks, i, last);
      items := items + more;
      last := id;
    }
  }

  /** Each package, and its edge from the end of the path. */
  ghost predicate Uses(items: seq<Item>, path: seq<Item>, keys: seq<string>, packages: seq<string>, n: nat, idOf: map<string, string>)
    requires n <= |packages| && keys != []
  {
    && Wired(items) && Named(items, keys + Prefixed("pkg:", packages[..n]), idOf)
    && keys[|keys| - 1] in idOf && (forall k | 0 <= k < n :: "pkg:" + packages[k] in idOf)
    && items == path + UsesDrawn(keys[|keys| - 1], packages, n, idOf)
  }

  lemma UsesStep(items: seq<Item>, path: seq<Item>, keys: seq<string>, packages: seq<string>, n: nat, idOf: map<string, string>,
                 id: string, last: string)
    requires n < |packages| && keys != [] && Uses(items, path, keys, packages, n, idOf) && IsIdent(id) && IsIdent(last)
    requires last == idOf[keys[|keys| - 1]] && ("pkg:" + packages[n] in idOf ==> idOf["pkg:" + packages[n]] == id)
    ensures Uses(items + UseItems(last, packages[n], id), path, keys, packages, n + 1, idOf["pkg:" + packages[n] := id])
  {
    var key, lastKey := "pkg:" + packages[n], keys[|keys| - 1];
    var next := idOf[key := id];
    var node, edge := Node(false, id, packages[n], Some(Muted)), Edge(last, id, "uses");
    var all := keys + Prefixed("pkg:", packages[..n]);
    SameUses(lastKey, packages, n, idOf, next);
    Declare(items, all, idOf, key, node);
    assert Prefixed("pkg:", packages[..n + 1]) == Prefixed("pkg:", packages[..n]) + [key];
    assert keys + Prefixed("pkg:", packages[..n + 1]) == all + [key];
    assert all[|keys| - 1] == lastKey;
    Connect(items + [node], all + [key], next, lastKey, key, edge);
    assert items + UseItems(last, packages[n], id) == items + [node] + [edge];
    Regroup(path, UsesDrawn(lastKey, packages, n, next), UseItems(last, packages[n], id));
  }

  method DrawUse(ids: IdAllocator, ghost items: seq<Item>, ghost path: seq<Item>, keys: seq<string>, packages: seq<string>, i: nat)
    returns (more: seq<Item>)
    requires ids.Valid() && keys != [] && i < |packages| && Uses(items, path, keys, packages, i, ids.byLabel)
    modifies ids
    ensures ids.Valid() && Uses(items + more, path, keys, packages, i + 1, ids.byLabel)
    ensures Extends(ids.byLabel, old(ids.byLabel))
  {
    ghost var before := ids.byLabel;
    var id := ids.Get("pkg:" + packages[i]);
    var last := ids.Get(keys[|keys| - 1]);
    UsesStep(items, path, keys, packages, i, before, id, last);
    more := UseItems(last, packages[i], id);
  }

  lemma NoUses(path: seq<Item>, keys: seq<string>, looks: seq<Look>, packages: seq<string>, idOf: map<string, string>)
    requires keys != [] && |keys| == |looks| && Path(path, keys, looks, |keys|, idOf)
    ensures Uses(path, path, keys, packages, 0, idOf)
  {
    assert keys[..|keys|] == keys && keys + Prefixed("pkg:", packages[..0]) == keys;
    assert path + [] == path;
  }

  method DrawUses(ids: IdAllocator, path: seq<Item>, keys: seq<string>, ghost looks: seq<Look>, packages: seq<string>)
    returns (items: seq<Item>)
    requires ids.Valid() && keys != [] && |keys| == |looks| && Path(path, keys, looks, |keys|, ids.byLabel)
    modifies ids
    ensures ids.Valid() && Uses(items, path, keys, packages, |packages|, ids.byLabel)
    ensures Extends(ids.byLabel, old(ids.byLabel))
  {
    items := path;
    NoUses(path, keys, looks, packages, ids.byLabel);
    for i := 0 to |packages|
      invariant ids.Valid() && Uses(items, path, keys, packages, i, ids.byLabel)
      invariant Extends(ids.byLabel, old(ids.byLabel))
    {
      var more := DrawUse(ids, items, path, keys, packages, i);
      items := items + more;
    }
  }

  /** The whole flow: every hop of the path, captioned and numbered, in order, then every
      package reached, hanging off its end; nothing else. */
  ghost predicate IsSystemFlow(items: seq<Item>, keys: seq<string>, looks: seq<Look>, packages: seq<string>, idOf: map<string, string>)
    requires keys != [] && |keys| == |looks|
  {
    && Named(items, keys + Prefixed("pkg:", packages), idOf)
    && items == PathDrawn(keys, looks, |keys|, idOf) + UsesDrawn(keys[|keys| - 1], packages, |packages|, idOf)
  }

  lemma FlowDrawn(items: seq<Item>, path: seq<Item>, keys: seq<string>, looks: seq<Look>, packages: seq<string>,
                  earlier: map<string, string>, idOf: map<string, string>)
    requires keys != [] && |keys| == |looks| && Path(path, keys, looks, |keys|, earlier) && Extends(idOf, earlier)
    requires Uses(items, path, keys, packages, |packages|, idOf)
    ensures IsSystemFlow(items, keys, looks, packages, idOf)
  {
    assert packages[..|packages|] == packages;
    SamePath(keys, looks, |keys|, earlier, idOf);
  }

  /** No package is reached twice, and none is named so that its key is a step's. */
  ghost predicate FlowNamesApart(steps: seq<CallStep>, packages: seq<string>) {
    NoRepeats(packages) && forall i, p | 0 <= i < |steps| && p in packages :: FlowKey(steps[i], i) != "pkg:" + p
  }

  lemma FlowRepeats(steps: seq<CallStep>, packages: seq<string>)
    ensures NoRepeats(FlowKeys(steps) + Prefixed("pkg:", packages)) <==> FlowNamesApart(steps, packages)
  {
    var keys, uses := FlowKeys(steps), Prefixed("pkg:", packages);
    FlowKeysOnce(steps);
    PrefixedOnce("pkg:", packages);
    RepeatsOfBoth(keys, uses);
    if FlowNamesApart(steps, packages) {
      forall i, j | 0 <= i < |keys| && 0 <= j < |uses| ensures keys[i] != uses[j] {
        assert packages[j] in packages;
      }
    } else if NoRepeats(packages) {
      var i, p :| 0 <= i < |steps| && p in packages && FlowKey(steps[i], i) == "pkg:" + p;
      var j :| 0 <= j < |packages| && packages[j] == p;
      assert keys[i] == uses[j];
    }
  }

  lemma PrefixedOnce(prefix: string, names: seq<string>)
    ensures NoRepeats(Prefixed(prefix, names)) <==> NoRepeats(names)
  {
    forall i, j | 0 <= i < j < |names| ensures names[i] == names[j] <==> Prefixed(prefix, names)[i] == Prefixed(prefix, names)[j] {
      if prefix + names[i] == prefix + names[j] { RunKeys.SamePrefix(prefix, names[i], names[j]); }
    }
  }

  /** A list repeats when either part does or the parts share an element. */
  lemma RepeatsOfBoth(a: seq<string>, b: seq<string>)
    requires NoRepeats(a)
    ensures NoRepeats(a + b) <==> NoRepeats(b) && forall i, j | 0 <= i < |a| && 0 <= j < |b| :: a[i] != b[j]
  {
    if NoRepeats(a + b) {
      forall i, j | 0 <= i < j < |b| ensures b[i] != b[j] {
        assert (a + b)[|a| + i] == b[i] && (a + b)[|a| + j] == b[j];
      }
      forall i, j | 0 <= i < |a| && 0 <= j < |b| ensures a[i] != b[j] {
        assert (a + b)[i] == a[i] && (a + b)[|a| + j] == b[j];
      }
    }
  }

  // What the path is, and what the printed flow shows.

  /** The first of the longest chains, cut to six steps, if it has at least two. */
  lemma SpineIs(chains: seq<seq<CallStep>>)
    ensures
      if exists c | c in chains :: |c| >= 2
      then exists k | 0 <= k < |chains| ::
             && Spine(chains) == Take(chains[k], 6) && |chains[k]| >= 2
             && (forall c | c in chains :: |c| <= |chains[k]|)
      else Spine(chains) == []
  {
    if chains != [] {
      var sorted := SortBy(chains, ByLength());
      SortByCorrect(chains, ByLength());
      SortBySameElements(chains, ByLength());
      assert sorted[0] in chains;
      var k :| 0 <= k < |chains| && chains[k] == sorted[0];
      forall c | c in chains ensures |c| <= |sorted[0]| {
        assert c in sorted;
        var j :| 0 <= j < |sorted| && sorted[j] == c;
        assert ByLength()(sorted[0]) <= ByLength()(sorted[j]);
      }
    }
  }

  /** At most three imports of modules on the path, none lighter than one left out. */
  lemma ReachedAre(steps: seq<CallStep>, imports: seq<Import>)
    ensures
      var reached := Reached(steps, imports);
      && |reached| <= 3
      && (forall e | e in reached :: e in imports && exists i | 0 <= i < |steps| :: e.owner == ModuleOf(steps[i].file))
      && (forall e, i | e in imports && 0 <= i < |steps| && e.owner == ModuleOf(steps[i].file) && e !in reached ::
            forall j | 0 <= j < |reached| :: reached[j].count >= e.count)
  {
    HeaviestKept(imports, Touched(steps), MAX_FLOW_DEPS);
    forall e | e in Reached(steps, imports) ensures exists i | 0 <= i < |steps| :: e.owner == ModuleOf(steps[i].file) {
      var i :| 0 <= i < |steps| && Touched(steps)[i] == e.owner;
    }
    forall i | 0 <= i < |steps| ensures ModuleOf(steps[i].file) in Touched(steps) {
      assert Touched(steps)[i] == ModuleOf(steps[i].file);
    }
  }

  function HopBox(keys: seq<string>, looks: seq<Look>, i: nat, idOf: map<string, string>): Box
    requires i < |keys| == |looks|
  {
    Box(0, IdOf(idOf, keys[i]), Label(looks[i].caption), FillOf(looks[i].tone))
  }

  function HopBoxes(keys: seq<string>, looks: seq<Look>, n: nat, idOf: map<string, string>): (r: seq<Box>)
    requires n <= |keys| == |looks|
    ensures |r| == n && forall i | 0 <= i < n :: r[i] == HopBox(keys, looks, i, idOf)
  {
    seq(n, i requires 0 <= i < n => HopBox(keys, looks, i, idOf))
  }

  function HopArrow(keys: seq<string>, i: nat, idOf: map<string, string>): Statement
    requires i + 1 < |keys|
  {
    Arrow(IdOf(idOf, keys[i]), IdOf(idOf, keys[i + 1]), Label(ToDecimal(i + 1)), false)
  }

  /** The arrows between the first n keys. */
  function HopArrows(keys: seq<string>, n: nat, idOf: map<string, string>): (r: seq<Statement>)
    requires n <= |keys|
    ensures |r| == (if n == 0 then 0 else n - 1) && forall i | 0 <= i < |r| :: r[i] == HopArrow(keys, i, idOf)
  {
    if n == 0 then [] else seq(n - 1, i requires 0 <= i < n - 1 => HopArrow(keys, i, idOf))
  }

  lemma HopBoxesGrow(keys: seq<string>, looks: seq<Look>, n: nat, idOf: map<string, string>)
    requires 0 < n <= |keys| == |looks|
    ensures HopBoxes(keys, looks, n, idOf) == HopBoxes(keys, looks, n - 1, idOf) + [HopBox(keys, looks, n - 1, idOf)]
  {
    Grown(HopBoxes(keys, looks, n - 1, idOf), HopBoxes(keys, looks, n, idOf), HopBox(keys, looks, n - 1, idOf));
  }

  lemma HopArrowsGrow(keys: seq<string>, n: nat, idOf: map<string, string>)
    requires 1 < n <= |keys|
    ensures HopArrows(keys, n, idOf) == HopArrows(keys, n - 1, idOf) + [HopArrow(keys, n - 2, idOf)]
  {
    Grown(HopArrows(keys, n - 1, idOf), HopArrows(keys, n, idOf), HopArrow(keys, n - 2, idOf));
  }

  lemma HopShows(before: string, id: string, look: Look, n: nat)
    ensures
      var items := PathItems(before, id, look, n);
      && DepthAfterAll(items, 0) == 0 && BoxesOf(items, 0) == [Box(0, id, Label(look.caption), FillOf(look.tone))]
      && ArrowsOf(items) == if n > 0 then [Arrow(before, id, Label(ToDecimal(n)), false)] else []
  {
    var node, edge := NodeOf(look, false, id), Edge(before, id, ToDecimal(n));
    OneShown(node, 0);
    OneShown(edge, 0);
    ShownBoth([node], [edge], 0);
    NotEmpty(n);
    if n == 0 { assert PathItems(before, id, look, n) == [node]; }
  }

  /** The items show the first n hops. */
  ghost predicate ShowHops(items: seq<Item>, keys: seq<string>, looks: seq<Look>, n: nat, idOf: map<string, string>)
    requires n <= |keys| == |looks|
  {
    && DepthAfterAll(items, 0) == 0 && BoxesOf(items, 0) == HopBoxes(keys, looks, n, idOf)
    && ArrowsOf(items) == HopArrows(keys, n, idOf)
  }

  lemma HopNext(path: seq<Item>, keys: seq<string>, looks: seq<Look>, n: nat, idOf: map<string, string>, before: string)
    requires n < |keys| == |looks| && ShowHops(path, keys, looks, n, idOf) && (n > 0 ==> before == IdOf(idOf, keys[n - 1]))
    ensures ShowHops(path + PathItems(before, IdOf(idOf, keys[n]), looks[n], n), keys, looks, n + 1, idOf)
  {
    var items := PathItems(before, IdOf(idOf, keys[n]), looks[n], n);
    HopShows(before, IdOf(idOf, keys[n]), looks[n], n);
    ShownBoth(path, items, 0);
    HopBoxesGrow(keys, looks, n + 1, idOf);
    assert BoxesOf(items, 0) == [HopBox(keys, looks, n, idOf)];
    if n > 0 {
      HopArrowsGrow(keys, n + 1, idOf);
      assert ArrowsOf(items) == [HopArrow(keys, n - 1, idOf)];
    }
  }

  lemma {:induction false} PathShows(keys: seq<string>, looks: seq<Look>, n: nat, idOf: map<string, string>)
    requires n <= |keys| == |looks|
    ensures ShowHops(PathDrawn(keys, looks, n, idOf), keys, looks, n, idOf)
  {
    if n == 0 {
      OneShown(Fixed(DirectionRight), 0);
    } else {
      PathShows(keys, looks, n - 1, idOf);
      HopNext(PathDrawn(keys, looks, n - 1, idOf), keys, looks, n - 1, idOf, if n == 1 then "" else IdOf(idOf, keys[n - 2]));
    }
  }

  function UseBox(package: string, idOf: map<string, string>): Box {
    Box(0, IdOf(idOf, "pkg:" + package), Label(package), FillOf(Some(Muted)))
  }

  function UseArrow(lastKey: string, package: string, idOf: map<string, string>): Statement {
    Arrow(IdOf(idOf, lastKey), IdOf(idOf, "pkg:" + package), Label("uses"), false)
  }

  function UseBoxes(packages: seq<string>, n: nat, idOf: map<string, string>): (r: seq<Box>)
    requires n <= |packages|
    ensures |r| == n && forall j | 0 <= j < n :: r[j] == UseBox(packages[j], idOf)
  {
    seq(n, j requires 0 <= j < n => UseBox(packages[j], idOf))
  }

  function UseArrows(lastKey: string, packages: seq<string>, n: nat, idOf: map<string, string>): (r: seq<Statement>)
    requires n <= |packages|
    ensures |r| == n && forall j | 0 <= j < n :: r[j] == UseArrow(lastKey, packages[j], idOf)
  {
    seq(n, j requires 0 <= j < n => UseArrow(lastKey, packages[j], idOf))
  }

  lemma UseBoxesGrow(packages: seq<string>, n: nat, idOf: map<string, string>)
    requires 0 < n <= |packages|
    ensures UseBoxes(packages, n, idOf) == UseBoxes(packages, n - 1, idOf) + [UseBox(packages[n - 1], idOf)]
  {
    Grown(UseBoxes(packages, n - 1, idOf), UseBoxes(packages, n, idOf), UseBox(packages[n - 1], idOf));
  }

  lemma UseArrowsGrow(lastKey: string, packages: seq<string>, n: nat, idOf: map<string, string>)
    requires 0 < n <= |packages|
    ensures UseArrows(lastKey, packages, n, idOf) == UseArrows(lastKey, packages, n - 1, idOf) + [UseArrow(lastKey, packages[n - 1], idOf)]
  {
    Grown(UseArrows(lastKey, packages, n - 1, idOf), UseArrows(lastKey, packages, n, idOf), UseArrow(lastKey, packages[n - 1], idOf));
  }

  lemma {:induction false} UsesShow(lastKey: string, packages: seq<string>, n: nat, idOf: map<string, string>)
    requires n <= |packages|
    ensures
      var uses := UsesDrawn(lastKey, packages, n, idOf);
      && DepthAfterAll(uses, 0) == 0 && BoxesOf(uses, 0) == UseBoxes(packages, n, idOf)
      && ArrowsOf(uses) == UseArrows(lastKey, packages, n, idOf)
  {
    if n > 0 {
      var last, id := IdOf(idOf, lastKey), IdOf(idOf, "pkg:" + packages[n - 1]);
      UsesShow(lastKey, packages, n - 1, idOf);
      UseShows(last, packages[n - 1], id);
      UseBoxesGrow(packages, n, idOf);
      UseArrowsGrow(lastKey, packages, n, idOf);
      ShownBoth(UsesDrawn(lastKey, packages, n - 1, idOf), UseItems(last, packages[n - 1], id), 0);
    }
  }

  lemma UseShows(last: string, package: string, id: string)
    ensures
      var items := UseItems(last, package, id);
      && DepthAfterAll(items, 0) == 0 && BoxesOf(items, 0) == [Box(0, id, Label(package), FillOf(Some(Muted)))]
      && ArrowsOf(items) == [Arrow(last, id, Label("uses"), false)]
  {
    var node, edge := Node(false, id, package, Some(Muted)), Edge(last, id, "uses");
    OneShown(node, 0);
    OneShown(edge, 0);
    ShownBoth([node], [edge], 0);
    assert [node] + [edge] == UseItems(last, package, id);
  }

  function StepBox(steps: seq<CallStep>, i: nat, idOf: map<string, string>): Box
    requires i < |steps|
  {
    Box(0, IdOf(idOf, FlowKeys(steps)[i]), Label(ModuleOf(steps[i].file) + " \U{203A} " + steps[i].symbol),
        FillOf(if i == 0 then Some(Entry) else None))
  }

  /** Every step of the path as "module › symbol", the first in colour, a numbered arrow from
      each to the next, and every package reached at the end of an arrow from the last. */
  ghost predicate ShowsFlow(text: seq<Statement>, steps: seq<CallStep>, packages: seq<string>, idOf: map<string, string>)
    requires steps != []
  {
    var keys, n := FlowKeys(steps), |steps|;
    var hops := Boxes(text)[..Min(n, |Boxes(text)|)];
    && Boxes(text) == hops + UseBoxes(packages, |packages|, idOf) && |hops| == n
    && (forall i | 0 <= i < n :: hops[i] == StepBox(steps, i, idOf))
    && ArrowsIn(text) == HopArrows(keys, n, idOf) + UseArrows(keys[n - 1], packages, |packages|, idOf)
  }

  /** The path's boxes and arrows, and then those of what it reaches. */
  lemma BothParts(a: seq<Item>, b: seq<Item>)
    requires DepthAfterAll(a, 0) == 0
    ensures BoxesOf(a + b, 0) == BoxesOf(a, 0) + BoxesOf(b, 0) && ArrowsOf(a + b) == ArrowsOf(a) + ArrowsOf(b)
  {
    ShownBoth(a, b, 0);
  }

  lemma FlowItemsShow(path: seq<Item>, uses: seq<Item>, keys: seq<string>, looks: seq<Look>, packages: seq<string>,
                      idOf: map<string, string>)
    requires keys != [] && |keys| == |looks|
    requires path == PathDrawn(keys, looks, |keys|, idOf) && uses == UsesDrawn(keys[|keys| - 1], packages, |packages|, idOf)
    ensures BoxesOf(path + uses, 0) == HopBoxes(keys, looks, |keys|, idOf) + UseBoxes(packages, |packages|, idOf)
    ensures ArrowsOf(path + uses) == HopArrows(keys, |keys|, idOf) + UseArrows(keys[|keys| - 1], packages, |packages|, idOf)
  {
    PathShows(keys, looks, |keys|, idOf);
    UsesShow(keys[|keys| - 1], packages, |packages|, idOf);
    BothParts(path, uses);
  }

  lemma HopBoxIs(steps: seq<CallStep>, i: nat, idOf: map<string, string>)
    requires i < |steps|
    ensures HopBox(FlowKeys(steps), FlowLooks(steps), i, idOf) == StepBox(steps, i, idOf)
  {
    assert FlowLooks(steps)[i] == FlowLook(steps[i], i);
  }

  lemma FlowMeans(text: seq<Statement>, steps: seq<CallStep>, packages: seq<string>, idOf: map<string, string>)
    requires steps != []
    requires Boxes(text) == HopBoxes(FlowKeys(steps), FlowLooks(steps), |steps|, idOf) + UseBoxes(packages, |packages|, idOf)
    requires ArrowsIn(text) == HopArrows(FlowKeys(steps), |steps|, idOf)
                               + UseArrows(FlowKeys(steps)[|steps| - 1], packages, |packages|, idOf)
    ensures ShowsFlow(text, steps, packages, idOf)
  {
    var hops := HopBoxes(FlowKeys(steps), FlowLooks(steps), |steps|, idOf);
    Rejoined(hops, UseBoxes(packages, |packages|, idOf));
    forall i | 0 <= i < |steps| ensures hops[i] == StepBox(steps, i, idOf) {
      HopBoxIs(steps, i, idOf);
    }
  }

  lemma SystemFlowItems(items: seq<Item>, keys: seq<string>, looks: seq<Look>, packages: seq<string>, idOf: map<string, string>)
    requires keys != [] && |keys| == |looks| && IsSystemFlow(items, keys, looks, packages, idOf)
    ensures BoxesOf(items, 0) == HopBoxes(keys, looks, |keys|, idOf) + UseBoxes(packages, |packages|, idOf)
    ensures ArrowsOf(items) == HopArrows(keys, |keys|, idOf) + UseArrows(keys[|keys| - 1], packages, |packages|, idOf)
  {
    FlowItemsShow(PathDrawn(keys, looks, |keys|, idOf), UsesDrawn(keys[|keys| - 1], packages, |packages|, idOf),
                  keys, looks, packages, idOf);
  }

  lemma SystemFlowShows(items: seq<Item>, steps: seq<CallStep>, packages: seq<string>, idOf: map<string, string>)
    requires steps != [] && Wired(items) && IsSystemFlow(items, FlowKeys(steps), FlowLooks(steps), packages, idOf)
    ensures ShowsFlow(Read(Print(items)), steps, packages, idOf)
  {
    PrintedShows(items);
    SystemFlowItems(items, FlowKeys(steps), FlowLooks(steps), packages, idOf);
    FlowMeans(Read(Print(items)), steps, packages, idOf);
  }

  /** The measured path and what it reaches. The node counter counts the nodes exactly when no
      package is reached twice and no package's key is a step's. */
  method SystemFlow(chains: seq<seq<CallStep>>, imports: seq<Import>) returns (items: seq<Item>, ghost idOf: map<string, string>)
    ensures Wired(items) && Injective(idOf)
    ensures var steps := Spine(chains);
            if steps == [] then items == Placeholder("No end-to-end call path measured")
            else
              var packages := Packages(Reached(steps, imports));
              && Named(items, FlowKeys(steps) + Prefixed("pkg:", packages), idOf)
              && ShowsFlow(Read(Print(items)), steps, packages, idOf)
              && (CountNodes(Print(items)) == |Distinct(items)| <==> FlowNamesApart(steps, packages))
  {
    idOf := map[];
    var steps := Spine(chains);
    if steps == [] {
      return Placeholder("No end-to-end call path measured"), idOf;
    }
    FlowKeysOnce(steps);
    FlowRepeats(steps, Packages(Reached(steps, imports)));
    items, idOf := DrawFlow(FlowKeys(steps), FlowLooks(steps), Packages(Reached(steps, imports)));
    CounterCountsNodes(items);
    SystemFlowShows(items, steps, Packages(Reached(steps, imports)), idOf);
  }

  method DrawFlow(keys: seq<string>, looks: seq<Look>, packages: seq<string>) returns (items: seq<Item>, ghost idOf: map<string, string>)
    requires keys != [] && NoRepeats(keys) && |looks| == |keys|
    ensures Wired(items) && Injective(idOf) && IsSystemFlow(items, keys, looks, packages, idOf)
    ensures NoRepeats(Declarations(items)) <==> NoRepeats(keys + Prefixed("pkg:", packages))
  {
    var ids := new IdAllocator("s");
    var path := DrawPath(ids, keys, looks);
    ghost var earlier := ids.byLabel;
    items := DrawUses(ids, path, keys, looks, packages);
    idOf := ids.byLabel;
    FlowDrawn(items, path, keys, looks, packages, earlier, idOf);
    NamedOnce(items, keys + Prefixed("pkg:", packages), idOf);
  }

  /** A few sorted imports of touched modules are all reached, as they stand. */
  lemma AllReached(steps: seq<CallStep>, imports: seq<Import>)
    requires |imports| <= MAX_FLOW_DEPS && SortedBy(imports, ByCount()) && forall e | e in imports :: e.owner in Touched(steps)
    ensures Reached(steps, imports) == imports
  {
    FilterAll(imports, OwnerIn(Touched(steps)));
    AlreadySorted(imports, ByCount());
  }

  /** A chain through two modules that both import one package reaches it twice. */
  lemma ReachedTwice(steps: seq<CallStep>, i: nat, j: nat, package: string)
    requires i < j < |steps|
    ensures var imports := [Import(ModuleOf(steps[i].file), package, 1), Import(ModuleOf(steps[j].file), package, 1)];
            Reached(steps, imports) == imports && !FlowNamesApart(steps, Packages(imports))
  {
    var imports := [Import(ModuleOf(steps[i].file), package, 1), Import(ModuleOf(steps[j].file), package, 1)];
    assert Touched(steps)[i] == imports[0].owner && Touched(steps)[j] == imports[1].owner;
    AllReached(steps, imports);
    assert Packages(imports)[0] == Packages(imports)[1];
  }

  /** And a step can be named so that its key is a package's. */
  lemma KeysCanMeet(steps: seq<CallStep>, i: nat, rest: string)
    requires i < |steps| && ModuleOf(steps[i].file) == "pkg:" + rest
    ensures !FlowNamesApart(steps, [rest + "/" + steps[i].symbol + "#" + ToDecimal(i)])
  {
    var package := rest + "/" + steps[i].symbol + "#" + ToDecimal(i);
    assert FlowKey(steps[i], i) == "pkg:" + package;
    assert package in [package];
  }
}
