/**
 The per-process cache of open graph handles (CodeGraphService): a map from checkout paths to
 in-flight promises. Promises settle on their own time, also after the path was closed.
 */
module GraphHandles {
  import opened Common
  import RunKeys

  /**
   The map, and the history behind it: promises are numbered in the order they were made,
   `pathOf` says for which path, `settled` which have resolved or rejected, and `released`
   which have been closed or rejected.
   */
  datatype Cache = Cache(graphs: map<string, nat>, pathOf: seq<string>, settled: set<nat>, released: set<nat>)

  datatype Event =
    | Open(path: string)       // openReadOnly, or initAndIndex, which builds the graph first
    | Close(path: string)
    | Resolves(handle: nat)
    | Rejects(handle: nat)     // runs the catch callback, which knows the path alone
    | Shutdown

  const EMPTY_CACHE: Cache := Cache(map[], [], {}, {})

  /** A promise settles once. */
  predicate Possible(c: Cache, e: Event) {
    e.Resolves? || e.Rejects? ==> e.handle < |c.pathOf| && e.handle !in c.settled
  }

  /** The handle that opening a path yields. */
  function Given(c: Cache, path: string): nat { if path in c.graphs then c.graphs[path] else |c.pathOf| }

  function Next(c: Cache, e: Event): Cache
    requires Possible(c, e)
  {
    match e
    case Open(path) =>
      if path in c.graphs then c
      else c.(graphs := c.graphs[path := |c.pathOf|], pathOf := c.pathOf + [path])
    case Close(path) =>
      if path in c.graphs then c.(graphs := c.graphs - {path}, released := c.released + {c.graphs[path]}) else c
    case Resolves(handle) => c.(settled := c.settled + {handle})
    case Rejects(handle) =>
      c.(graphs := c.graphs - {c.pathOf[handle]}, settled := c.settled + {handle}, released := c.released + {handle})
    case Shutdown => c.(graphs := map[], released := c.released + c.graphs.Values)
  }

  predicate Legal(c: Cache, events: seq<Event>)
    decreases |events|
  {
    events == [] || (Possible(c, events[0]) && Legal(Next(c, events[0]), events[1..]))
  }

  function After(c: Cache, events: seq<Event>): Cache
    requires Legal(c, events)
    decreases |events|
  {
    if events == [] then c else After(Next(c, events[0]), events[1..])
  }

  /** What is cached under a path is a promise made for it, neither closed nor rejected. */
  ghost predicate Sound(c: Cache) {
    && (forall path | path in c.graphs ::
          c.graphs[path] < |c.pathOf| && c.pathOf[c.graphs[path]] == path && c.graphs[path] !in c.released)
    && forall h | h in c.released :: h < |c.pathOf|
  }

  lemma NextKeepsSound(c: Cache, e: Event)
    requires Sound(c) && Possible(c, e)
    ensures Sound(Next(c, e)) && c.pathOf <= Next(c, e).pathOf
  {
  }

  lemma {:induction false} RunKeepsSound(c: Cache, events: seq<Event>)
    requires Sound(c) && Legal(c, events)
    ensures Sound(After(c, events)) && c.pathOf <= After(c, events).pathOf
    decreases |events|
  {
    if events != [] {
      NextKeepsSound(c, events[0]);
      RunKeepsSound(Next(c, events[0]), events[1..]);
    }
  }

  // ─── Runs never share a handle ──────────────────────────────────────────────

  lemma {:induction false} LegalPrefix(c: Cache, events: seq<Event>, i: nat)
    requires Legal(c, events) && i <= |events|
    ensures Legal(c, events[..i]) && Legal(After(c, events[..i]), events[i..])
    ensures After(After(c, events[..i]), events[i..]) == After(c, events)
    decreases i
  {
    if i == 0 {
      assert events[..0] == [] && events[0..] == events;
    } else {
      assert events[..i][1..] == events[1..][..i - 1] && events[1..][i - 1..] == events[i..];
      LegalPrefix(Next(c, events[0]), events[1..], i - 1);
    }
  }

  /** The handle given for an Open stays the one made for its path. */
  lemma GivenFor(events: seq<Event>, i: nat)
    requires Legal(EMPTY_CACHE, events) && i < |events| && events[i].Open?
    ensures Legal(EMPTY_CACHE, events[..i])
    ensures
      var h := Given(After(EMPTY_CACHE, events[..i]), events[i].path);
      h < |After(EMPTY_CACHE, events).pathOf| && After(EMPTY_CACHE, events).pathOf[h] == events[i].path
  {
    LegalPrefix(EMPTY_CACHE, events, i);
    var c := After(EMPTY_CACHE, events[..i]);
    RunKeepsSound(EMPTY_CACHE, events[..i]);
    NextKeepsSound(c, events[i]);
    assert events[i..][0] == events[i];
    RunKeepsSound(Next(c, events[i]), events[i..][1..]);
  }

  /** Whatever is opened, closed, resolved and rejected around them: two runs that differ in
      job or epoch are never given the same handle. */
  lemma RunsNeverShareHandles(events: seq<Event>, i: nat, k: nat, j: string, e: Option<nat>, j': string, e': Option<nat>)
    requires Legal(EMPTY_CACHE, events) && i < |events| && k < |events|
    requires events[i] == Open(RunKeys.RepoPath(RunKeys.RunKeyOf(j, e)))
    requires events[k] == Open(RunKeys.RepoPath(RunKeys.RunKeyOf(j', e')))
    requires j != j' || e.GetOr(0) != e'.GetOr(0)
    ensures Legal(EMPTY_CACHE, events[..i]) && Legal(EMPTY_CACHE, events[..k])
    ensures Given(After(EMPTY_CACHE, events[..i]), events[i].path) != Given(After(EMPTY_CACHE, events[..k]), events[k].path)
  {
    RunKeys.RunsShareNothing(j, e, j', e', "", "", "", "");
    GivenFor(events, i);
    GivenFor(events, k);
  }

  // ─── Callers of one path share a handle ─────────────────────────────────────

  /** Nothing in the run closes the path or rejects a promise made for it. */
  predicate Spared(c: Cache, events: seq<Event>, path: string)
    requires Legal(c, events)
    decreases |events|
  {
    events == [] ||
    var e := events[0];
    && !e.Shutdown? && (e.Close? ==> e.path != path) && (e.Rejects? ==> c.pathOf[e.handle] != path)
    && Spared(Next(c, e), events[1..], path)
  }

  /** Until then every caller of the path is given the one handle. */
  lemma {:induction false} CallersShare(c: Cache, events: seq<Event>, path: string)
    requires Legal(c, events) && path in c.graphs && Spared(c, events, path)
    ensures path in After(c, events).graphs && Given(After(c, events), path) == Given(c, path)
    decreases |events|
  {
    if events != [] {
      CallersShare(Next(c, events[0]), events[1..], path);
    }
  }

  // ─── One live handle per path ───────────────────────────────────────────────

  /** Made, and neither closed nor rejected. */
  predicate Live(c: Cache, h: nat) { h < |c.pathOf| && h !in c.released }

  /** Every live handle is the one cached under its path, where close() will find it. */
  ghost predicate Tracked(c: Cache) {
    forall h: nat | Live(c, h) :: c.pathOf[h] in c.graphs && c.graphs[c.pathOf[h]] == h
  }

  lemma TrackedIsOne(c: Cache, h: nat, h': nat)
    requires Tracked(c) && Live(c, h) && Live(c, h') && c.pathOf[h] == c.pathOf[h']
    ensures h == h'
  {
  }

  /** A rejection that comes so late that the path is another promise's by now. */
  predicate EvictsSuccessor(c: Cache, e: Event) {
    e.Rejects? && e.handle < |c.pathOf| && c.pathOf[e.handle] in c.graphs && c.graphs[c.pathOf[e.handle]] != e.handle
  }

  predicate NeverEvictsSuccessor(c: Cache, events: seq<Event>)
    requires Legal(c, events)
    decreases |events|
  {
    events == [] || (!EvictsSuccessor(c, events[0]) && NeverEvictsSuccessor(Next(c, events[0]), events[1..]))
  }

  ghost predicate AlwaysTracked(c: Cache, events: seq<Event>)
    requires Legal(c, events)
    decreases |events|
  {
    Tracked(c) && (events == [] || AlwaysTracked(Next(c, events[0]), events[1..]))
  }

  lemma TrackedNext(c: Cache, e: Event)
    requires Sound(c) && Tracked(c) && Possible(c, e)
    ensures Tracked(Next(c, e)) <==> !EvictsSuccessor(c, e)
  {
    var t := Next(c, e);
    if EvictsSuccessor(c, e) {
      assert Live(t, c.graphs[c.pathOf[e.handle]]);
    } else {
      forall h: nat | Live(c, h) ensures h in c.graphs.Values {
        assert c.graphs[c.pathOf[h]] in c.graphs.Values;
      }
      forall h: nat | Live(t, h) ensures t.pathOf[h] in t.graphs && t.graphs[t.pathOf[h]] == h {
        if h < |c.pathOf| { assert Live(c, h); }
      }
    }
  }

  /** In every run there is at most one live handle per path at all times, and the cache holds
      it, exactly when no promise rejects after its path was closed and opened again. */
  lemma {:induction false} OneLiveHandlePerPath(c: Cache, events: seq<Event>)
    requires Sound(c) && Tracked(c) && Legal(c, events)
    ensures AlwaysTracked(c, events) <==> NeverEvictsSuccessor(c, events)
    decreases |events|
  {
    if events != [] {
      TrackedNext(c, events[0]);
      NextKeepsSound(c, events[0]);
      if Tracked(Next(c, events[0])) {
        OneLiveHandlePerPath(Next(c, events[0]), events[1..]);
      }
    }
  }

  /** A path closed while its graph was still opening, opened again, and then told that the
      first opening failed: the next caller opens a second handle beside the live one. */
  lemma LateRejectionLeaks(path: string)
    ensures
      var events := LateRejection(path);
      Legal(EMPTY_CACHE, events) &&
      var c := After(EMPTY_CACHE, events);
      |c.pathOf| == 3 && Live(c, 1) && Live(c, 2) && c.pathOf[1] == c.pathOf[2] == path && !Tracked(c)
  {
    Snoc(EMPTY_CACHE, [], Open(path));
    Snoc(EMPTY_CACHE, [] + [Open(path)], Close(path));
    Snoc(EMPTY_CACHE, [] + [Open(path)] + [Close(path)], Open(path));
    Snoc(EMPTY_CACHE, [] + [Open(path)] + [Close(path)] + [Open(path)], Rejects(0));
    Snoc(EMPTY_CACHE, [] + [Open(path)] + [Close(path)] + [Open(path)] + [Rejects(0)], Open(path));
    var c := After(EMPTY_CACHE, LateRejection(path));
    assert c.pathOf == [path, path, path] && c.released == {0} && c.graphs[path] == 2;
  }

  function LateRejection(path: string): seq<Event> {
    [] + [Open(path)] + [Close(path)] + [Open(path)] + [Rejects(0)] + [Open(path)]
  }

  lemma {:induction false} Snoc(c: Cache, events: seq<Event>, e: Event)
    requires Legal(c, events) && Possible(After(c, events), e)
    ensures Legal(c, events + [e]) && After(c, events + [e]) == Next(After(c, events), e)
    decreases |events|
  {
    if events == [] {
      assert events + [e] == [e] && [e][1..] == [];
    } else {
      assert (events + [e])[0] == events[0] && (events + [e])[1..] == events[1..] + [e];
      Snoc(Next(c, events[0]), events[1..], e);
    }
  }

  // ─── The service ────────────────────────────────────────────────────────────

  class HandleCache {
    var graphs: map<string, nat>
    var created: nat
    ghost var pathOf: seq<string>
    ghost var settled: set<nat>
    ghost var released: set<nat>

    ghost function State(): Cache
      reads this
    {
      Cache(graphs, pathOf, settled, released)
    }

    ghost predicate Valid()
      reads this
    {
      created == |pathOf| && Sound(State())
    }

    constructor ()
      ensures Valid() && State() == EMPTY_CACHE
    {
      graphs, created, pathOf, settled, released := map[], 0, [], {}, {};
    }

    method Open(path: string) returns (handle: nat)
      requires Valid()
      modifies this
      ensures Valid() && State() == Next(old(State()), Event.Open(path))
      ensures handle == Given(old(State()), path) && path in graphs && graphs[path] == handle
      ensures handle < |pathOf| && pathOf[handle] == path && old(pathOf) <= pathOf
    {
      if path in graphs {
        handle := graphs[path];
      } else {
        handle := created;
        graphs, created, pathOf := graphs[path := handle], created + 1, pathOf + [path];
      }
    }

    /** The promise is let go of, to be closed whenever it lands. */
    method Close(path: string)
      requires Valid()
      modifies `graphs, `released
      ensures Valid() && State() == Next(old(State()), Event.Close(path))
      ensures path !in graphs && forall p | p != path :: p in graphs <==> p in old(graphs)
    {
      if path !in graphs { return; }
      released := released + {graphs[path]};
      graphs := graphs - {path};
    }

    /** The catch callback of a promise. */
    method Rejected(path: string, ghost handle: nat)
      requires Valid() && Possible(State(), Rejects(handle)) && pathOf[handle] == path
      modifies `graphs, `settled, `released
      ensures Valid() && State() == Next(old(State()), Rejects(handle))
      ensures path !in graphs && forall p | p != path :: p in graphs <==> p in old(graphs)
    {
      graphs := graphs - {path};
      settled, released := settled + {handle}, released + {handle};
    }

    method OnModuleDestroy()
      requires Valid()
      modifies `graphs, `released
      ensures Valid() && State() == Next(old(State()), Shutdown)
    {
      released := released + graphs.Values;
      graphs := map[];
    }
  }
}
