/**
 The execution gate of the agent worker: a counter of free slots, a list of waiters and a
 timer that delays the first grant. Three events reach it: a handler asks for a slot, the
 timer fires, a handler gives its slot back.
 */
module SlotGate {
  import opened Common
  import opened AgentTypes
  import opened StableSort
  import opened Seqs

  /** A pending acquireSlot call; `ticket` numbers the calls in arrival order. */
  datatype Waiter = Waiter(agentType: AgentType, ticket: nat)

  /** The fixed order in which the agents run. */
  const PIPELINE: seq<AgentType> := [Architecture, Security, Dependency, Quality, Docs]

  /** Position in it. */
  function Order(t: AgentType): (i: nat)
    ensures i < |PIPELINE| && PIPELINE[i] == t
  {
    match t
    case Architecture => 0
    case Security => 1
    case Dependency => 2
    case Quality => 3
    case Docs => 4
  }

  const BY_ORDER: Waiter -> int := (w: Waiter) => Order(w.agentType)

  /** Earlier in the pipeline, or of the same type and first to arrive. */
  predicate Precedes(a: Waiter, b: Waiter) {
    Order(a.agentType) < Order(b.agentType) || (a.agentType == b.agentType && a.ticket < b.ticket)
  }

  /** The gate's fields, with the log of grants and the number of slots given back. */
  datatype Gate = Gate(
    max: nat,
    available: nat,
    waiters: seq<Waiter>,
    timer: bool,
    arrivals: nat,
    granted: seq<Waiter>,
    released: nat)

  datatype Event = Acquire(agentType: AgentType) | TimerFires | Release

  /** Hand the free slots, as far as they go, to the waiters in order. */
  function Grant(g: Gate): Gate {
    var k := Min(g.available, |g.waiters|);
    if k == 0 then g
    else
      SortByCorrect(g.waiters, BY_ORDER);
      var sorted := SortBy(g.waiters, BY_ORDER);
      g.(available := g.available - k, waiters := sorted[k..], granted := g.granted + sorted[..k])
  }

  predicate Possible(g: Gate, e: Event) {
    && (e.TimerFires? ==> g.timer)
    && (e.Release? ==> g.released < |g.granted|)
  }

  function Next(g: Gate, e: Event): Gate {
    match e
    case Acquire(t) =>
      g.(waiters := g.waiters + [Waiter(t, g.arrivals)], timer := true, arrivals := g.arrivals + 1)
    case TimerFires => Grant(g.(timer := false))
    case Release => Grant(g.(available := g.available + 1, released := g.released + 1))
  }

  // ─── Invariants of every reachable state ────────────────────────────────────

  /** Waiters of one type stand in arrival order. */
  predicate Fifo(waiters: seq<Waiter>) {
    forall i, j | 0 <= i < j < |waiters| && waiters[i].agentType == waiters[j].agentType ::
      waiters[i].ticket < waiters[j].ticket
  }

  predicate GateInv(g: Gate) {
    // no slot is lost or invented
    && g.released <= |g.granted| && g.available + (|g.granted| - g.released) == g.max
    // nobody is stranded: a waiter is covered by a pending timer or by a busy slot
    && (g.waiters != [] ==> g.timer || g.available == 0)
    && Fifo(g.waiters)
    && (forall w | w in g.waiters :: w.ticket < g.arrivals)
  }

  function Start(max: nat): Gate { Gate(max, max, [], false, 0, [], 0) }

  predicate Possibles(g: Gate, events: seq<Event>)
    decreases |events|
  {
    events == [] || (Possible(g, events[0]) && Possibles(Next(g, events[0]), events[1..]))
  }

  function Run(g: Gate, events: seq<Event>): Gate
    decreases |events|
  {
    if events == [] then g else Run(Next(g, events[0]), events[1..])
  }

  /** Stability in the form used here: sorting keeps each type's own sequence. */
  lemma {:induction false} WithKeyIndex(s: seq<Waiter>, k: int, i: nat, j: nat) returns (a: nat, b: nat)
    requires i < j < |s| && BY_ORDER(s[i]) == k && BY_ORDER(s[j]) == k
    ensures a < b < |WithKey(s, BY_ORDER, k)|
    ensures WithKey(s, BY_ORDER, k)[a] == s[i] && WithKey(s, BY_ORDER, k)[b] == s[j]
  {
    var n := |s| - 1;
    if j < n {
      a, b := WithKeyIndex(s[..n], k, i, j);
    } else {
      a := WithKeyOne(s[..n], k, i);
      b := |WithKey(s[..n], BY_ORDER, k)|;
    }
  }

  lemma {:induction false} WithKeyOne(s: seq<Waiter>, k: int, i: nat) returns (a: nat)
    requires i < |s| && BY_ORDER(s[i]) == k
    ensures a < |WithKey(s, BY_ORDER, k)| && WithKey(s, BY_ORDER, k)[a] == s[i]
  {
    var n := |s| - 1;
    if i < n {
      a := WithKeyOne(s[..n], k, i);
    } else {
      a := |WithKey(s[..n], BY_ORDER, k)|;
    }
  }

  lemma {:induction false} FifoByKey(s: seq<Waiter>, k: int)
    requires Fifo(s)
    ensures forall a, b | 0 <= a < b < |WithKey(s, BY_ORDER, k)| ::
              WithKey(s, BY_ORDER, k)[a].ticket < WithKey(s, BY_ORDER, k)[b].ticket
    ensures forall w | w in WithKey(s, BY_ORDER, k) :: w in s && BY_ORDER(w) == k
  {
    if s == [] {
    } else {
      var n := |s| - 1;
      var front := s[..n];
      FifoByKey(front, k);
      if BY_ORDER(s[n]) == k {
        forall w | w in WithKey(front, BY_ORDER, k) ensures w.ticket < s[n].ticket {
          var i :| 0 <= i < n && front[i] == w;
          assert s[i] == w && PIPELINE[BY_ORDER(s[i])] == s[i].agentType && PIPELINE[BY_ORDER(s[n])] == s[n].agentType;
        }
      }
    }
  }

  predicate Prioritised(s: seq<Waiter>) {
    forall i, j | 0 <= i < j < |s| :: Precedes(s[i], s[j])
  }

  /** Sorting a first-come list by pipeline order puts every waiter before all those it
      precedes: earlier types first, and first come first served within a type. */
  lemma SortedIsPrioritised(waiters: seq<Waiter>)
    requires Fifo(waiters)
    ensures Prioritised(SortBy(waiters, BY_ORDER))
  {
    var sorted := SortBy(waiters, BY_ORDER);
    SortByCorrect(waiters, BY_ORDER);
    forall i, j | 0 <= i < j < |sorted| ensures Precedes(sorted[i], sorted[j]) {
      var k := BY_ORDER(sorted[i]);
      assert k <= BY_ORDER(sorted[j]);
      if k == BY_ORDER(sorted[j]) {
        assert PIPELINE[k] == sorted[i].agentType == sorted[j].agentType;
        var a, b := WithKeyIndex(sorted, k, i, j);
        assert WithKey(sorted, BY_ORDER, k) == WithKey(waiters, BY_ORDER, k);
        FifoByKey(waiters, k);
      }
    }
  }

  lemma GrantCounts(g: Gate)
    ensures
      var k := Min(g.available, |g.waiters|);
      && g.granted <= Grant(g).granted && |Grant(g).granted| == |g.granted| + k
      && Grant(g).available == g.available - k && |Grant(g).waiters| == |g.waiters| - k
      && Grant(g) == g.(available := Grant(g).available, waiters := Grant(g).waiters, granted := Grant(g).granted)
  {
    SortByCorrect(g.waiters, BY_ORDER);
  }

  lemma PrioritySplits(s: seq<Waiter>, k: nat)
    requires Prioritised(s) && k <= |s|
    ensures forall w, v | w in s[..k] && v in s[k..] :: Precedes(w, v)
    ensures Prioritised(s[..k]) && Prioritised(s[k..])
  {
    forall w, v | w in s[..k] && v in s[k..] ensures Precedes(w, v) {
      var i :| 0 <= i < k && s[i] == w;
      var j :| 0 <= j < |s| - k && s[k..][j] == v;
      assert s[k + j] == v;
    }
  }

  /** What one call of grantNext does to a legal gate: as many grants as there are free
      slots and waiters, each to a waiter that precedes all that stay behind. */
  lemma GrantServesInOrder(g: Gate)
    requires Fifo(g.waiters)
    ensures
      var t := Grant(g);
      var k := Min(g.available, |g.waiters|);
      && g.granted <= t.granted && |t.granted| == |g.granted| + k
      && multiset(t.granted[|g.granted|..] + t.waiters) == multiset(g.waiters)
      && (forall w, v | w in t.granted[|g.granted|..] && v in t.waiters :: Precedes(w, v))
      && Prioritised(t.granted[|g.granted|..])
      && Fifo(t.waiters)
  {
    GrantCounts(g);
    var k := Min(g.available, |g.waiters|);
    if k == 0 {
      assert Grant(g).granted[|g.granted|..] + Grant(g).waiters == g.waiters;
    } else {
      GrantIs(g);
      ServedFirst(g.waiters, k);
    }
  }

  lemma GrantIs(g: Gate)
    requires Min(g.available, |g.waiters|) > 0
    ensures
      var sorted, k := SortBy(g.waiters, BY_ORDER), Min(g.available, |g.waiters|);
      |sorted| == |g.waiters| && Grant(g).granted[|g.granted|..] == sorted[..k] && Grant(g).waiters == sorted[k..]
  {
    SortByCorrect(g.waiters, BY_ORDER);
  }

  lemma ServedFirst(waiters: seq<Waiter>, k: nat)
    requires Fifo(waiters) && k <= |waiters| == |SortBy(waiters, BY_ORDER)|
    ensures
      var sorted := SortBy(waiters, BY_ORDER);
      && multiset(sorted[..k] + sorted[k..]) == multiset(waiters)
      && (forall w, v | w in sorted[..k] && v in sorted[k..] :: Precedes(w, v))
      && Prioritised(sorted[..k]) && Fifo(sorted[k..])
  {
    var sorted := SortBy(waiters, BY_ORDER);
    SortByCorrect(waiters, BY_ORDER);
    SortedIsPrioritised(waiters);
    PrioritySplits(sorted, k);
    assert sorted[..k] + sorted[k..] == sorted;
  }

  lemma NextKeepsInv(g: Gate, e: Event)
    requires GateInv(g) && Possible(g, e)
    ensures GateInv(Next(g, e)) && Next(g, e).max == g.max && g.granted <= Next(g, e).granted
  {
    match e
    case Acquire(t) =>
    case TimerFires => GrantKeepsInv(g.(timer := false));
    case Release => GrantKeepsInv(g.(available := g.available + 1, released := g.released + 1));
  }

  /** Granting re-establishes the invariant, whether or not a timer covered the waiters. */
  lemma GrantKeepsInv(g: Gate)
    requires g.released <= |g.granted| && g.available + (|g.granted| - g.released) == g.max
    requires Fifo(g.waiters) && forall w | w in g.waiters :: w.ticket < g.arrivals
    ensures GateInv(Grant(g)) && Grant(g).max == g.max && g.granted <= Grant(g).granted
  {
    GrantCounts(g);
    GrantKeepsTickets(g);
  }

  lemma GrantKeepsTickets(g: Gate)
    requires Fifo(g.waiters) && forall w | w in g.waiters :: w.ticket < g.arrivals
    ensures forall w | w in Grant(g).waiters :: w.ticket < g.arrivals
    ensures Fifo(Grant(g).waiters)
  {
    GrantServesInOrder(g);
    SortBySameElements(g.waiters, BY_ORDER);
  }

  /** In every reachable state free slots plus running agents make up the configured
      concurrency, and a waiter always has a timer or a release to wait for. */
  lemma {:induction false} ReachableInv(g: Gate, events: seq<Event>)
    requires GateInv(g) && Possibles(g, events)
    ensures GateInv(Run(g, events)) && Run(g, events).max == g.max
    decreases |events|
  {
    if events == [] {
    } else {
      NextKeepsInv(g, events[0]);
      ReachableInv(Next(g, events[0]), events[1..]);
    }
  }

  lemma SlotsConserved(max: nat, events: seq<Event>)
    requires Possibles(Start(max), events)
    ensures
      var g := Run(Start(max), events);
      && g.released <= |g.granted| && g.available + (|g.granted| - g.released) == max
      && (g.waiters != [] ==> g.timer || g.available == 0)
  {
    ReachableInv(Start(max), events);
  }

  function Releases(n: nat): seq<Event> {
    if n == 0 then [] else [Release] + Releases(n - 1)
  }

  lemma {:induction false} SortedUnchanged(s: seq<Waiter>)
    requires Prioritised(s)
    ensures SortBy(s, BY_ORDER) == s
  {
    if s == [] {
    } else {
      var n := |s| - 1;
      SortedUnchanged(s[..n]);
      if n > 0 { assert Precedes(s[n - 1], s[n]); }
    }
  }

  /** A release with somebody waiting and no slot free serves the first waiter in order. */
  lemma ReleaseServesOne(g: Gate)
    requires GateInv(g) && g.waiters != [] && g.available == 0
    ensures
      var sorted := SortBy(g.waiters, BY_ORDER);
      |sorted| == |g.waiters| && Next(g, Release).waiters == sorted[1..]
      && Next(g, Release).granted == g.granted + [sorted[0]] && Next(g, Release).timer == g.timer
  {
    SortByCorrect(g.waiters, BY_ORDER);
    var sorted := SortBy(g.waiters, BY_ORDER);
    assert sorted[..1] == [sorted[0]];
  }

  /** What is left of a sorted list sorts to itself. */
  lemma Resort(waiters: seq<Waiter>, k: nat)
    requires Fifo(waiters) && k <= |waiters|
    ensures |SortBy(waiters, BY_ORDER)| == |waiters|
    ensures SortBy(SortBy(waiters, BY_ORDER)[k..], BY_ORDER) == SortBy(waiters, BY_ORDER)[k..]
  {
    SortByCorrect(waiters, BY_ORDER);
    SortedIsPrioritised(waiters);
    PrioritySplits(SortBy(waiters, BY_ORDER), k);
    SortedUnchanged(SortBy(waiters, BY_ORDER)[k..]);
  }

  /** With no new arrivals the queue drains: once the timer has fired, as many releases as
      there are waiters are possible one after the other, and they serve all of them, in
      pipeline order. */
  lemma {:induction false} WaitersDrain(g: Gate)
    requires GateInv(g) && !g.timer && g.max > 0
    ensures Possibles(g, Releases(|g.waiters|))
    ensures Run(g, Releases(|g.waiters|)).waiters == []
    ensures Run(g, Releases(|g.waiters|)).granted == g.granted + SortBy(g.waiters, BY_ORDER)
    decreases |g.waiters|
  {
    if g.waiters == [] {
      assert g.granted + SortBy(g.waiters, BY_ORDER) == g.granted;
    } else {
      OneRelease(g);
      WaitersDrain(Next(g, Release));
      ReleasesUnfold(g, |g.waiters|);
    }
  }

  /** One release, in the terms of the drain. */
  lemma OneRelease(g: Gate)
    requires GateInv(g) && !g.timer && g.max > 0 && g.waiters != []
    ensures Possible(g, Release)
    ensures var t := Next(g, Release);
            && GateInv(t) && !t.timer && t.max > 0 && |t.waiters| == |g.waiters| - 1
            && t.granted + SortBy(t.waiters, BY_ORDER) == g.granted + SortBy(g.waiters, BY_ORDER)
  {
    ReleaseServesOne(g);
    NextKeepsInv(g, Release);
    Resort(g.waiters, 1);
    StillToServe(g.granted, SortBy(g.waiters, BY_ORDER), Next(g, Release).granted, Next(g, Release).waiters);
  }

  lemma StillToServe(granted: seq<Waiter>, sorted: seq<Waiter>, granted': seq<Waiter>, waiters': seq<Waiter>)
    requires sorted != [] && SortBy(sorted[1..], BY_ORDER) == sorted[1..]
    requires granted' == granted + [sorted[0]] && waiters' == sorted[1..]
    ensures granted' + SortBy(waiters', BY_ORDER) == granted + sorted
  {
  }

  lemma ReleasesUnfold(g: Gate, n: nat)
    requires n > 0
    ensures Run(g, Releases(n)) == Run(Next(g, Release), Releases(n - 1))
    ensures Possibles(g, Releases(n)) <==> Possible(g, Release) && Possibles(Next(g, Release), Releases(n - 1))
  {
    assert Releases(n)[0] == Release && Releases(n)[1..] == Releases(n - 1);
  }

  // ─── One batch ──────────────────────────────────────────────────────────────

  function Arrivals(batch: seq<AgentType>): seq<Event> {
    if batch == [] then [] else Arrivals(batch[..|batch| - 1]) + [Acquire(batch[|batch| - 1])]
  }

  function Types(waiters: seq<Waiter>): (r: seq<AgentType>)
    ensures |r| == |waiters| && forall i | 0 <= i < |waiters| :: r[i] == waiters[i].agentType
  {
    seq(|waiters|, i requires 0 <= i < |waiters| => waiters[i].agentType)
  }

  lemma {:induction false} RunBoth(g: Gate, a: seq<Event>, b: seq<Event>)
    ensures Run(g, a + b) == Run(Run(g, a), b)
    ensures Possibles(g, a + b) <==> Possibles(g, a) && Possibles(Run(g, a), b)
    decreases |a|
  {
    if a == [] {
      assert a + b == b;
    } else {
      assert (a + b)[0] == a[0] && (a + b)[1..] == a[1..] + b;
      RunBoth(Next(g, a[0]), a[1..], b);
    }
  }

  /** A batch that arrives before the timer fires waits as it came. */
  lemma {:induction false} BatchWaits(max: nat, batch: seq<AgentType>)
    requires batch != []
    ensures Possibles(Start(max), Arrivals(batch))
    ensures
      var g := Run(Start(max), Arrivals(batch));
      && GateInv(g) && g.max == g.available == max && g.timer && g.granted == []
      && Types(g.waiters) == batch && |g.waiters| == g.arrivals
  {
    var n := |batch| - 1;
    var last := [Acquire(batch[n])];
    RunBoth(Start(max), Arrivals(batch[..n]), last);
    assert last[1..] == [] && batch == batch[..n] + [batch[n]];
    if n > 0 {
      BatchWaits(max, batch[..n]);
    } else {
      assert batch[..n] == [];
    }
    ReachableInv(Start(max), Arrivals(batch[..n]));
    NextKeepsInv(Run(Start(max), Arrivals(batch[..n])), last[0]);
  }

  /** A batch, the end of the collection window, and as many releases as it then takes. */
  function BatchRun(max: nat, batch: seq<AgentType>): seq<Event> {
    Arrivals(batch) + ([TimerFires] + Releases(|batch| - Min(max, |batch|)))
  }

  predicate Distinct(batch: seq<AgentType>) {
    forall i, j | 0 <= i < j < |batch| :: batch[i] != batch[j]
  }

  /** The types stand in pipeline order, and are those of the batch. */
  predicate InOrder(types: seq<AgentType>, batch: seq<AgentType>) {
    && (forall t :: t in types <==> t in batch)
    && forall i, j | 0 <= i < j < |types| :: Order(types[i]) < Order(types[j])
  }

  /** The end of the window serves as many as fit; the others wait in order. */
  lemma Fires(g: Gate) returns (served: seq<Waiter>, rest: seq<Waiter>)
    requires GateInv(g) && g.max == g.available > 0 && g.timer && g.granted == []
    ensures served + rest == SortBy(g.waiters, BY_ORDER) && |rest| == |g.waiters| - Min(g.max, |g.waiters|)
    ensures SortBy(rest, BY_ORDER) == rest
    ensures
      var fired := Next(g, TimerFires);
      && GateInv(fired) && !fired.timer && fired.max == g.max
      && fired.waiters == rest && fired.granted == served
  {
    var sorted, k := SortBy(g.waiters, BY_ORDER), Min(g.max, |g.waiters|);
    Resort(g.waiters, k);
    Rejoin(sorted, k);
    served, rest := sorted[..k], sorted[k..];
    NextKeepsInv(g, TimerFires);
    GrantStart(g.(timer := false));
    assert [] + sorted[..0] == [];
  }

  lemma FirstThen(g: Gate, e: Event, rest: seq<Event>)
    ensures Run(g, [e] + rest) == Run(Next(g, e), rest)
    ensures Possibles(g, [e] + rest) <==> Possible(g, e) && Possibles(Next(g, e), rest)
  {
    assert ([e] + rest)[0] == e && ([e] + rest)[1..] == rest;
  }

  /** The releases serve the rest. */
  lemma RestDrains(fired: Gate, served: seq<Waiter>, rest: seq<Waiter>)
    requires GateInv(fired) && !fired.timer && fired.max > 0
    requires fired.waiters == rest && fired.granted == served && SortBy(rest, BY_ORDER) == rest
    ensures
      var releases := Releases(|rest|);
      Possibles(fired, releases) && Run(fired, releases).waiters == [] && Run(fired, releases).granted == served + rest
  {
    WaitersDrain(fired);
  }

  lemma FiresAndDrains(g: Gate)
    requires GateInv(g) && g.max == g.available > 0 && g.timer && g.granted == []
    ensures
      var events := [TimerFires] + Releases(|g.waiters| - Min(g.max, |g.waiters|));
      && Possibles(g, events)
      && Run(g, events).waiters == [] && Run(g, events).granted == SortBy(g.waiters, BY_ORDER)
  {
    var served, rest := Fires(g);
    RestDrains(Next(g, TimerFires), served, rest);
    FirstThen(g, TimerFires, Releases(|rest|));
  }

  lemma SortedTypes(waiters: seq<Waiter>, batch: seq<AgentType>)
    requires Fifo(waiters) && Types(waiters) == batch && Distinct(batch)
    ensures InOrder(Types(SortBy(waiters, BY_ORDER)), batch)
  {
    var sorted := SortBy(waiters, BY_ORDER);
    SortedIsPrioritised(waiters);
    SortBySameElements(waiters, BY_ORDER);
    forall t ensures t in Types(sorted) <==> t in batch {
      if t in Types(sorted) {
        var i :| 0 <= i < |sorted| && Types(sorted)[i] == t;
        assert sorted[i] in waiters;
      }
      if t in batch {
        var i :| 0 <= i < |batch| && batch[i] == t;
        assert waiters[i] in sorted;
      }
    }
    forall i, j | 0 <= i < j < |sorted| ensures Order(sorted[i].agentType) < Order(sorted[j].agentType) {
      assert Precedes(sorted[i], sorted[j]);
      assert sorted[i] in waiters && sorted[j] in waiters;
    }
  }

  /** However a batch of different agents arrives within the window and however many may run at
      once, all of them are served, in pipeline order. */
  lemma BatchRunsInOrder(max: nat, batch: seq<AgentType>)
    requires max > 0 && batch != [] && Distinct(batch)
    ensures Possibles(Start(max), BatchRun(max, batch))
    ensures
      var g := Run(Start(max), BatchRun(max, batch));
      g.waiters == [] && InOrder(Types(g.granted), batch)
  {
    BatchWaits(max, batch);
    var waiting := Run(Start(max), Arrivals(batch));
    RunBoth(Start(max), Arrivals(batch), [TimerFires] + Releases(|batch| - Min(max, |batch|)));
    FiresAndDrains(waiting);
    SortedTypes(waiting.waiters, batch);
  }

  lemma {:induction false} OrdersGrow(types: seq<AgentType>, i: nat)
    requires i < |types| && forall i, j | 0 <= i < j < |types| :: Order(types[i]) < Order(types[j])
    ensures Order(types[i]) >= i
  {
    if i > 0 { OrdersGrow(types, i - 1); }
  }

  lemma PlaceOf(types: seq<AgentType>, batch: seq<AgentType>, t: AgentType) returns (i: nat)
    requires InOrder(types, batch) && t in batch
    ensures i < |types| && types[i] == t && i <= Order(t)
  {
    i :| 0 <= i < |types| && types[i] == t;
    OrdersGrow(types, i);
  }

  /** The five agents of a job so run exactly in the fixed order. */
  lemma AllInOrder(types: seq<AgentType>, batch: seq<AgentType>)
    requires InOrder(types, batch) && forall t :: t in batch
    ensures types == PIPELINE
  {
    var a := PlaceOf(types, batch, Architecture);
    var b := PlaceOf(types, batch, Security);
    var c := PlaceOf(types, batch, Dependency);
    var d := PlaceOf(types, batch, Quality);
    var e := PlaceOf(types, batch, Docs);
    assert a < b < c < d < e <= 4;
    if |types| > 5 { OrdersGrow(types, 5); }
  }

  /** The gate after k grants. */
  ghost function Granted(g: Gate, k: nat): Gate
    requires k <= g.available && k <= |g.waiters| == |SortBy(g.waiters, BY_ORDER)|
  {
    var sorted := SortBy(g.waiters, BY_ORDER);
    if k == 0 then g
    else g.(available := g.available - k, waiters := sorted[k..], granted := g.granted + sorted[..k])
  }

  lemma GrantStart(g: Gate)
    ensures |SortBy(g.waiters, BY_ORDER)| == |g.waiters|
    ensures Grant(g) == Granted(g, Min(g.available, |g.waiters|))
  {
    SortByCorrect(g.waiters, BY_ORDER);
  }

  lemma GrantedStep(g: Gate, k: nat)
    requires k < g.available && k < |g.waiters| == |SortBy(g.waiters, BY_ORDER)|
    ensures
      var sorted := SortBy(g.waiters, BY_ORDER);
      Granted(g, k + 1) == Granted(g, k).(available := Granted(g, k).available - 1,
        waiters := sorted[k..][1..], granted := Granted(g, k).granted + [sorted[k..][0]])
  {
    var sorted := SortBy(g.waiters, BY_ORDER);
    assert sorted[k..][1..] == sorted[k + 1..];
    assert g.granted + sorted[..k] + [sorted[k]] == g.granted + sorted[..k + 1];
    assert g.granted + sorted[..0] == g.granted;
  }

  /** One turn of the grant loop: sort what is left and serve its first waiter. */
  lemma GrantTurn(g: Gate, k: nat)
    requires Fifo(g.waiters) && k < g.available && k < |g.waiters| == |SortBy(g.waiters, BY_ORDER)|
    ensures
      var now := Granted(g, k);
      var sorted := SortBy(now.waiters, BY_ORDER);
      && sorted != [] && now.available > 0
      && Granted(g, k + 1)
         == now.(available := now.available - 1, waiters := sorted[1..], granted := now.granted + [sorted[0]])
  {
    Resort(g.waiters, k);
    var sorted := SortBy(g.waiters, BY_ORDER);
    assert sorted[0..] == sorted;
    GrantedStep(g, k);
  }

  /** The loop goes on exactly while there is both a free slot and a waiter. */
  lemma GrantGuard(g: Gate, k: nat)
    requires k <= g.available && k <= |g.waiters| == |SortBy(g.waiters, BY_ORDER)|
    ensures Granted(g, k).available > 0 && Granted(g, k).waiters != [] <==> k < g.available && k < |g.waiters|
    ensures Granted(g, k).available == g.available - k
  {
  }

  // ─── The gate itself ────────────────────────────────────────────────────────

  class ExecutionGate {
    const maxConcurrentAgents: nat
    var availableSlots: nat
    var slotWaiters: seq<Waiter>
    var timerPending: bool
    var arrivals: nat
    ghost var granted: seq<Waiter>
    ghost var released: nat

    ghost function State(): Gate
      reads this
    {
      Gate(maxConcurrentAgents, availableSlots, slotWaiters, timerPending, arrivals, granted, released)
    }

    /** AGENT_CONCURRENCY, but at least one. */
    constructor (configured: int)
      ensures State() == Start(if configured < 1 then 1 else configured) && GateInv(State())
    {
      maxConcurrentAgents := if configured < 1 then 1 else configured;
      availableSlots := if configured < 1 then 1 else configured;
      slotWaiters, timerPending, arrivals := [], false, 0;
      granted, released := [], 0;
    }

    method AcquireSlot(agentType: AgentType) returns (ticket: nat)
      modifies this
      ensures State() == Next(old(State()), Acquire(agentType)) && ticket == old(arrivals)
    {
      ticket := arrivals;
      slotWaiters := slotWaiters + [Waiter(agentType, ticket)];
      arrivals := arrivals + 1;
      if !timerPending {
        timerPending := true;
      }
    }

    method TimerExpired()
      requires GateInv(State()) && Possible(State(), TimerFires)
      modifies this
      ensures State() == Next(old(State()), TimerFires) && GateInv(State())
    {
      NextKeepsInv(State(), TimerFires);
      timerPending := false;
      GrantNext();
    }

    method GrantNext()
      requires Fifo(slotWaiters)
      modifies `availableSlots, `slotWaiters, `granted
      ensures State() == Grant(old(State()))
    {
      ghost var start := State();
      ghost var k: nat := 0;
      GrantStart(start);
      GrantGuard(start, 0);
      while availableSlots > 0 && slotWaiters != []
        invariant k <= start.available && k <= |start.waiters| == |SortBy(start.waiters, BY_ORDER)|
        invariant State() == Granted(start, k)
        invariant availableSlots > 0 && slotWaiters != [] <==> k < start.available && k < |start.waiters|
        decreases start.available - k
      {
        ServeNext(start, k);
        GrantGuard(start, k + 1);
        k := k + 1;
      }
    }

    /** One more of the grants that are due. */
    method ServeNext(ghost start: Gate, ghost k: nat)
      requires k < start.available && k < |start.waiters| == |SortBy(start.waiters, BY_ORDER)| && Fifo(start.waiters)
      requires State() == Granted(start, k)
      modifies `availableSlots, `slotWaiters, `granted
      ensures State() == Granted(start, k + 1)
    {
      GrantTurn(start, k);
      ServeFirst();
    }

    /** The body of the grant loop. */
    method ServeFirst()
      requires availableSlots > 0 && SortBy(slotWaiters, BY_ORDER) != []
      modifies `availableSlots, `slotWaiters, `granted
      ensures var was := old(State());
              var sorted := SortBy(was.waiters, BY_ORDER);
              State() == was.(available := was.available - 1, waiters := sorted[1..], granted := was.granted + [sorted[0]])
    {
      slotWaiters := SortBy(slotWaiters, BY_ORDER);
      var next := slotWaiters[0];
      slotWaiters := slotWaiters[1..];
      availableSlots := availableSlots - 1;
      granted := granted + [next];
    }

    method ReleaseSlot()
      requires GateInv(State()) && Possible(State(), Release)
      modifies this
      ensures State() == Next(old(State()), Release) && GateInv(State())
    {
      NextKeepsInv(State(), Release);
      availableSlots := availableSlots + 1;
      released := released + 1;
      GrantNext();
    }
  }
}
