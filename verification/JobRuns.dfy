/**
 Building blocks for concrete runs: runs laid end to end, an orchestrator that dispatches,
 a worker that handles one message, a synthesis that succeeds.
 */
module JobRuns {
  import opened Common
  import opened AgentTypes
  import opened LatestRows
  import opened JobMachine

  /** A legal run and a legal run from where it ends make one legal run. */
  lemma {:induction false} Concat(s: State, a: seq<Action>, b: seq<Action>)
    requires Legal(s, a) && Legal(Exec(s, a), b)
    ensures Legal(s, a + b) && Exec(s, a + b) == Exec(Exec(s, a), b)
    decreases |a|
  {
    if a == [] {
      assert a + b == b;
    } else {
      assert (a + b)[0] == a[0] && (a + b)[1..] == a[1..] + b;
      Concat(Apply(s, a[0]), a[1..], b);
    }
  }

  /** Neither the gateway nor an expiry nor the sweep's eviction fallback has a part in it. */
  predicate Quiet(a: Action) {
    !a.ExpireLock? && !a.Call? && !a.GatewayStep? && (a.SynthesisStep? ==> !a.synthesisEvent.OldEnough?)
  }

  predicate AllQuiet(run: seq<Action>) { forall a | a in run :: Quiet(a) }

  /** One more action, quiet or not. */
  lemma Step(run: seq<Action>, a: Action)
    requires Legal(INITIAL, run) && Enabled(Exec(INITIAL, run), a)
    ensures Legal(INITIAL, run + [a]) && Exec(INITIAL, run + [a]) == Apply(Exec(INITIAL, run), a)
    ensures AllQuiet(run) && Quiet(a) ==> AllQuiet(run + [a])
  {
    Extend(INITIAL, run, a);
  }

  // ─── Dispatch ───────────────────────────────────────────────────────────────

  function Members(types: seq<AgentType>): set<AgentType> { set x | x in types }

  lemma NextMember(types: seq<AgentType>, k: nat)
    requires k < |types|
    ensures Members(types[..k + 1]) == Members(types[..k]) + {types[k]}
  {
    assert types[..k + 1] == types[..k] + [types[k]];
  }

  function TasksFor(types: seq<AgentType>, epoch: nat): set<Task> {
    set t | t in types :: Task(t, epoch)
  }

  lemma NextTask(types: seq<AgentType>, epoch: nat, k: nat)
    requires k < |types|
    ensures TasksFor(types[..k + 1], epoch) == TasksFor(types[..k], epoch) + {Task(types[k], epoch)}
  {
    assert types[..k + 1] == types[..k] + [types[k]];
  }

  /** The orchestrator p has dispatched the first k of the agents it selected. */
  ghost predicate Dispatching(s: State, t: State, p: nat, types: seq<AgentType>, k: nat)
    requires k <= |types|
  {
    && t.redis == s.redis.(expected := s.redis.expected + Members(types))
    && t.db == s.db.(status := Running)
    && t.broker == s.broker.(tasks := s.broker.tasks + TasksFor(types[..k], s.redis.epoch))
    && t.past == s.past && t.handlers == s.handlers && t.syntheses == s.syntheses && t.gateways == s.gateways
    && t.orchestrators.Keys == s.orchestrators.Keys + {p} && t.orchestrators[p].remaining == types[k..] && t.orchestrators[p].epoch == s.redis.epoch
    && t.orchestrators[p].pc == (if k == |types| then Settled else OrchestratorPc.Dispatch)
  }

  lemma DispatchNext(s: State, t: State, p: nat, types: seq<AgentType>, k: nat)
    requires k < |types| && Dispatching(s, t, p, types, k)
    ensures Enabled(t, OrchestratorStep(p, Go)) && Dispatching(s, Apply(t, OrchestratorStep(p, Go)), p, types, k + 1)
  {
    NextTask(types, s.redis.epoch, k);
  }

  /** The orchestrator p on its way there: the program counter, and the work done for it. */
  ghost predicate Preparing(s: State, t: State, p: nat, types: seq<AgentType>, j: nat) {
    && t.redis == s.redis && t.broker == s.broker && t.past == s.past
    && t.db == (if j <= 1 then s.db else s.db.(status := Running))
    && t.handlers == s.handlers && t.syntheses == s.syntheses && t.gateways == s.gateways
    && t.orchestrators.Keys == s.orchestrators.Keys + {p} && t.orchestrators[p].request == Request(Some(s.redis.epoch), [])
    && t.orchestrators[p].pc == (if j == 0 then ReadEpoch else if j == 1 then MarkRunning else if j == 2 then Index else AddExpected)
    && (j > 0 ==> t.orchestrators[p].epoch == s.redis.epoch)
    && (j == 3 ==> t.orchestrators[p].selected == types)
  }

  function PrepareEvent(j: nat, hasManifest: bool): OrchestratorEvent { if j == 2 then Indexed(hasManifest) else Go }

  lemma PrepareNext(s: State, t: State, p: nat, hasManifest: bool, j: nat)
    requires j < 3 && Preparing(s, t, p, SelectAgents(hasManifest), j)
    ensures Enabled(t, OrchestratorStep(p, PrepareEvent(j, hasManifest)))
    ensures Preparing(s, Apply(t, OrchestratorStep(p, PrepareEvent(j, hasManifest))), p, SelectAgents(hasManifest), j + 1)
  {
  }

  lemma ExpectNext(s: State, t: State, p: nat, hasManifest: bool)
    requires Preparing(s, t, p, SelectAgents(hasManifest), 3)
    ensures Enabled(t, OrchestratorStep(p, Go))
    ensures Dispatching(s, Apply(t, OrchestratorStep(p, Go)), p, SelectAgents(hasManifest), 0)
  {
    assert TasksFor(SelectAgents(hasManifest)[..0], s.redis.epoch) == {};
  }

  lemma PrepareMore(s: State, run: seq<Action>, p: nat, hasManifest: bool, j: nat)
    requires Legal(INITIAL, run) && AllQuiet(run) && j < 3
    requires Preparing(s, Exec(INITIAL, run), p, SelectAgents(hasManifest), j)
    ensures var more := run + [OrchestratorStep(p, PrepareEvent(j, hasManifest))];
            Legal(INITIAL, more) && AllQuiet(more) && Preparing(s, Exec(INITIAL, more), p, SelectAgents(hasManifest), j + 1)
  {
    PrepareNext(s, Exec(INITIAL, run), p, hasManifest, j);
    Step(run, OrchestratorStep(p, PrepareEvent(j, hasManifest)));
  }

  lemma Prepare(start: seq<Action>, p: nat, hasManifest: bool) returns (run: seq<Action>)
    requires Legal(INITIAL, start) && AllQuiet(start)
    requires var s := Exec(INITIAL, start); p !in s.orchestrators && Request(Some(s.redis.epoch), []) in s.broker.requests
    ensures Legal(INITIAL, run) && AllQuiet(run)
    ensures Dispatching(Exec(INITIAL, start), Exec(INITIAL, run), p, SelectAgents(hasManifest), 0)
  {
    ghost var s := Exec(INITIAL, start);
    run := start + [Consume(p, Request(Some(s.redis.epoch), []))];
    Step(start, Consume(p, Request(Some(s.redis.epoch), [])));
    for j := 0 to 3
      invariant Legal(INITIAL, run) && AllQuiet(run)
      invariant Preparing(s, Exec(INITIAL, run), p, SelectAgents(hasManifest), j)
    {
      PrepareMore(s, run, p, hasManifest, j);
      run := run + [OrchestratorStep(p, PrepareEvent(j, hasManifest))];
    }
    ExpectNext(s, Exec(INITIAL, run), p, hasManifest);
    Step(run, OrchestratorStep(p, Go));
    run := run + [OrchestratorStep(p, Go)];
  }

  /** The orchestrator p takes the job's current request and dispatches all its agents. */
  lemma DispatchAll(start: seq<Action>, p: nat, hasManifest: bool) returns (run: seq<Action>)
    requires Legal(INITIAL, start) && AllQuiet(start)
    requires var s := Exec(INITIAL, start); p !in s.orchestrators && Request(Some(s.redis.epoch), []) in s.broker.requests
    ensures Legal(INITIAL, run) && AllQuiet(run)
    ensures Dispatching(Exec(INITIAL, start), Exec(INITIAL, run), p, SelectAgents(hasManifest), |SelectAgents(hasManifest)|)
  {
    ghost var s := Exec(INITIAL, start);
    var types := SelectAgents(hasManifest);
    run := Prepare(start, p, hasManifest);
    for k := 0 to |types|
      invariant Legal(INITIAL, run) && AllQuiet(run) && Dispatching(s, Exec(INITIAL, run), p, types, k)
    {
      DispatchNext(s, Exec(INITIAL, run), p, types, k);
      Step(run, OrchestratorStep(p, Go));
      run := run + [OrchestratorStep(p, Go)];
    }
  }

  // ─── A retry dispatched ─────────────────────────────────────────────────────

  function Goes(p: nat, n: nat): seq<Action> { if n == 0 then [] else [OrchestratorStep(p, Go)] + Goes(p, n - 1) }

  /** An orchestrator at work has dispatched these agents, and that is all it has changed. */
  ghost predicate OnlyDispatched(s: State, t: State, types: seq<AgentType>, epoch: nat) {
    && t.redis == s.redis && t.db == s.db && t.broker == s.broker.(tasks := s.broker.tasks + TasksFor(types, epoch))
    && t.past == s.past && t.handlers == s.handlers && t.syntheses == s.syntheses && t.gateways == s.gateways
  }

  lemma OneDispatched(s: State, p: nat)
    requires p in s.orchestrators && s.orchestrators[p].pc == OrchestratorPc.Dispatch && s.orchestrators[p].remaining != []
    ensures Enabled(s, OrchestratorStep(p, Go))
    ensures
      var o, t := s.orchestrators[p], Apply(s, OrchestratorStep(p, Go));
      && OnlyDispatched(s, t, [o.remaining[0]], o.epoch)
      && p in t.orchestrators
      && t.orchestrators[p] == o.(remaining := o.remaining[1..], pc := if |o.remaining| == 1 then Settled else o.pc)
  {
    assert TasksFor([s.orchestrators[p].remaining[0]], s.orchestrators[p].epoch)
        == {Task(s.orchestrators[p].remaining[0], s.orchestrators[p].epoch)};
  }

  lemma BothDispatched(s: State, t: State, u: State, first: seq<AgentType>, rest: seq<AgentType>, epoch: nat)
    requires OnlyDispatched(s, t, first, epoch) && OnlyDispatched(t, u, rest, epoch)
    ensures OnlyDispatched(s, u, first + rest, epoch)
  {
    assert TasksFor(first + rest, epoch) == TasksFor(first, epoch) + TasksFor(rest, epoch);
  }

  /** Whatever is left to dispatch is dispatched, agent by agent, and then the request is settled. */
  lemma {:induction false} DispatchRest(s: State, p: nat)
    requires p in s.orchestrators && s.orchestrators[p].pc == OrchestratorPc.Dispatch && s.orchestrators[p].remaining != []
    ensures var o := s.orchestrators[p];
            && Legal(s, Goes(p, |o.remaining|))
            && OnlyDispatched(s, Exec(s, Goes(p, |o.remaining|)), o.remaining, o.epoch)
            && var t := Exec(s, Goes(p, |o.remaining|)); p in t.orchestrators && t.orchestrators[p].pc == Settled
    decreases |s.orchestrators[p].remaining|
  {
    var o, go := s.orchestrators[p], OrchestratorStep(p, Go);
    var t, n := Apply(s, go), |o.remaining|;
    OneDispatched(s, p);
    if n == 1 {
      One(s, go);
      assert Goes(p, 1) == [go] && [o.remaining[0]] == o.remaining;
    } else {
      DispatchRest(t, p);
      FirstThen(s, go, Goes(p, n - 1));
      BothDispatched(s, t, Exec(t, Goes(p, n - 1)), [o.remaining[0]], o.remaining[1..], o.epoch);
      assert [o.remaining[0]] + o.remaining[1..] == o.remaining;
    }
  }

  function RetryPath(p: nat, request: Request, hasManifest: bool): seq<Action> {
    [Consume(p, request)]
    + ([OrchestratorStep(p, Go)]
       + ([OrchestratorStep(p, Go)] + [OrchestratorStep(p, Indexed(hasManifest))]))
  }

  lemma FirstThen(s: State, a: Action, rest: seq<Action>)
    requires Enabled(s, a) && Legal(Apply(s, a), rest)
    ensures Legal(s, [a] + rest) && Exec(s, [a] + rest) == Exec(Apply(s, a), rest)
  {
    assert ([a] + rest)[0] == a && ([a] + rest)[1..] == rest;
  }

  lemma One(s: State, a: Action)
    requires Enabled(s, a)
    ensures Legal(s, [a]) && Exec(s, [a]) == Apply(s, a)
  {
    assert [a][1..] == [];
  }

  /** A request that names agents is indexed like any other, but neither selects nor expects
      anything: it is the named agents that are dispatched. */
  lemma RetryPrepares(s: State, p: nat, types: seq<AgentType>, hasManifest: bool)
    requires p !in s.orchestrators && types != [] && Request(Some(s.redis.epoch), types) in s.broker.requests
    ensures
      var run := RetryPath(p, Request(Some(s.redis.epoch), types), hasManifest);
      && Legal(s, run)
      && var t := Exec(s, run);
         && OnlyDispatched(s.(db := s.db.(status := Running)), t, [], 0)
         && p in t.orchestrators && t.orchestrators[p].pc == OrchestratorPc.Dispatch
         && t.orchestrators[p].remaining == types && t.orchestrators[p].epoch == s.redis.epoch
  {
    var request := Request(Some(s.redis.epoch), types);
    var go, indexed := OrchestratorStep(p, Go), OrchestratorStep(p, Indexed(hasManifest));
    var a := Apply(s, Consume(p, request));
    var b := Apply(a, go);
    var c := Apply(b, go);
    One(c, indexed);
    FirstThen(b, go, [indexed]);
    FirstThen(a, go, [go] + [indexed]);
    FirstThen(s, Consume(p, request), [go] + ([go] + [indexed]));
    assert TasksFor([], 0) == {};
  }

  /** So the agents of a retry, and no others, are dispatched again, in the job's current epoch. */
  lemma RetryDispatched(s: State, p: nat, types: seq<AgentType>, hasManifest: bool) returns (run: seq<Action>)
    requires p !in s.orchestrators && types != [] && Request(Some(s.redis.epoch), types) in s.broker.requests
    ensures Legal(s, run) && OnlyDispatched(s.(db := s.db.(status := Running)), Exec(s, run), types, s.redis.epoch)
    ensures p in Exec(s, run).orchestrators && Exec(s, run).orchestrators[p].pc == Settled
  {
    var prepared := RetryPath(p, Request(Some(s.redis.epoch), types), hasManifest);
    RetryPrepares(s, p, types, hasManifest);
    var t := Exec(s, prepared);
    DispatchRest(t, p);
    Concat(s, prepared, Goes(p, |types|));
    run := prepared + Goes(p, |types|);
  }

  // ─── One message handled ────────────────────────────────────────────────────

  /** The program counters of a handler whose agent succeeds on its first turn. */
  function HandlerPath(i: nat): HandlerPc {
    if i == 0 then PreFence else if i == 1 then CostCap else if i == 2 then CheckAlive else if i == 3 then CallModel
    else if i == 4 then TurnDone else if i == 5 then CountTokens else if i == 6 then InsertRow else if i == 7 then AddDone
    else if i == 8 then ReadDone else if i == 9 then ReadExpected else Progress
  }

  function Push(i: nat): HandlerEvent { if i == 4 then Stop(true) else Proceed }

  /** The stores after i commands. */
  ghost predicate Written(s: State, redis: Redis, db: Database, task: Task, i: nat) {
    && redis == (if i <= 7 then s.redis else s.redis.(done := s.redis.done + {task.agentType}))
    && db == (if i <= 6 then s.db else s.db.(rows := s.db.rows + [Row(task.agentType, true)]))
  }

  predicate SamePast(past: Past, later: Past) { later.dropped == past.dropped && later.stamps == past.stamps }

  /** What the handler p has done to s after i commands. */
  ghost predicate Handling(s: State, t: State, p: nat, task: Task, i: nat) {
    && Written(s, t.redis, t.db, task, i) && t.broker == s.broker && SamePast(s.past, t.past)
    && t.orchestrators == s.orchestrators && t.syntheses == s.syntheses && t.gateways == s.gateways
    && t.handlers.Keys == s.handlers.Keys + {p}
    && HandlerAt(t.handlers[p], t.redis, task, i)
  }

  ghost predicate HandlerAt(h: Handler, r: Redis, task: Task, i: nat) {
    && h.pc == HandlerPath(i) && h.task == task && !h.deadLetter && (i >= 5 ==> h.success)
    && (i >= 9 ==> h.doneSeen == r.done)
    && (i >= 10 ==> (h.full <==> |r.done| >= |r.expected|))
  }

  lemma HandlerMoves(s: State, h: Handler, task: Task, i: nat)
    requires i < 10 && HandlerAt(h, s.redis, task, i) && task.epoch == s.redis.epoch
    ensures HandlerEnabled(h, Push(i))
    ensures HandlerAt(HandlerNext(s, h, Push(i)), HandlerRedis(s.redis, h, Push(i)), task, i + 1)
  {
  }

  lemma HandlerWrites(s: State, t: State, h: Handler, task: Task, i: nat)
    requires i < 10 && HandlerAt(h, t.redis, task, i) && Written(s, t.redis, t.db, task, i)
    ensures Written(s, HandlerRedis(t.redis, h, Push(i)), HandlerDatabase(t.db, h, Push(i)), task, i + 1)
    ensures HandlerBroker(t.broker, h, Push(i)) == t.broker && SamePast(t.past, HandlerPast(t, h, Push(i)))
  {
  }

  lemma HandleNext(s: State, t: State, p: nat, task: Task, i: nat)
    requires i < 10 && Handling(s, t, p, task, i) && task.epoch == s.redis.epoch
    ensures Enabled(t, HandlerStep(p, Push(i))) && Handling(s, Apply(t, HandlerStep(p, Push(i))), p, task, i + 1)
  {
    HandlerMoves(t, t.handlers[p], task, i);
    HandlerWrites(s, t, t.handlers[p], task, i);
  }

  /** A run in which the worker p has issued i commands, and one more. */
  lemma HandleMore(s: State, run: seq<Action>, p: nat, task: Task, i: nat)
    requires Legal(INITIAL, run) && AllQuiet(run) && i < 10 && Handling(s, Exec(INITIAL, run), p, task, i)
    requires task.epoch == s.redis.epoch
    ensures var more := run + [HandlerStep(p, Push(i))];
            Legal(INITIAL, more) && AllQuiet(more) && Handling(s, Exec(INITIAL, more), p, task, i + 1)
  {
    HandleNext(s, Exec(INITIAL, run), p, task, i);
    Step(run, HandlerStep(p, Push(i)));
  }

  /** The worker p takes the task and issues its first n commands. */
  lemma Handle(start: seq<Action>, p: nat, task: Task, n: nat) returns (run: seq<Action>)
    requires Legal(INITIAL, start) && AllQuiet(start) && n <= 10
    requires var s := Exec(INITIAL, start); p !in s.handlers && task in s.broker.tasks && task.epoch == s.redis.epoch
    ensures Legal(INITIAL, run) && AllQuiet(run)
    ensures Handling(Exec(INITIAL, start), Exec(INITIAL, run), p, task, n)
  {
    ghost var s := Exec(INITIAL, start);
    Step(start, Deliver(p, task));
    run := start + [Deliver(p, task)];
    for i := 0 to n
      invariant Legal(INITIAL, run) && AllQuiet(run) && Handling(s, Exec(INITIAL, run), p, task, i)
    {
      HandleMore(s, run, p, task, i);
      run := run + [HandlerStep(p, Push(i))];
    }
  }

  /** A whole first run without mishap: four agents dispatched, four rows, and the last
      handler publishes. */
  ghost predicate IsReady(s: State) {
    && s.broker.ready && s.redis.lock.None? && s.redis.epoch == 0
    && s.redis.done == s.redis.expected == Four()
    && s.db.status.Running? && s.db.reports == 0
    && s.db.rows == Successes(SelectAgents(false))
    && s.syntheses == map[] && s.gateways == map[] && s.orchestrators.Keys == {0} && !s.past.dropped
    && Request(Some(0), []) in s.broker.requests
  }

  function Successes(types: seq<AgentType>): (r: seq<Row>)
    ensures |r| == |types| && forall i | 0 <= i < |types| :: r[i] == Row(types[i], true)
  {
    seq(|types|, i requires 0 <= i < |types| => Row(types[i], true))
  }

  function Four(): set<AgentType> { {Architecture, Security, Quality, Docs} }

  lemma SelectedFour()
    ensures Members(SelectAgents(false)) == Four()
    ensures forall x | x in Four() :: Task(x, 0) in TasksFor(SelectAgents(false), 0)
  {
    assert SelectAgents(false)[0] == Architecture && SelectAgents(false)[1] == Security;
    assert SelectAgents(false)[2] == Quality && SelectAgents(false)[3] == Docs;
  }

  lemma AllFour()
    ensures SelectAgents(false)[..4] == SelectAgents(false) && Members(SelectAgents(false)[..4]) == Four()
  {
    SelectedFour();
    assert SelectAgents(false)[..4] == SelectAgents(false);
  }

  /** The agents are dispatched and nothing else has happened. */
  ghost predicate IsDispatched(s: State) {
    && s.redis == INITIAL.redis.(expected := Four()) && s.db == INITIAL.db.(status := Running)
    && s.broker == Broker({Request(Some(0), [])}, TasksFor(SelectAgents(false), 0), false)
    && s.handlers == map[] && s.syntheses == map[] && s.gateways == map[] && s.orchestrators.Keys == {0}
    && !s.past.dropped
  }

  lemma DispatchedRun() returns (run: seq<Action>)
    ensures Legal(INITIAL, run) && AllQuiet(run) && IsDispatched(Exec(INITIAL, run))
  {
    run := DispatchAll([], 0, false);
    SelectedFour();
    assert SelectAgents(false)[..4] == SelectAgents(false);
    assert {} + Four() == Four() && {} + TasksFor(SelectAgents(false), 0) == TasksFor(SelectAgents(false), 0);
  }

  /** The first k of the four agents have been handled, each but for its last publishes. */
  ghost predicate Handled(s: State, k: nat)
    requires k <= 4
  {
    var types := SelectAgents(false);
    && s.redis == Redis(0, Members(types[..k]), Four(), None)
    && s.db == Database(Running, Successes(types[..k]), 0)
    && s.broker == Broker({Request(Some(0), [])}, TasksFor(types, 0), false)
    && (forall p | p in s.handlers :: p < k) && s.syntheses == map[] && s.gateways == map[] && s.orchestrators.Keys == {0}
    && !s.past.dropped
  }

  lemma NextSuccess(types: seq<AgentType>, k: nat)
    requires k < |types|
    ensures Successes(types[..k + 1]) == Successes(types[..k]) + [Row(types[k], true)]
  {
    assert types[..k + 1] == types[..k] + [types[k]];
  }

  lemma HandledNext(s: State, t: State, k: nat)
    requires k < 4 && Handled(s, k) && Handling(s, t, k, Task(SelectAgents(false)[k], 0), 10)
    ensures Handled(t, k + 1)
  {
    NextSuccess(SelectAgents(false), k);
    NextMember(SelectAgents(false), k);
  }

  lemma AllDone(s: State)
    requires Handled(s, 4)
    ensures s.redis.done == s.redis.expected
  {
    AllFour();
  }

  lemma CountsFull(h: Handler, r: Redis, task: Task)
    requires HandlerAt(h, r, task, 10) && r.done == r.expected
    ensures h.pc.Progress? && h.full
  {
  }

  lemma NoneHandled(s: State)
    requires IsDispatched(s)
    ensures Handled(s, 0)
  {
    assert Successes(SelectAgents(false)[..0]) == [] && Members(SelectAgents(false)[..0]) == {};
  }

  /** ready_for_synthesis has been published, and no store has changed. */
  ghost predicate OnlyPublished(s: State, t: State) {
    && t.redis == s.redis && t.db == s.db && t.broker == s.broker.(ready := true)
    && t.orchestrators == s.orchestrators && t.syntheses == s.syntheses && t.gateways == s.gateways
    && t.past.dropped == s.past.dropped
  }

  lemma AllHandled(s: State, t: State)
    requires Handled(s, 4) && OnlyPublished(s, t)
    ensures IsReady(t)
  {
    AllFour();
  }

  lemma CanHandle(s: State, k: nat)
    requires k < 4 && Handled(s, k)
    ensures k !in s.handlers && Task(SelectAgents(false)[k], 0) in s.broker.tasks && s.redis.epoch == 0
  {
    assert SelectAgents(false)[k] in SelectAgents(false);
  }

  lemma HandleOne(start: seq<Action>, k: nat) returns (run: seq<Action>)
    requires Legal(INITIAL, start) && AllQuiet(start) && k < 4 && Handled(Exec(INITIAL, start), k)
    ensures Legal(INITIAL, run) && AllQuiet(run) && Handled(Exec(INITIAL, run), k + 1)
  {
    CanHandle(Exec(INITIAL, start), k);
    run := Handle(start, k, Task(SelectAgents(false)[k], 0), 10);
    HandledNext(Exec(INITIAL, start), Exec(INITIAL, run), k);
  }

  lemma LastHandled(s: State, t: State)
    requires Handled(s, 3) && Handling(s, t, 3, Task(SelectAgents(false)[3], 0), 10)
    ensures IsCounted(t)
  {
    HandledNext(s, t, 3);
    AllDone(t);
    CountsFull(t.handlers[3], t.redis, Task(SelectAgents(false)[3], 0));
  }

  /** All four are handled, and the last has found the count complete. */
  ghost predicate IsCounted(s: State) {
    Handled(s, 4) && 3 in s.handlers && s.handlers[3].pc.Progress? && s.handlers[3].full
  }

  lemma HandleLast(start: seq<Action>) returns (run: seq<Action>)
    requires Legal(INITIAL, start) && AllQuiet(start) && Handled(Exec(INITIAL, start), 3)
    ensures Legal(INITIAL, run) && AllQuiet(run) && IsCounted(Exec(INITIAL, run))
  {
    CanHandle(Exec(INITIAL, start), 3);
    run := Handle(start, 3, Task(SelectAgents(false)[3], 0), 10);
    LastHandled(Exec(INITIAL, start), Exec(INITIAL, run));
  }

  lemma PublishLast(start: seq<Action>) returns (run: seq<Action>)
    requires Legal(INITIAL, start) && AllQuiet(start) && IsCounted(Exec(INITIAL, start))
    ensures Legal(INITIAL, run) && AllQuiet(run) && IsReady(Exec(INITIAL, run))
  {
    run := Publish(start, 3);
    AllHandled(Exec(INITIAL, start), Exec(INITIAL, run));
  }

  lemma CountedRun() returns (run: seq<Action>)
    ensures Legal(INITIAL, run) && AllQuiet(run) && IsCounted(Exec(INITIAL, run))
  {
    run := DispatchedRun();
    NoneHandled(Exec(INITIAL, run));
    run := HandleOne(run, 0);
    run := HandleOne(run, 1);
    run := HandleOne(run, 2);
    run := HandleLast(run);
  }

  lemma ReadyRun() returns (run: seq<Action>)
    ensures Legal(INITIAL, run) && AllQuiet(run) && IsReady(Exec(INITIAL, run))
  {
    run := CountedRun();
    run := PublishLast(run);
  }

  /** A handler whose count was complete goes on to publish. */
  lemma Publish(start: seq<Action>, p: nat) returns (run: seq<Action>)
    requires Legal(INITIAL, start) && AllQuiet(start)
    requires var s := Exec(INITIAL, start); p in s.handlers && s.handlers[p].pc.Progress? && s.handlers[p].full
    ensures Legal(INITIAL, run) && AllQuiet(run)
    ensures OnlyPublished(Exec(INITIAL, start), Exec(INITIAL, run))
  {
    Step(start, HandlerStep(p, Proceed));
    run := start + [HandlerStep(p, Proceed)];
    Step(run, HandlerStep(p, Proceed));
    run := run + [HandlerStep(p, Proceed)];
  }

  // ─── One synthesis ──────────────────────────────────────────────────────────

  /** The program counters of a synthesis that succeeds. */
  function SynthesisPath(i: nat): SynthesisPc {
    if i == 0 then Claim else if i == 1 then CheckReport else if i == 2 then CheckStatus
    else if i == 3 then LoadRows else if i == 4 then CallSonnet else if i == 5 then CreateReport
    else if i == 6 then MarkDone else DropCounters
  }

  /** The stores after i commands. */
  ghost predicate Stored(s: State, redis: Redis, db: Database, q: nat, i: nat) {
    && redis == (if i == 0 then s.redis else s.redis.(lock := Some(q)))
    && db == (if i < 6 then s.db else if i < 7 then s.db.(reports := 1) else s.db.(reports := 1, status := Done))
  }

  /** What the synthesis q has done to s after i commands. */
  ghost predicate Synthesizing(s: State, t: State, q: nat, i: nat) {
    && t.syntheses.Keys == s.syntheses.Keys + {q} && t.syntheses[q].pc == SynthesisPath(i)
    && Stored(s, t.redis, t.db, q, i)
    && t.broker == s.broker && t.handlers == s.handlers && t.gateways == s.gateways && t.orchestrators == s.orchestrators
    && t.past == s.past
    && (forall p | p in s.syntheses && p != q :: t.syntheses[p] == s.syntheses[p])
  }

  /** What a synthesis needs in order to succeed. */
  ghost predicate CanSynthesize(s: State) {
    s.redis.lock.None? && s.db.reports == 0 && !s.db.status.Cancelled? && AnyLatestSucceeded(s.db.rows)
  }

  lemma SynthesisMoves(t: State, y: Synthesis, q: nat, i: nat)
    requires i < 7 && y.pc == SynthesisPath(i) && (i == 0 ==> t.redis.lock.None?) && (i < 6 ==> t.db.reports == 0)
    requires i < 7 ==> !t.db.status.Cancelled? && AnyLatestSucceeded(t.db.rows)
    ensures SynthesisNextPc(t, y, Continue) == SynthesisPath(i + 1)
    ensures SynthesisRedis(t.redis, q, y, Continue) == if i == 0 then t.redis.(lock := Some(q)) else t.redis
    ensures SynthesisDatabase(t.db, y, Continue)
            == if i == 5 then t.db.(reports := 1) else if i == 6 then t.db.(status := Done) else t.db
    ensures SynthesisPast(t, y, Continue) == t.past
  {
  }

  lemma StoresNext(s: State, t: State, y: Synthesis, q: nat, i: nat)
    requires i < 7 && CanSynthesize(s) && Stored(s, t.redis, t.db, q, i) && y.pc == SynthesisPath(i)
    ensures SynthesisNextPc(t, y, Continue) == SynthesisPath(i + 1)
    ensures Stored(s, SynthesisRedis(t.redis, q, y, Continue), SynthesisDatabase(t.db, y, Continue), q, i + 1)
    ensures SynthesisPast(t, y, Continue) == t.past
  {
    SynthesisMoves(t, y, q, i);
  }

  lemma SynthesizeNext(s: State, t: State, q: nat, i: nat)
    requires i < 7 && CanSynthesize(s) && Synthesizing(s, t, q, i)
    ensures Enabled(t, SynthesisStep(q, Continue)) && Synthesizing(s, Apply(t, SynthesisStep(q, Continue)), q, i + 1)
  {
    StoresNext(s, t, t.syntheses[q], q, i);
  }

  /** A wakeup q claims the free lock and issues its first n commands. */
  lemma Synthesize(start: seq<Action>, q: nat, n: nat) returns (run: seq<Action>)
    requires Legal(INITIAL, start) && n <= 7
    requires var s := Exec(INITIAL, start); CanSynthesize(s) && s.broker.ready && q !in s.syntheses
    ensures Legal(INITIAL, run) && (AllQuiet(start) ==> AllQuiet(run))
    ensures Synthesizing(Exec(INITIAL, start), Exec(INITIAL, run), q, n)
  {
    run := start + [Wake(q)];
    Step(start, Wake(q));
    run := SynthesizeOn(Exec(INITIAL, start), run, q, 0, n);
  }

  lemma SynthesizeMore(s: State, run: seq<Action>, q: nat, k: nat)
    requires Legal(INITIAL, run) && k < 7 && CanSynthesize(s) && Synthesizing(s, Exec(INITIAL, run), q, k)
    ensures var more := run + [SynthesisStep(q, Continue)];
            && Legal(INITIAL, more) && (AllQuiet(run) ==> AllQuiet(more))
            && Synthesizing(s, Exec(INITIAL, more), q, k + 1)
  {
    SynthesizeNext(s, Exec(INITIAL, run), q, k);
    Step(run, SynthesisStep(q, Continue));
  }

  /** A synthesis at command i goes on to command n. */
  lemma SynthesizeOn(s: State, start: seq<Action>, q: nat, i: nat, n: nat) returns (run: seq<Action>)
    requires Legal(INITIAL, start) && CanSynthesize(s) && i <= n <= 7 && Synthesizing(s, Exec(INITIAL, start), q, i)
    ensures start <= run && Legal(INITIAL, run) && (AllQuiet(start) ==> AllQuiet(run)) && Synthesizing(s, Exec(INITIAL, run), q, n)
  {
    run := start;
    for k := i to n
      invariant start <= run && Legal(INITIAL, run) && (AllQuiet(start) ==> AllQuiet(run)) && Synthesizing(s, Exec(INITIAL, run), q, k)
    {
      SynthesizeMore(s, run, q, k);
      run := run + [SynthesisStep(q, Continue)];
    }
  }

  // ─── A whole job ────────────────────────────────────────────────────────────

  /** Four agents always, and `dependency` with a manifest file; none twice. */
  lemma SelectedAre(hasManifest: bool, t: AgentType)
    ensures t in SelectAgents(hasManifest) <==> t != Dependency || hasManifest
    ensures Once(SelectAgents(hasManifest))
  {
    var four := [Architecture, Security, Quality, Docs];
    assert four[0] == Architecture && four[1] == Security && four[2] == Quality && four[3] == Docs;
    if hasManifest { assert SelectAgents(true)[4] == Dependency; }
  }

  /** The job is done, with its one report and one successful row of each of the four agents,
      and the counters are gone. */
  ghost predicate IsDone(s: State) {
    && s.db == Database(Done, [Row(Architecture, true), Row(Security, true), Row(Quality, true), Row(Docs, true)], 1)
    && s.redis.done == {} && s.redis.expected == {} && s.broker.ready
  }

  lemma ReadyRows(s: State)
    requires IsReady(s)
    ensures s.db.rows == [Row(Architecture, true), Row(Security, true), Row(Quality, true), Row(Docs, true)]
    ensures CanSynthesize(s)
  {
    LastIsKept(s.db.rows);
  }

  /** Rows that end in a success have a latest success. */
  lemma LastIsKept(rows: seq<Row>)
    requires rows != [] && rows[|rows| - 1].success
    ensures AnyLatestSucceeded(rows)
  {
    NewestIs(rows, {}, rows[|rows| - 1]);
    assert IsLast(rows, |rows| - 1);
  }

  /** From submission to the report, when nothing goes wrong: every command is enabled when its
      turn comes. */
  lemma JobSucceeds() returns (run: seq<Action>)
    ensures Legal(INITIAL, run) && AllQuiet(run) && IsDone(Exec(INITIAL, run))
  {
    run := ReadyRun();
    ghost var s := Exec(INITIAL, run);
    ReadyRows(s);
    run := Synthesize(run, 0, 7);
    Step(run, SynthesisStep(0, Continue));
    run := run + [SynthesisStep(0, Continue)];
  }

  // ─── A missed wakeup ────────────────────────────────────────────────────────

  /** Nothing but the program counter of a sweep, and what it has seen, has moved. */
  ghost predicate OnlySweeping(s: State, t: State, q: nat) {
    && t.redis == s.redis && t.db == s.db && t.broker == s.broker && t.handlers == s.handlers
    && t.orchestrators == s.orchestrators && t.gateways == s.gateways && t.past.dropped == s.past.dropped
    && t.past.stamps == s.past.stamps && q in t.syntheses && t.syntheses.Keys == s.syntheses.Keys + {q}
    && (forall p | p in s.syntheses && p != q :: t.syntheses[p] == s.syntheses[p])
  }

  function SweepRun(q: nat): seq<Action> {
    [SynthesisStep(q, Continue), SynthesisStep(q, Continue), SynthesisStep(q, Continue)]
  }

  predicate Sweeps(pc: SynthesisPc) { pc.SweepStatus? || pc.SweepDone? || pc.SweepExpected? }

  lemma SweepMoves(s: State, q: nat)
    requires q in s.syntheses && Sweeps(s.syntheses[q].pc)
    ensures Enabled(s, SynthesisStep(q, Continue)) && OnlySweeping(s, Apply(s, SynthesisStep(q, Continue)), q)
    ensures
      var y, next := s.syntheses[q], Apply(s, SynthesisStep(q, Continue)).syntheses[q];
      && next.doneSeen == (if y.pc.SweepDone? then s.redis.done else y.doneSeen)
      && next.pc == if y.pc.SweepStatus? then (if s.db.status.Running? then SweepDone else Ended)
                    else if y.pc.SweepDone? then SweepExpected
                    else if s.redis.expected == {} then SweepFallback
                    else if |y.doneSeen| < |s.redis.expected| then Ended else Claim
  {
  }

  lemma SweepingOn(s: State, t: State, u: State, q: nat)
    requires OnlySweeping(s, t, q) && OnlySweeping(t, u, q)
    ensures OnlySweeping(s, u, q)
  {
  }

  lemma ThreeSteps(s: State, a: Action)
    requires Enabled(s, a) && Enabled(Apply(s, a), a) && Enabled(Apply(Apply(s, a), a), a)
    ensures Legal(s, [a, a, a]) && Exec(s, [a, a, a]) == Apply(Apply(Apply(s, a), a), a)
  {
    var t, u := Apply(s, a), Apply(Apply(s, a), a);
    assert [a, a, a][1..] == [a, a] && [a, a][1..] == [a] && [a][1..] == [];
    assert Legal(u, [a]) && Exec(u, [a]) == Apply(u, a);
    assert Legal(t, [a, a]) && Exec(t, [a, a]) == Apply(u, a);
  }

  /** Undisturbed, a sweep takes up a running job exactly when its counters are there and
      complete, asks Postgres when they are gone, and leaves any other job alone. */
  lemma SweepDecides(s: State, q: nat)
    requires q in s.syntheses && s.syntheses[q].pc.SweepStatus?
    ensures !s.db.status.Running? ==> Apply(s, SynthesisStep(q, Continue)).syntheses[q].pc.Ended?
    ensures s.db.status.Running? ==> Legal(s, SweepRun(q)) && OnlySweeping(s, Exec(s, SweepRun(q)), q)
    ensures s.db.status.Running? ==>
              Exec(s, SweepRun(q)).syntheses[q].pc
              == if s.redis.expected == {} then SweepFallback else if |s.redis.done| < |s.redis.expected| then Ended else Claim
  {
    var a := SynthesisStep(q, Continue);
    SweepMoves(s, q);
    if s.db.status.Running? {
      var t := Apply(s, a);
      SweepMoves(t, q);
      var u := Apply(t, a);
      SweepMoves(u, q);
      ThreeSteps(s, a);
      SweepingOn(s, t, u, q);
      SweepingOn(s, u, Apply(u, a), q);
    }
  }

  /** When the counters are gone, an old job is taken up exactly when it has rows, and a young
      one never. */
  lemma FallbackDecides(s: State, q: nat)
    requires q in s.syntheses && s.syntheses[q].pc.SweepFallback?
    ensures Apply(s, SynthesisStep(q, OldEnough)).syntheses[q].pc == if s.db.rows == [] then Ended else Claim
    ensures Apply(s, SynthesisStep(q, Continue)).syntheses[q].pc.Ended?
  {
  }

  lemma ClaimSynthesizes(start: seq<Action>, q: nat) returns (run: seq<Action>)
    requires Legal(INITIAL, start)
    requires var s := Exec(INITIAL, start); CanSynthesize(s) && q in s.syntheses && s.syntheses[q].pc.Claim?
    ensures start <= run && Legal(INITIAL, run)
    ensures var s, t := Exec(INITIAL, start), Exec(INITIAL, run);
            t.db == s.db.(reports := 1, status := Done) && t.broker == s.broker
  {
    run := SynthesizeOn(Exec(INITIAL, start), start, q, 0, 7);
  }

  /** A job whose agents are done and whose wakeup nobody heard is recovered: a sweep is enough
      to bring it to its report. */
  lemma SweepRecovers(start: seq<Action>, q: nat) returns (run: seq<Action>)
    requires Legal(INITIAL, start) && q !in Exec(INITIAL, start).syntheses
    requires var s := Exec(INITIAL, start);
             && CanSynthesize(s) && s.db.status.Running?
             && s.redis.expected != {} && |s.redis.done| >= |s.redis.expected|
    ensures start < run && Legal(INITIAL, run)
    ensures var s, t := Exec(INITIAL, start), Exec(INITIAL, run);
            t.db == s.db.(reports := 1, status := Done) && t.broker == s.broker
  {
    Step(start, Sweep(q));
    run := start + [Sweep(q)];
    SweepDecides(Exec(INITIAL, run), q);
    Concat(INITIAL, run, SweepRun(q));
    run := run + SweepRun(q);
    run := ClaimSynthesizes(run, q);
  }

  // ─── One force-stop ─────────────────────────────────────────────────────────

  function ForceStopPath(i: nat): GatewayPc {
    if i == 0 then Guard else if i == 1 then Bump else if i == 2 then Wipe
    else if i == 3 then SetStatus else if i == 4 then Emit else Replied
  }

  /** What the force-stop g has done to s after i commands. */
  ghost predicate ForceStopping(s: State, t: State, g: nat, i: nat) {
    && t.redis == (if i < 2 then s.redis
                   else if i == 2 then s.redis.(epoch := s.redis.epoch + 1)
                   else Redis(s.redis.epoch + 1, {}, {}, None))
    && t.db == (if i < 4 then s.db else s.db.(status := Pending))
    && t.broker == (if i < 5 then s.broker
                    else s.broker.(requests := s.broker.requests + {Request(Some(s.redis.epoch + 1), [])}))
    && t.handlers == s.handlers && t.syntheses == s.syntheses && t.orchestrators == s.orchestrators
    && t.past.dropped == s.past.dropped
    && g in t.gateways && t.gateways[g].operation.ForceStop? && t.gateways[g].retry == []
    && t.gateways[g].pc == ForceStopPath(i) && (i >= 2 ==> t.gateways[g].epoch == s.redis.epoch + 1)
  }

  lemma ForceStopNext(s: State, t: State, g: nat, i: nat)
    requires i < 5 && ForceStopping(s, t, g, i)
    ensures Enabled(t, GatewayStep(g)) && ForceStopping(s, Apply(t, GatewayStep(g)), g, i + 1)
  {
  }

  /** A force-stop g arrives and issues its first n commands. */
  lemma ForceStopRun(s: State, g: nat, n: nat) returns (run: seq<Action>)
    requires n <= 5 && g !in s.gateways
    ensures Legal(s, run) && ForceStopping(s, Exec(s, run), g, n)
  {
    Extend(s, [], Call(g, ForceStop));
    run := [] + [Call(g, ForceStop)];
    for i := 0 to n
      invariant Legal(s, run) && ForceStopping(s, Exec(s, run), g, i)
    {
      ForceStopNext(s, Exec(s, run), g, i);
      Extend(s, run, GatewayStep(g));
      run := run + [GatewayStep(g)];
    }
  }
}
