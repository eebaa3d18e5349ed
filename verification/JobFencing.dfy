/**
 Epoch fencing over whole runs: any number of force-stops, cancels, retries, crashes,
 redeliveries and failing commands.
 */
module JobFencing {
  import opened Common
  import opened Seqs
  import opened AgentTypes
  import opened LatestRows
  import opened JobMachine
  import opened JobRuns

  /** A gateway call that has bumped the epoch. */
  predicate Bumped(g: Gateway) {
    g.operation.ForceStop? && (g.pc.Wipe? || g.pc.SetStatus? || g.pc.Emit? || g.pc.Replied?)
  }

  /** Nothing in the system carries an epoch above the current one. */
  ghost predicate EpochsBounded(s: State) {
    && (forall r | r in s.broker.requests && r.epoch.Some? :: r.epoch.value <= s.redis.epoch)
    && (forall t | t in s.broker.tasks :: t.epoch <= s.redis.epoch)
    && (forall p | p in s.orchestrators ::
          && s.orchestrators[p].epoch <= s.redis.epoch
          && s.orchestrators[p].request.epoch.GetOr(0) <= s.redis.epoch)
    && (forall p | p in s.gateways :: s.gateways[p].epoch <= s.redis.epoch)
  }

  /** Force-stops stamp ever larger epochs, and no two of them hold the same one. */
  ghost predicate StampsHeld(stamps: seq<nat>, epoch: nat, gateways: map<nat, Gateway>) {
    && Increasing(stamps)
    && (forall e | e in stamps :: e <= epoch)
    && (forall p, q | p in gateways && q in gateways && p != q && Bumped(gateways[p]) && Bumped(gateways[q]) ::
          gateways[p].epoch != gateways[q].epoch)
    && (forall p | p in gateways && gateways[p].operation.ForceStop? :: !gateways[p].pc.StampEpoch?)
    && (forall p | p in gateways && Bumped(gateways[p]) :: gateways[p].epoch in stamps)
  }

  ghost predicate StampsUnique(s: State) {
    StampsHeld(s.past.stamps, s.redis.epoch, s.gateways)
  }

  /** The last fence read of this handler returned its own epoch. */
  predicate Passed(h: Handler) { h.lastFence == Some(h.task.epoch) && !h.fenceReadFailed }

  /** The pre-flight read threw, and nothing else happened before the catch path. */
  predicate Unfenced(h: Handler) {
    h.lastFence.None? && h.fenceReadFailed && h.infra && h.callsSince == 0
  }

  /** From the insert of the row to the end of the bookkeeping. */
  predicate Recording(h: Handler) {
    h.pc.InsertRow? || PastInsert(h)
  }

  /** What the fence guarantees about one handler, given the current epoch. */
  predicate FenceHolds(epoch: nat, h: Handler) {
    && h.task.epoch <= epoch
    && h.callsSince <= 1
    && h.staleCalls <= 1
    && (h.staleCalls == 1 ==> h.task.epoch < epoch)
    && ((h.pc.CostCap? || h.pc.CheckAlive? || h.pc.CallModel? || h.pc.TurnDone? || h.pc.CountTokens?) ==> Passed(h) && !h.recorded)
    && (Recording(h) ==> Passed(h) || Unfenced(h))
    && ((h.pc.PreFence? || h.pc.CostCap? || h.pc.CallModel?) ==> h.callsSince == 0 && h.staleCalls == 0)
    && (h.pc.PreFence? ==> h.lastFence.None? && !h.fenceReadFailed)
    && ((h.pc.PreFence? || h.pc.Fenced?) ==> !h.recorded)
  }

  ghost predicate FencesHold(s: State) {
    forall p | p in s.handlers :: FenceHolds(s.redis.epoch, s.handlers[p])
  }

  ghost predicate FenceInv(s: State) {
    EpochsBounded(s) && StampsUnique(s) && FencesHold(s)
  }

  // ─── Preservation ───────────────────────────────────────────────────────────

  lemma EarlyKeepsFence(s: State, h: Handler)
    requires FenceHolds(s.redis.epoch, h) && Early(h)
    ensures FenceHolds(s.redis.epoch, Advance(s, h))
  {
  }

  /** Same message, same history of fence reads and calls. */
  predicate SameFencing(h: Handler, next: Handler) {
    && next.task == h.task && next.lastFence == h.lastFence && next.fenceReadFailed == h.fenceReadFailed
    && next.infra == h.infra && next.callsSince == h.callsSince && next.staleCalls == h.staleCalls
  }

  lemma RecordingGoesOn(s: State, h: Handler)
    requires Recording(h)
    ensures Recording(Advance(s, h)) && SameFencing(h, Advance(s, h))
  {
  }

  lemma RecordingHolds(epoch: nat, h: Handler, next: Handler)
    requires FenceHolds(epoch, h) && Recording(h) && Recording(next) && SameFencing(h, next)
    ensures FenceHolds(epoch, next)
  {
  }

  lemma ThrowKeepsFence(s: State, h: Handler)
    requires FenceHolds(s.redis.epoch, h) && HandlerEnabled(h, CommandFails)
    ensures FenceHolds(s.redis.epoch, HandlerThrows(s, h))
  {
  }

  lemma HandlerKeepsFence(s: State, h: Handler, e: HandlerEvent)
    requires FenceHolds(s.redis.epoch, h) && HandlerEnabled(h, e)
    ensures FenceHolds(s.redis.epoch, HandlerNext(s, h, e))
  {
    if e.Proceed? {
      if Early(h) {
        EarlyKeepsFence(s, h);
      } else {
        RecordingGoesOn(s, h);
        RecordingHolds(s.redis.epoch, h, Advance(s, h));
      }
    } else if e.CommandFails? || e.CommandFailsAfter? {
      ThrowKeepsFence(s, h);
    }
  }

  lemma HandlerStepKeepsFence(s: State, p: nat, e: HandlerEvent)
    requires FenceInv(s) && Enabled(s, HandlerStep(p, e))
    ensures FenceInv(Apply(s, HandlerStep(p, e)))
  {
    var t := Apply(s, HandlerStep(p, e));
    assert FenceHolds(s.redis.epoch, s.handlers[p]);
    HandlerKeepsFence(s, s.handlers[p], e);
    assert t.redis.epoch == s.redis.epoch;
    assert t.past.stamps == s.past.stamps;
    assert EpochsBounded(t);
    assert StampsUnique(t);
    forall q | q in t.handlers ensures FenceHolds(t.redis.epoch, t.handlers[q]) {
      if q != p { assert FenceHolds(s.redis.epoch, s.handlers[q]); }
    }
  }

  lemma OrchestratorStepKeepsFence(s: State, p: nat, e: OrchestratorEvent)
    requires FenceInv(s) && Enabled(s, OrchestratorStep(p, e))
    ensures FenceInv(Apply(s, OrchestratorStep(p, e)))
  {
    var o := s.orchestrators[p];
    var t := Apply(s, OrchestratorStep(p, e));
    assert t.orchestrators[p].epoch <= s.redis.epoch && t.orchestrators[p].request == o.request;
    assert t.redis.epoch == s.redis.epoch;
    assert EpochsBounded(t);
    assert StampsUnique(t);
    assert FencesHold(t);
  }

  lemma IncreasingAppend(epochs: seq<nat>, e: nat)
    requires Increasing(epochs) && forall x | x in epochs :: x < e
    ensures Increasing(epochs + [e])
  {
    forall i, j | 0 <= i < j < |epochs + [e]| ensures (epochs + [e])[i] < (epochs + [e])[j] {
      if j == |epochs| { assert epochs[i] in epochs; }
    }
  }

  lemma GatewayHoldsStamp(s: State, g: Gateway)
    requires g.operation.ForceStop? ==> !g.pc.StampEpoch?
    ensures
      var next := GatewayNext(s, g);
      && next.operation == g.operation
      && (next.operation.ForceStop? ==> !next.pc.StampEpoch?)
      && (Bumped(next) ==> if g.pc.Bump? then next.epoch == s.redis.epoch + 1 else Bumped(g) && next.epoch == g.epoch)
  {
    match g.pc case Guard => case Bump => case Wipe => case SetStatus => case StampEpoch => case _ =>
  }

  lemma StampKept(stamps: seq<nat>, epoch: nat, epoch': nat, gateways: map<nat, Gateway>, p: nat, next: Gateway)
    requires StampsHeld(stamps, epoch, gateways) && p in gateways && epoch <= epoch'
    requires next.operation.ForceStop? ==> !next.pc.StampEpoch?
    requires Bumped(next) ==> Bumped(gateways[p]) && next.epoch == gateways[p].epoch
    ensures StampsHeld(stamps, epoch', gateways[p := next])
  {
  }

  lemma StampAdded(stamps: seq<nat>, epoch: nat, gateways: map<nat, Gateway>, p: nat, next: Gateway)
    requires StampsHeld(stamps, epoch, gateways) && p in gateways
    requires next.operation.ForceStop? && !next.pc.StampEpoch? && next.epoch == epoch + 1
    ensures StampsHeld(stamps + [epoch + 1], epoch + 1, gateways[p := next])
  {
    IncreasingAppend(stamps, epoch + 1);
    assert epoch + 1 in stamps + [epoch + 1];
    assert forall e | e in stamps :: e in stamps + [epoch + 1];
  }

  lemma GatewayStepKeepsStamps(s: State, p: nat)
    requires StampsUnique(s) && Enabled(s, GatewayStep(p))
    ensures StampsUnique(Apply(s, GatewayStep(p)))
  {
    var g := s.gateways[p];
    GatewayHoldsStamp(s, g);
    if g.pc.Bump? && g.operation.ForceStop? {
      StampAdded(s.past.stamps, s.redis.epoch, s.gateways, p, GatewayNext(s, g));
    } else {
      var epoch' := Apply(s, GatewayStep(p)).redis.epoch;
      StampKept(s.past.stamps, s.redis.epoch, epoch', s.gateways, p, GatewayNext(s, g));
    }
  }

  lemma FencesHoldLater(s: State, t: State)
    requires FencesHold(s) && s.redis.epoch <= t.redis.epoch
    requires forall p | p in t.handlers :: if p in s.handlers then t.handlers[p] == s.handlers[p]
                                           else FenceHolds(t.redis.epoch, t.handlers[p])
    ensures FencesHold(t)
  {
    forall q | q in t.handlers ensures FenceHolds(t.redis.epoch, t.handlers[q]) {
      if q in s.handlers { assert FenceHolds(s.redis.epoch, s.handlers[q]); }
    }
  }

  lemma GatewayStepKeepsEpochs(s: State, p: nat)
    requires EpochsBounded(s) && Enabled(s, GatewayStep(p))
    ensures EpochsBounded(Apply(s, GatewayStep(p))) && s.redis.epoch <= Apply(s, GatewayStep(p)).redis.epoch
  {
    var t := Apply(s, GatewayStep(p));
    assert s.redis.epoch <= t.redis.epoch && t.gateways[p].epoch <= t.redis.epoch;
  }

  lemma GatewayStepKeepsFence(s: State, p: nat)
    requires FenceInv(s) && Enabled(s, GatewayStep(p))
    ensures FenceInv(Apply(s, GatewayStep(p))) && s.redis.epoch <= Apply(s, GatewayStep(p)).redis.epoch
  {
    GatewayStepKeepsStamps(s, p);
    GatewayStepKeepsEpochs(s, p);
    FencesHoldLater(s, Apply(s, GatewayStep(p)));
  }

  lemma SpawnKeepsEpochs(s: State, a: Action)
    requires EpochsBounded(s) && Enabled(s, a) && !a.HandlerStep? && !a.OrchestratorStep? && !a.GatewayStep?
    ensures EpochsBounded(Apply(s, a)) && Apply(s, a).redis.epoch == s.redis.epoch
  {
  }

  lemma SpawnKeepsStamps(s: State, a: Action)
    requires StampsUnique(s) && Enabled(s, a) && !a.HandlerStep? && !a.OrchestratorStep? && !a.GatewayStep?
    ensures StampsUnique(Apply(s, a))
  {
  }

  lemma SpawnKeepsFence(s: State, a: Action)
    requires FenceInv(s) && Enabled(s, a)
    requires !a.HandlerStep? && !a.OrchestratorStep? && !a.GatewayStep?
    ensures FenceInv(Apply(s, a)) && Apply(s, a).redis.epoch == s.redis.epoch
  {
    SpawnKeepsEpochs(s, a);
    SpawnKeepsStamps(s, a);
    FencesHoldLater(s, Apply(s, a));
  }

  lemma StepKeepsFence(s: State, a: Action)
    requires FenceInv(s) && Enabled(s, a)
    ensures FenceInv(Apply(s, a)) && s.redis.epoch <= Apply(s, a).redis.epoch
  {
    match a
    case HandlerStep(p, e) => HandlerStepKeepsFence(s, p, e);
    case OrchestratorStep(p, e) => OrchestratorStepKeepsFence(s, p, e);
    case GatewayStep(p) => GatewayStepKeepsFence(s, p);
    case _ => SpawnKeepsFence(s, a);
  }

  lemma {:induction false} RunKeepsFence(s: State, run: seq<Action>)
    requires FenceInv(s) && Legal(s, run)
    ensures FenceInv(Exec(s, run)) && s.redis.epoch <= Exec(s, run).redis.epoch
    decreases |run|
  {
    if run == [] {
    } else {
      StepKeepsFence(s, run[0]);
      RunKeepsFence(Apply(s, run[0]), run[1..]);
    }
  }

  // ─── Main results ───────────────────────────────────────────────────────────

  /** In every reachable state no message or process carries an epoch above the current
      one, and force-stop epochs are strictly increasing and never shared. */
  lemma EpochsNeverAhead(run: seq<Action>)
    requires Legal(INITIAL, run)
    ensures EpochsBounded(Exec(INITIAL, run)) && StampsUnique(Exec(INITIAL, run))
  {
    RunKeepsFence(INITIAL, run);
  }

  /** Whenever a handler is about to SADD, its last fence read returned the epoch of its
      message with at most one LLM call since, unless and only unless its pre-flight read
      itself threw; then it has made no LLM call at all. */
  lemma AddDoneIsFenced(run: seq<Action>, p: nat)
    requires Legal(INITIAL, run)
    requires p in Exec(INITIAL, run).handlers && Exec(INITIAL, run).handlers[p].pc == AddDone
    ensures
      var h := Exec(INITIAL, run).handlers[p];
      && (h.lastFence == Some(h.task.epoch) <==> !h.fenceReadFailed)
      && h.callsSince <= (if h.fenceReadFailed then 0 else 1)
  {
    RunKeepsFence(INITIAL, run);
    assert FenceHolds(Exec(INITIAL, run).redis.epoch, Exec(INITIAL, run).handlers[p]);
  }

  /** A bump stops an agent in flight: it starts at most the one LLM call that its last
      fence read had already admitted, and then the next read drops it. */
  lemma StaleAgentStops(run: seq<Action>, p: nat)
    requires Legal(INITIAL, run) && p in Exec(INITIAL, run).handlers
    ensures
      var s := Exec(INITIAL, run);
      var h := s.handlers[p];
      && h.staleCalls <= 1
      && (h.task.epoch < s.redis.epoch && (h.pc.PreFence? || h.pc.CheckAlive?) ==>
            Apply(s, HandlerStep(p, Proceed)).handlers[p].pc == Fenced)
      && (h.task.epoch < s.redis.epoch && h.staleCalls == 1 ==> !h.pc.CallModel?)
  {
    RunKeepsFence(INITIAL, run);
    assert FenceHolds(Exec(INITIAL, run).redis.epoch, Exec(INITIAL, run).handlers[p]);
  }

  /** A handler that the fence dropped has inserted no row and made no SADD, and it never
      acts again. */
  lemma FencedHandlerIsSilent(run: seq<Action>, p: nat, e: HandlerEvent)
    requires Legal(INITIAL, run)
    requires p in Exec(INITIAL, run).handlers && Exec(INITIAL, run).handlers[p].pc == Fenced
    ensures !Exec(INITIAL, run).handlers[p].recorded && !Enabled(Exec(INITIAL, run), HandlerStep(p, e))
  {
    RunKeepsFence(INITIAL, run);
    assert FenceHolds(Exec(INITIAL, run).redis.epoch, Exec(INITIAL, run).handlers[p]);
  }

  /** Once superseded, a message stays superseded: no later run of the job brings its
      epoch back, so a fence that drops it once drops it in every future delivery. */
  lemma SupersededForever(run: seq<Action>, later: seq<Action>, task: Task)
    requires Legal(INITIAL, run) && task.epoch < Exec(INITIAL, run).redis.epoch
    requires Legal(Exec(INITIAL, run), later)
    ensures
      var s := Exec(Exec(INITIAL, run), later);
      forall h: Handler | h.task == task && ReadsFence(h) :: Advance(s, h).pc == Fenced
  {
    RunKeepsFence(INITIAL, run);
    RunKeepsFence(Exec(INITIAL, run), later);
  }

  // ─── The two windows ────────────────────────────────────────────────────────

  /** The force-stop is done, and the only type counted for the new run is the stale handler's. */
  ghost predicate StaleAdded(s: State, t: State, p: nat, task: Task) {
    && t.redis == Redis(s.redis.epoch + 1, {task.agentType}, {}, None)
    && t.db == s.db.(status := Pending)
    && t.broker == s.broker.(requests := s.broker.requests + {Request(Some(s.redis.epoch + 1), [])})
    && t.syntheses == s.syntheses && t.orchestrators == s.orchestrators
    && p in t.handlers && t.handlers[p].task == task && t.handlers[p].pc.ReadDone?
  }

  /** The gap between a fence read and the SADD is real: a force-stop that lands in it lets
      the superseded handler add its type to the counters of the live run. */
  lemma GapLetsStaleAdd(s: State, p: nat, g: nat) returns (run: seq<Action>)
    requires p in s.handlers && s.handlers[p].pc.AddDone? && s.handlers[p].task.epoch == s.redis.epoch
    requires g !in s.gateways
    ensures Legal(s, run) && StaleAdded(s, Exec(s, run), p, s.handlers[p].task)
  {
    run := ForceStopRun(s, g, 5);
    Extend(s, run, HandlerStep(p, Proceed));
    run := run + [HandlerStep(p, Proceed)];
  }

  /** A handler that counts while nothing is expected finds the count complete, and publishes. */
  lemma EmptyCountPublishes(s: State, start: seq<Action>, p: nat) returns (run: seq<Action>)
    requires Legal(s, start)
    requires var t := Exec(s, start); p in t.handlers && t.handlers[p].pc.ReadDone? && t.redis.expected == {}
    ensures Legal(s, run) && OnlyPublished(Exec(s, start), Exec(s, run))
  {
    run := start;
    for i := 0 to 4
      invariant Legal(s, run) && Publishing(Exec(s, start), Exec(s, run), p, i)
    {
      PublishingNext(Exec(s, start), Exec(s, run), p, i);
      Extend(s, run, HandlerStep(p, Proceed));
      run := run + [HandlerStep(p, Proceed)];
    }
  }

  /** The handler is i commands further, and has published once it is through. */
  ghost predicate Publishing(t: State, u: State, p: nat, i: nat) {
    && (if i < 4 then OnlyPublished(t, u.(broker := u.broker.(ready := true))) && u.broker == t.broker else OnlyPublished(t, u))
    && t.redis.expected == {} && p in u.handlers && u.handlers[p].pc == CountingPath(i) && (i >= 2 ==> u.handlers[p].full)
  }

  lemma PublishingNext(t: State, u: State, p: nat, i: nat)
    requires i < 4 && Publishing(t, u, p, i)
    ensures Enabled(u, HandlerStep(p, Proceed)) && Publishing(t, Apply(u, HandlerStep(p, Proceed)), p, i + 1)
  {
  }

  function CountingPath(i: nat): HandlerPc {
    if i == 0 then ReadDone else if i == 1 then ReadExpected else if i == 2 then Progress
    else if i == 3 then PublishReady else Finished
  }

  /** The new run is declared ready as it stands: nothing dispatched, no row added. */
  ghost predicate ReadyTooEarly(s: State, t: State) {
    && t.broker.ready && t.redis.epoch == s.redis.epoch + 1 && t.redis.lock.None?
    && t.broker.tasks == s.broker.tasks && t.db == s.db.(status := Pending)
    && t.orchestrators == s.orchestrators && t.syntheses == s.syntheses
  }

  /** What the gap leads to: ready_for_synthesis is published for the new run while its
      request has not even been taken up. */
  lemma GapPublishesEarly(s: State, p: nat, g: nat) returns (run: seq<Action>)
    requires p in s.handlers && s.handlers[p].pc.AddDone? && s.handlers[p].task.epoch == s.redis.epoch
    requires g !in s.gateways
    ensures Legal(s, run) && ReadyTooEarly(s, Exec(s, run))
  {
    run := GapLetsStaleAdd(s, p, g);
    run := EmptyCountPublishes(s, run, p);
  }

  /** A failed row and a type counted, for a message of another epoch. */
  ghost predicate AddedUnfenced(s: State, t: State, task: Task) {
    && t.redis.epoch == s.redis.epoch && t.broker.tasks == s.broker.tasks
    && t.redis.done == s.redis.done + {task.agentType}
    && t.db.rows == s.db.rows + [Row(task.agentType, false)]
  }

  /** A failing pre-flight read is the other window: a message of any superseded epoch then
      inserts a row and makes its SADD without ever having been fenced. */
  lemma FailedReadLetsStaleAdd(s: State, p: nat, task: Task) returns (run: seq<Action>)
    requires p !in s.handlers && task in s.broker.tasks && task.epoch < s.redis.epoch
    ensures Legal(s, run) && AddedUnfenced(s, Exec(s, run), task)
  {
    run := [];
    for i := 0 to 4
      invariant Legal(s, run) && Unfencing(s, Exec(s, run), p, task, i)
    {
      Extend(s, run, UnfencedAction(p, task, i));
      run := run + [UnfencedAction(p, task, i)];
    }
  }

  function UnfencedAction(p: nat, task: Task, i: nat): Action {
    if i == 0 then Deliver(p, task) else HandlerStep(p, if i == 1 then CommandFails else Proceed)
  }

  ghost predicate Unfencing(s: State, t: State, p: nat, task: Task, i: nat) {
    && t.broker.tasks == s.broker.tasks && (if i == 0 then p !in t.handlers else p in t.handlers && t.handlers[p].task == task)
    && (i > 0 ==> t.handlers[p].pc == (if i == 1 then PreFence else if i == 2 then InsertRow else if i == 3 then AddDone else ReadDone))
    && (i == 1 ==> t.handlers[p] == NewHandler(task, false)) && (i >= 2 ==> !t.handlers[p].success)
    && t.redis == (if i < 4 then s.redis else s.redis.(done := s.redis.done + {task.agentType}))
    && t.db == (if i < 3 then s.db else s.db.(rows := s.db.rows + [Row(task.agentType, false)]))
  }

  /** The first window from submission on: the report of the new run is written from one row of
      the old one, with nothing of the new run dispatched. */
  lemma StaleReport() returns (run: seq<Action>)
    ensures Legal(INITIAL, run)
    ensures
      var s := Exec(INITIAL, run);
      && s.redis.epoch == 1 && s.db.reports == 1 && s.db.status.Done?
      && s.db.rows == [Row(Architecture, true)]
      && (forall t | t in s.broker.tasks :: t.epoch == 0)
  {
    run := GapRun();
    run := Synthesize(run, 0, 7);
  }

  lemma GapRun() returns (run: seq<Action>)
    ensures Legal(INITIAL, run)
    ensures
      var s := Exec(INITIAL, run);
      && s.redis.epoch == 1 && s.broker.ready && CanSynthesize(s) && s.syntheses == map[]
      && s.db.rows == [Row(Architecture, true)] && (forall t | t in s.broker.tasks :: t.epoch == 0)
  {
    var start := DispatchedRun();
    SelectedFour();
    start := Handle(start, 0, Task(Architecture, 0), 7);
    ghost var s := Exec(INITIAL, start);
    var more := GapPublishesEarly(s, 0, 0);
    Concat(INITIAL, start, more);
    run := start + more;
    OneSuccess(Exec(INITIAL, run).db.rows, Architecture);
  }

  lemma OneSuccess(rows: seq<Row>, t: AgentType)
    requires rows == [Row(t, true)]
    ensures AnyLatestSucceeded(rows)
  {
    assert Latest(rows)[0] == rows[0];
  }

  /** The second window from submission on. */
  lemma UnfencedAdd() returns (run: seq<Action>)
    ensures Legal(INITIAL, run)
    ensures
      var s := Exec(INITIAL, run);
      && s.redis.epoch == 1 && Architecture in s.redis.done && s.db.rows == [Row(Architecture, false)]
      && (forall t | t in s.broker.tasks :: t.epoch == 0)
  {
    var start := DispatchedRun();
    SelectedFour();
    var stop := ForceStopRun(Exec(INITIAL, start), 0, 2);
    Concat(INITIAL, start, stop);
    var s := Exec(INITIAL, start + stop);
    var more := FailedReadLetsStaleAdd(s, 0, Task(Architecture, 0));
    Concat(INITIAL, start + stop, more);
    run := start + stop + more;
  }

  // ─── Cancellation ───────────────────────────────────────────────────────────

  /** Cancelled, with everything in flight stopped short of a write: no gateway call, every
      orchestrator settled or about to meet the fence, every synthesis short of its look at
      the status. What the cancel fenced off are the requests: all carry another epoch. */
  ghost predicate Withdrawn(s: State) {
    && s.db.status.Cancelled?
    && (forall r | r in s.broker.requests :: r.epoch.Some? && r.epoch.value != s.redis.epoch)
    && (forall p | p in s.gateways :: s.gateways[p].pc.Replied?)
    && (forall p | p in s.orchestrators ::
          s.orchestrators[p].pc.Settled? || (s.orchestrators[p].pc.ReadEpoch? && Obsolete(s, s.orchestrators[p])))
    && (forall p | p in s.syntheses :: ShortOfStatus(s.syntheses[p]))
  }

  predicate ShortOfStatus(y: Synthesis) {
    || y.pc.SweepStatus? || y.pc.SweepDone? || y.pc.SweepExpected? || y.pc.SweepFallback?
    || y.pc.Claim? || y.pc.CheckReport? || y.pc.CheckStatus? || y.pc.Ended?
  }

  lemma StaysWithdrawn(s: State, a: Action)
    requires Withdrawn(s) && Enabled(s, a) && !a.Call? && !a.BuryRequest?
    ensures Withdrawn(Apply(s, a)) && Apply(s, a).db.reports == s.db.reports
  {
  }

  /** From there on no queued message, redelivery, late agent, sweep or wakeup brings the job
      back: until the user acts again it stays cancelled and gets no report. */
  lemma {:induction false} CancelSticks(s: State, run: seq<Action>)
    requires Withdrawn(s) && Legal(s, run) && forall a | a in run :: !a.Call? && !a.BuryRequest?
    ensures Withdrawn(Exec(s, run)) && Exec(s, run).db.reports == s.db.reports
    decreases |run|
  {
    if run != [] {
      assert run[0] in run;
      StaysWithdrawn(s, run[0]);
      CancelSticks(Apply(s, run[0]), run[1..]);
    }
  }

  ghost predicate RequestsStamped(s: State) { forall r | r in s.broker.requests :: r.epoch.Some? }

  lemma {:induction false} StampedRun(s: State, run: seq<Action>)
    requires RequestsStamped(s) && Legal(s, run)
    ensures RequestsStamped(Exec(s, run))
    decreases |run|
  {
    if run != [] {
      assert RequestsStamped(Apply(s, run[0]));
      StampedRun(Apply(s, run[0]), run[1..]);
    }
  }

  /** A job that can be cancelled, with nothing in flight past the point where it would write. */
  ghost predicate Cancellable(s: State) {
    && (s.db.status.Pending? || s.db.status.Running?)
    && (forall p | p in s.gateways :: s.gateways[p].pc.Replied?)
    && (forall p | p in s.orchestrators :: s.orchestrators[p].pc.Settled?)
    && (forall p | p in s.syntheses :: ShortOfStatus(s.syntheses[p]))
  }

  function CancelPath(i: nat): GatewayPc {
    if i == 0 then Guard else if i == 1 then Bump else if i == 2 then Wipe else if i == 3 then SetStatus else Replied
  }

  ghost predicate Cancelling(s: State, t: State, g: nat, i: nat) {
    && t.redis.epoch == (if i < 2 then s.redis.epoch else s.redis.epoch + 1)
    && t.db == (if i < 4 then s.db else s.db.(status := Cancelled))
    && t.broker == s.broker && t.orchestrators == s.orchestrators && t.syntheses == s.syntheses
    && g in t.gateways && t.gateways[g].operation.Cancel? && t.gateways[g].pc == CancelPath(i)
    && forall p | p in t.gateways && p != g :: p in s.gateways && t.gateways[p] == s.gateways[p]
  }

  lemma CancelNext(s: State, t: State, g: nat, i: nat)
    requires i < 4 && (s.db.status.Pending? || s.db.status.Running?) && Cancelling(s, t, g, i)
    ensures Enabled(t, GatewayStep(g)) && Cancelling(s, Apply(t, GatewayStep(g)), g, i + 1)
  {
  }

  lemma CancelRun(s: State, g: nat) returns (cancel: seq<Action>)
    requires (s.db.status.Pending? || s.db.status.Running?) && g !in s.gateways
    ensures Legal(s, cancel) && Cancelling(s, Exec(s, cancel), g, 4)
  {
    Extend(s, [], Call(g, Cancel));
    cancel := [] + [Call(g, Cancel)];
    for i := 0 to 4
      invariant Legal(s, cancel) && Cancelling(s, Exec(s, cancel), g, i)
    {
      CancelNext(s, Exec(s, cancel), g, i);
      Extend(s, cancel, GatewayStep(g));
      cancel := cancel + [GatewayStep(g)];
    }
  }

  lemma CancelledIs(s: State, t: State, g: nat)
    requires Cancellable(s) && EpochsBounded(s) && RequestsStamped(s) && Cancelling(s, t, g, 4)
    ensures Withdrawn(t)
  {
  }

  /** Cancelling such a job in any reachable state withdraws it. */
  lemma CancelWithdraws(run: seq<Action>, g: nat) returns (cancel: seq<Action>)
    requires Legal(INITIAL, run) && Cancellable(Exec(INITIAL, run)) && g !in Exec(INITIAL, run).gateways
    ensures Legal(Exec(INITIAL, run), cancel) && Withdrawn(Exec(Exec(INITIAL, run), cancel))
  {
    var s := Exec(INITIAL, run);
    RunKeepsFence(INITIAL, run);
    StampedRun(INITIAL, run);
    cancel := CancelRun(s, g);
    CancelledIs(s, Exec(s, cancel), g);
  }
}
