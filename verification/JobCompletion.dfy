/**
 Completion tracking over a job's first run: no gateway call after the submission, every
 indexing of the checkout sees the same manifest files, and no sweep takes the fallback
 for evicted counters. Crashes, redelivery, dead-letter repeats, failing commands, lock
 expiry, sweeps and any number of synthesizer replicas are all allowed.
 */
module JobCompletion {
  import opened Common
  import opened Sets
  import opened AgentTypes
  import opened LatestRows
  import opened JobMachine
  import opened JobRuns

  predicate FirstRunAction(a: Action, hasManifest: bool) {
    match a
    case Call(_, _) => false
    case OrchestratorStep(_, e) => e.Indexed? ==> e.hasManifest == hasManifest
    case SynthesisStep(_, e) => !e.OldEnough?
    case _ => true
  }

  predicate FirstRun(run: seq<Action>, hasManifest: bool) {
    forall a | a in run :: FirstRunAction(a, hasManifest)
  }

  /** The agents the orchestrator selects for the checkout. */
  function Selected(hasManifest: bool): set<AgentType> {
    set t | t in SelectAgents(hasManifest)
  }

  /** Every type of the set has a result row. */
  predicate Covered(rows: seq<Row>, types: set<AgentType>) {
    forall t | t in types :: HasType(rows, t)
  }

  /** Rows are only ever added. */
  ghost predicate Grows(rows: seq<Row>, later: seq<Row>) {
    forall t | HasType(rows, t) :: HasType(later, t)
  }

  lemma RowsGrow(rows: seq<Row>, row: Row)
    ensures Grows(rows, rows + [row]) && HasType(rows + [row], row.agentType)
  {
    assert forall r | r in rows :: r in rows + [row];
    assert row in rows + [row];
  }

  // ─── Invariant, by component ────────────────────────────────────────────────

  ghost predicate CountersOk(r: Redis, rows: seq<Row>, sel: set<AgentType>) {
    r.done <= sel && Covered(rows, r.done) && (r.expected == {} || r.expected == sel)
  }

  ghost predicate MessagesOk(b: Broker, r: Redis, past: Past, rows: seq<Row>, sel: set<AgentType>) {
    && (forall q | q in b.requests :: q.retry == [])
    && (forall t | t in b.tasks :: t.agentType in sel)
    && (b.tasks != {} ==> r.expected == sel || Covered(rows, sel))
    && (b.ready || past.swept ==> Covered(rows, sel))
  }

  ghost predicate OrchestratorOk(o: Orchestrator, r: Redis, rows: seq<Row>, sel: set<AgentType>) {
    && o.request.retry == []
    && (o.pc.AddExpected? ==> sel == set t | t in o.selected)
    && (o.pc.Dispatch? ==> (forall t | t in o.remaining :: t in sel) && (r.expected == sel || Covered(rows, sel)))
  }

  ghost predicate HandlerOk(h: Handler, tasks: set<Task>, rows: seq<Row>, sel: set<AgentType>) {
    && h.task in tasks
    && (PastInsert(h) ==> HasType(rows, h.task.agentType))
    && h.doneSeen <= sel && Covered(rows, h.doneSeen)
    && (h.full ==> Covered(rows, sel))
    && (h.pc.PublishReady? ==> h.full)
  }

  /** Before synthesize() proper, or over. */
  predicate Sweeping(y: Synthesis) {
    y.pc.SweepStatus? || y.pc.SweepDone? || y.pc.SweepExpected? || y.pc.SweepFallback? || y.pc.Ended?
  }

  ghost predicate SynthesisOk(y: Synthesis, rows: seq<Row>, sel: set<AgentType>) {
    && y.doneSeen <= sel && Covered(rows, y.doneSeen)
    && (!Sweeping(y) ==> Covered(rows, sel))
  }

  ghost predicate CompletionInv(s: State, sel: set<AgentType>) {
    && s.gateways == map[]
    && CountersOk(s.redis, s.db.rows, sel)
    && MessagesOk(s.broker, s.redis, s.past, s.db.rows, sel)
    && (forall p | p in s.orchestrators :: OrchestratorOk(s.orchestrators[p], s.redis, s.db.rows, sel))
    && (forall p | p in s.handlers :: HandlerOk(s.handlers[p], s.broker.tasks, s.db.rows, sel))
    && (forall p | p in s.syntheses :: SynthesisOk(s.syntheses[p], s.db.rows, sel))
  }

  // ─── Safety: preservation ───────────────────────────────────────────────────

  lemma HandlerOkLater(h: Handler, tasks: set<Task>, tasks': set<Task>, rows: seq<Row>, rows': seq<Row>, sel: set<AgentType>)
    requires HandlerOk(h, tasks, rows, sel) && tasks <= tasks' && Grows(rows, rows')
    ensures HandlerOk(h, tasks', rows', sel)
  {
  }

  lemma OrchestratorOkLater(o: Orchestrator, r: Redis, r': Redis, rows: seq<Row>, rows': seq<Row>, sel: set<AgentType>)
    requires OrchestratorOk(o, r, rows, sel) && Grows(rows, rows')
    requires r'.expected == r.expected || r'.expected == sel || Covered(rows', sel)
    ensures OrchestratorOk(o, r', rows', sel)
  {
  }

  lemma SynthesisOkLater(y: Synthesis, rows: seq<Row>, rows': seq<Row>, sel: set<AgentType>)
    requires SynthesisOk(y, rows, sel) && Grows(rows, rows')
    ensures SynthesisOk(y, rows', sel)
  {
  }

  lemma UnrecordedOk(h: Handler, next: Handler, tasks: set<Task>, rows: seq<Row>, rows': seq<Row>, sel: set<AgentType>)
    requires HandlerOk(h, tasks, rows, sel) && Unrecorded(h, next) && Grows(rows, rows')
    ensures HandlerOk(next, tasks, rows', sel)
  {
  }

  /** The count is complete only when every selected type has a row. */
  lemma CountedOk(doneSeen: set<AgentType>, r: Redis, b: Broker, past: Past, rows: seq<Row>, sel: set<AgentType>)
    requires doneSeen <= sel && Covered(rows, doneSeen) && b.tasks != {}
    requires CountersOk(r, rows, sel) && MessagesOk(b, r, past, rows, sel)
    ensures |doneSeen| >= |r.expected| ==> Covered(rows, sel)
  {
    if r.expected == sel && |doneSeen| >= |sel| { SameSize(doneSeen, sel); }
  }

  lemma LateOkNext(s: State, h: Handler, sel: set<AgentType>)
    requires !Early(h) && HandlerEnabled(h, Proceed) && HandlerOk(h, s.broker.tasks, s.db.rows, sel)
    requires CountersOk(s.redis, s.db.rows, sel) && MessagesOk(s.broker, s.redis, s.past, s.db.rows, sel)
    ensures HandlerOk(Advance(s, h), s.broker.tasks, HandlerDatabase(s.db, h, Proceed).rows, sel)
  {
    match h.pc
    case InsertRow => RowsGrow(s.db.rows, Row(h.task.agentType, h.success));
    case ReadExpected => CountedOk(h.doneSeen, s.redis, s.broker, s.past, s.db.rows, sel);
    case AddDone => case ReadDone => case Progress => case PublishReady =>
  }

  lemma HandlerGrows(d: Database, h: Handler, e: HandlerEvent)
    ensures Grows(d.rows, HandlerDatabase(d, h, e).rows)
  {
    RowsGrow(d.rows, Row(h.task.agentType, h.success));
  }

  lemma HandlerOkNext(s: State, h: Handler, e: HandlerEvent, sel: set<AgentType>)
    requires HandlerEnabled(h, e) && HandlerOk(h, s.broker.tasks, s.db.rows, sel)
    requires CountersOk(s.redis, s.db.rows, sel) && MessagesOk(s.broker, s.redis, s.past, s.db.rows, sel)
    ensures HandlerOk(HandlerNext(s, h, e), s.broker.tasks, HandlerDatabase(s.db, h, e).rows, sel)
  {
    if e.Proceed? && !Early(h) {
      LateOkNext(s, h, sel);
    } else {
      HandlerGrows(s.db, h, e);
      UnrecordedOk(h, HandlerNext(s, h, e), s.broker.tasks, s.db.rows, HandlerDatabase(s.db, h, e).rows, sel);
    }
  }

  lemma HandlerStepStores(s: State, h: Handler, e: HandlerEvent, sel: set<AgentType>)
    requires HandlerEnabled(h, e) && HandlerOk(h, s.broker.tasks, s.db.rows, sel)
    requires CountersOk(s.redis, s.db.rows, sel) && MessagesOk(s.broker, s.redis, s.past, s.db.rows, sel)
    ensures
      var r, rows := HandlerRedis(s.redis, h, e), HandlerDatabase(s.db, h, e).rows;
      && CountersOk(r, rows, sel)
      && MessagesOk(HandlerBroker(s.broker, h, e), r, HandlerPast(s, h, e), rows, sel)
  {
    HandlerGrows(s.db, h, e);
  }

  lemma HandlerStepKeeps(s: State, p: nat, e: HandlerEvent, sel: set<AgentType>)
    requires CompletionInv(s, sel) && Enabled(s, HandlerStep(p, e))
    ensures CompletionInv(Apply(s, HandlerStep(p, e)), sel)
  {
    var h := s.handlers[p];
    var t := Apply(s, HandlerStep(p, e));
    assert HandlerOk(h, s.broker.tasks, s.db.rows, sel);
    HandlerOkNext(s, h, e, sel);
    HandlerStepStores(s, h, e, sel);
    HandlerGrows(s.db, h, e);
    forall q | q in t.handlers ensures HandlerOk(t.handlers[q], t.broker.tasks, t.db.rows, sel) {
      if q != p { HandlerOkLater(s.handlers[q], s.broker.tasks, t.broker.tasks, s.db.rows, t.db.rows, sel); }
    }
    forall q | q in t.orchestrators ensures OrchestratorOk(t.orchestrators[q], t.redis, t.db.rows, sel) {
      OrchestratorOkLater(s.orchestrators[q], s.redis, t.redis, s.db.rows, t.db.rows, sel);
    }
    forall q | q in t.syntheses ensures SynthesisOk(t.syntheses[q], t.db.rows, sel) {
      SynthesisOkLater(s.syntheses[q], s.db.rows, t.db.rows, sel);
    }
  }

  lemma AddsSelected(r: Redis, o: Orchestrator, e: OrchestratorEvent, sel: set<AgentType>)
    requires Happens(e) && o.pc.AddExpected? && sel == (set t | t in o.selected) && (r.expected == {} || r.expected == sel)
    ensures OrchestratorRedis(r, o, e).expected == sel
  {
  }

  lemma OrchestratorOkNext(s: State, o: Orchestrator, e: OrchestratorEvent, hasManifest: bool)
    requires OrchestratorEnabled(o, e) && (e.Indexed? ==> e.hasManifest == hasManifest)
    requires OrchestratorOk(o, s.redis, s.db.rows, Selected(hasManifest))
    requires CountersOk(s.redis, s.db.rows, Selected(hasManifest))
    ensures OrchestratorOk(OrchestratorNext(s, o, e), OrchestratorRedis(s.redis, o, e), s.db.rows, Selected(hasManifest))
  {
    if e.Go? && o.pc.Dispatch? {
      assert forall t | t in o.remaining[1..] :: t in o.remaining;
    } else if Happens(e) && o.pc.AddExpected? {
      AddsSelected(s.redis, o, e, Selected(hasManifest));
    }
  }

  lemma OrchestratorStepStores(s: State, o: Orchestrator, e: OrchestratorEvent, sel: set<AgentType>)
    requires OrchestratorEnabled(o, e) && OrchestratorOk(o, s.redis, s.db.rows, sel)
    requires CountersOk(s.redis, s.db.rows, sel) && MessagesOk(s.broker, s.redis, s.past, s.db.rows, sel)
    ensures
      var r := OrchestratorRedis(s.redis, o, e);
      && r.done == s.redis.done && (r.expected == s.redis.expected || r.expected == sel)
      && s.broker.tasks <= OrchestratorBroker(s.broker, o, e).tasks
      && OrchestratorDatabase(s.db, o, e).rows == s.db.rows
      && MessagesOk(OrchestratorBroker(s.broker, o, e), r, s.past, s.db.rows, sel)
  {
    if Happens(e) && o.pc.Dispatch? { assert o.remaining[0] in o.remaining; }
    if Happens(e) && o.pc.AddExpected? { AddsSelected(s.redis, o, e, sel); }
  }

  lemma OrchestratorStepKeeps(s: State, p: nat, e: OrchestratorEvent, hasManifest: bool)
    requires CompletionInv(s, Selected(hasManifest)) && Enabled(s, OrchestratorStep(p, e))
    requires FirstRunAction(OrchestratorStep(p, e), hasManifest)
    ensures CompletionInv(Apply(s, OrchestratorStep(p, e)), Selected(hasManifest))
  {
    var sel := Selected(hasManifest);
    var o := s.orchestrators[p];
    var t := Apply(s, OrchestratorStep(p, e));
    assert OrchestratorOk(o, s.redis, s.db.rows, sel);
    OrchestratorOkNext(s, o, e, hasManifest);
    OrchestratorStepStores(s, o, e, sel);
    forall q | q in t.orchestrators ensures OrchestratorOk(t.orchestrators[q], t.redis, t.db.rows, sel) {
      if q != p { OrchestratorOkLater(s.orchestrators[q], s.redis, t.redis, s.db.rows, t.db.rows, sel); }
    }
    forall q | q in t.handlers ensures HandlerOk(t.handlers[q], t.broker.tasks, t.db.rows, sel) {
      HandlerOkLater(s.handlers[q], s.broker.tasks, t.broker.tasks, s.db.rows, t.db.rows, sel);
    }
    assert forall q | q in t.syntheses :: SynthesisOk(s.syntheses[q], s.db.rows, sel);
  }

  lemma SynthesisOkNext(s: State, y: Synthesis, e: SynthesisEvent, sel: set<AgentType>)
    requires SynthesisEnabled(y, e) && !e.OldEnough? && SynthesisOk(y, s.db.rows, sel)
    requires CountersOk(s.redis, s.db.rows, sel)
    ensures SynthesisOk(SynthesisNext(s, y, e), s.db.rows, sel)
    ensures SweepFoundComplete(s.redis, y, e) ==> Covered(s.db.rows, sel)
  {
    if e.Continue? && y.pc.SweepExpected? {
      if s.redis.expected == sel && |y.doneSeen| >= |sel| { SameSize(y.doneSeen, sel); }
    } else if e.Continue? && Sweeping(y) {
      match y.pc case SweepStatus => case SweepDone => case SweepFallback =>
    }
  }

  lemma SynthesisStepStores(s: State, p: nat, y: Synthesis, e: SynthesisEvent, sel: set<AgentType>)
    requires SynthesisEnabled(y, e) && SynthesisOk(y, s.db.rows, sel)
    requires SweepFoundComplete(s.redis, y, e) ==> Covered(s.db.rows, sel)
    requires CountersOk(s.redis, s.db.rows, sel) && MessagesOk(s.broker, s.redis, s.past, s.db.rows, sel)
    ensures
      var r := SynthesisRedis(s.redis, p, y, e);
      && CountersOk(r, s.db.rows, sel) && SynthesisDatabase(s.db, y, e).rows == s.db.rows
      && (r.expected == s.redis.expected || Covered(s.db.rows, sel))
      && MessagesOk(s.broker, r, SynthesisPast(s, y, e), s.db.rows, sel)
  {
  }

  lemma SynthesisStepKeeps(s: State, p: nat, e: SynthesisEvent, sel: set<AgentType>)
    requires CompletionInv(s, sel) && Enabled(s, SynthesisStep(p, e)) && !e.OldEnough?
    ensures CompletionInv(Apply(s, SynthesisStep(p, e)), sel)
  {
    var y := s.syntheses[p];
    var t := Apply(s, SynthesisStep(p, e));
    assert SynthesisOk(y, s.db.rows, sel);
    SynthesisOkNext(s, y, e, sel);
    SynthesisStepStores(s, p, y, e, sel);
    forall q | q in t.syntheses ensures SynthesisOk(t.syntheses[q], t.db.rows, sel) {
      if q != p { assert SynthesisOk(s.syntheses[q], s.db.rows, sel); }
    }
    forall q | q in t.orchestrators ensures OrchestratorOk(t.orchestrators[q], t.redis, t.db.rows, sel) {
      OrchestratorOkLater(s.orchestrators[q], s.redis, t.redis, s.db.rows, s.db.rows, sel);
    }
    assert forall q | q in t.handlers :: HandlerOk(s.handlers[q], s.broker.tasks, s.db.rows, sel);
  }

  lemma SpawnKeepsCompletion(s: State, a: Action, sel: set<AgentType>)
    requires CompletionInv(s, sel) && Enabled(s, a)
    requires a.Deliver? || a.DeadLetter? || a.Consume? || a.BuryRequest? || a.Wake? || a.Sweep?
    ensures CompletionInv(Apply(s, a), sel)
  {
    var t := Apply(s, a);
    match a
    case Deliver(p, task) => assert HandlerOk(NewHandler(task, false), s.broker.tasks, s.db.rows, sel);
    case DeadLetter(p, task) => assert HandlerOk(NewHandler(task, true), s.broker.tasks, s.db.rows, sel);
    case Consume(p, request) => assert OrchestratorOk(t.orchestrators[p], s.redis, s.db.rows, sel);
    case BuryRequest(p, request) => assert OrchestratorOk(t.orchestrators[p], s.redis, s.db.rows, sel);
    case Wake(p) => assert SynthesisOk(t.syntheses[p], s.db.rows, sel);
    case Sweep(p) => assert SynthesisOk(t.syntheses[p], s.db.rows, sel);
  }

  lemma EnvironmentKeepsCompletion(s: State, a: Action, sel: set<AgentType>)
    requires CompletionInv(s, sel) && Enabled(s, a)
    requires a.ExpireLock? || a.Crash?
    ensures CompletionInv(Apply(s, a), sel)
  {
    var t := Apply(s, a);
    assert t.gateways == map[];
    assert CountersOk(t.redis, t.db.rows, sel);
    assert MessagesOk(t.broker, t.redis, t.past, t.db.rows, sel);
    assert forall q | q in t.orchestrators :: OrchestratorOk(s.orchestrators[q], s.redis, s.db.rows, sel);
    assert forall q | q in t.handlers :: HandlerOk(s.handlers[q], s.broker.tasks, s.db.rows, sel);
    assert forall q | q in t.syntheses :: SynthesisOk(s.syntheses[q], s.db.rows, sel);
  }

  lemma StepKeepsCompletion(s: State, a: Action, hasManifest: bool)
    requires CompletionInv(s, Selected(hasManifest)) && Enabled(s, a) && FirstRunAction(a, hasManifest)
    ensures CompletionInv(Apply(s, a), Selected(hasManifest))
  {
    var sel := Selected(hasManifest);
    match a
    case HandlerStep(p, e) => HandlerStepKeeps(s, p, e, sel);
    case OrchestratorStep(p, e) => OrchestratorStepKeeps(s, p, e, hasManifest);
    case SynthesisStep(p, e) => SynthesisStepKeeps(s, p, e, sel);
    case GatewayStep(p) =>
    case ExpireLock => EnvironmentKeepsCompletion(s, a, sel);
    case Crash(p) => EnvironmentKeepsCompletion(s, a, sel);
    case _ => SpawnKeepsCompletion(s, a, sel);
  }

  // ─── Progress: nobody forgets to publish ────────────────────────────────────

  /** No synthesis is past its sweep, so nothing has wiped the counters yet. */
  ghost predicate NoSynthesis(s: State) {
    forall p | p in s.syntheses :: Sweeping(s.syntheses[p])
  }

  predicate PastAdd(h: Handler) {
    h.pc.ReadDone? || h.pc.ReadExpected? || h.pc.Progress? || h.pc.PublishReady? || h.pc.Finished?
  }

  /** A handler of the type that completed agents_done is on its way to publishing. */
  ghost predicate WillPublish(h: Handler, sel: set<AgentType>) {
    && (h.pc.ReadExpected? ==> h.doneSeen == sel)
    && (h.pc.Progress? ==> h.full)
    && !h.pc.Finished?
  }

  ghost predicate HandlerDue(h: Handler, done: set<AgentType>, lastAdded: AgentType, sel: set<AgentType>) {
    && (PastAdd(h) ==> h.task.agentType in done)
    && (done == sel && h.task.agentType == lastAdded ==> WillPublish(h, sel))
  }

  ghost predicate ProgressInv(s: State, sel: set<AgentType>) {
    s.broker.ready || s.past.swept ||
    (&& NoSynthesis(s)
     && s.past.completed <= s.redis.done
     && (s.broker.tasks != {} ==> s.redis.expected == sel)
     && (forall p | p in s.orchestrators && s.orchestrators[p].pc.Dispatch? :: s.redis.expected == sel)
     && (s.redis.done == sel ==> s.past.lastAdded in sel && s.past.lastAdded !in s.past.completed)
     && (forall p | p in s.handlers :: HandlerDue(s.handlers[p], s.redis.done, s.past.lastAdded, sel)))
  }

  /** A handler outside its bookkeeping owes nothing yet. */
  lemma UnrecordedDue(h: Handler, done: set<AgentType>, lastAdded: AgentType, sel: set<AgentType>)
    requires !PastInsert(h)
    ensures HandlerDue(h, done, lastAdded, sel)
  {
  }

  lemma AddDue(s: State, h: Handler, sel: set<AgentType>)
    requires (h.pc.InsertRow? || h.pc.AddDone? || h.pc.ReadDone?) && HandlerDue(h, s.redis.done, s.past.lastAdded, sel)
    ensures HandlerDue(Advance(s, h), HandlerRedis(s.redis, h, Proceed).done, HandlerPast(s, h, Proceed).lastAdded, sel)
  {
  }

  lemma CountDue(s: State, h: Handler, sel: set<AgentType>)
    requires (h.pc.ReadExpected? || h.pc.Progress?) && s.redis.expected == sel && HandlerDue(h, s.redis.done, s.past.lastAdded, sel)
    ensures HandlerDue(Advance(s, h), s.redis.done, s.past.lastAdded, sel)
  {
  }

  lemma DueNext(s: State, h: Handler, e: HandlerEvent, sel: set<AgentType>)
    requires HandlerEnabled(h, e) && !(TakesEffect(e) && h.pc.PublishReady?)
    requires HandlerDue(h, s.redis.done, s.past.lastAdded, sel) && s.redis.expected == sel
    ensures HandlerDue(HandlerNext(s, h, e), HandlerRedis(s.redis, h, e).done, HandlerPast(s, h, e).lastAdded, sel)
  {
    if !e.Proceed? || Early(h) {
      UnrecordedDue(HandlerNext(s, h, e), HandlerRedis(s.redis, h, e).done, HandlerPast(s, h, e).lastAdded, sel);
    } else if h.pc.ReadExpected? || h.pc.Progress? {
      CountDue(s, h, sel);
    } else {
      AddDue(s, h, sel);
    }
  }

  /** Another handler's step: a SADD that completes agents_done finds nobody of its type
      past its own SADD yet. */
  lemma DueKept(s: State, h: Handler, e: HandlerEvent, other: Handler, sel: set<AgentType>)
    requires HandlerDue(other, s.redis.done, s.past.lastAdded, sel)
    ensures HandlerDue(other, HandlerRedis(s.redis, h, e).done, HandlerPast(s, h, e).lastAdded, sel)
  {
  }

  lemma HandlerStepKeepsProgress(s: State, p: nat, e: HandlerEvent, sel: set<AgentType>)
    requires CompletionInv(s, sel) && ProgressInv(s, sel) && Enabled(s, HandlerStep(p, e))
    ensures ProgressInv(Apply(s, HandlerStep(p, e)), sel)
  {
    var h := s.handlers[p];
    var t := Apply(s, HandlerStep(p, e));
    if !t.broker.ready && !t.past.swept {
      assert HandlerDue(h, s.redis.done, s.past.lastAdded, sel);
      assert HandlerOk(h, s.broker.tasks, s.db.rows, sel);
      assert s.redis.expected == sel && t.redis.expected == sel;
      DueNext(s, h, e, sel);
      forall q | q in t.handlers ensures HandlerDue(t.handlers[q], t.redis.done, t.past.lastAdded, sel) {
        if q != p { DueKept(s, h, e, s.handlers[q], sel); }
      }
      HandlerStepKeepsLast(s, h, e, sel);
      assert NoSynthesis(t);
    }
  }

  lemma HandlerStepKeepsLast(s: State, h: Handler, e: HandlerEvent, sel: set<AgentType>)
    requires HandlerEnabled(h, e) && !(e.Proceed? && h.pc.PublishReady?)
    requires h.task.agentType in sel && s.redis.done <= sel && s.past.completed <= s.redis.done
    requires HandlerDue(h, s.redis.done, s.past.lastAdded, sel)
    requires s.redis.done == sel ==> s.past.lastAdded in sel && s.past.lastAdded !in s.past.completed
    ensures
      var done := HandlerRedis(s.redis, h, e).done;
      var past := HandlerPast(s, h, e);
      && past.completed <= done
      && (done == sel ==> past.lastAdded in sel && past.lastAdded !in past.completed)
  {
  }

  lemma OrchestratorStepKeepsProgress(s: State, p: nat, e: OrchestratorEvent, hasManifest: bool)
    requires CompletionInv(s, Selected(hasManifest)) && ProgressInv(s, Selected(hasManifest))
    requires Enabled(s, OrchestratorStep(p, e)) && FirstRunAction(OrchestratorStep(p, e), hasManifest)
    ensures ProgressInv(Apply(s, OrchestratorStep(p, e)), Selected(hasManifest))
  {
    assert OrchestratorOk(s.orchestrators[p], s.redis, s.db.rows, Selected(hasManifest));
    OrchestratorStepStores(s, s.orchestrators[p], e, Selected(hasManifest));
  }

  lemma SynthesisStepKeepsProgress(s: State, p: nat, e: SynthesisEvent, sel: set<AgentType>)
    requires CompletionInv(s, sel) && ProgressInv(s, sel) && Enabled(s, SynthesisStep(p, e)) && !e.OldEnough?
    ensures ProgressInv(Apply(s, SynthesisStep(p, e)), sel)
  {
    var t := Apply(s, SynthesisStep(p, e));
    if !t.broker.ready && !t.past.swept {
      assert Sweeping(s.syntheses[p]);
      assert t.redis == s.redis && t.handlers == s.handlers;
    }
  }

  lemma OtherKeepsProgress(s: State, a: Action, sel: set<AgentType>)
    requires s.gateways == map[] && ProgressInv(s, sel) && Enabled(s, a)
    requires !a.HandlerStep? && !a.OrchestratorStep? && !a.SynthesisStep? && !a.Call?
    ensures ProgressInv(Apply(s, a), sel)
  {
    var t := Apply(s, a);
    if !t.broker.ready && !t.past.swept {
      assert NoSynthesis(t);
      forall q | q in t.handlers ensures HandlerDue(t.handlers[q], t.redis.done, t.past.lastAdded, sel) {
        if q in s.handlers { assert HandlerDue(s.handlers[q], s.redis.done, s.past.lastAdded, sel); }
      }
    }
  }

  lemma StepKeepsProgress(s: State, a: Action, hasManifest: bool)
    requires CompletionInv(s, Selected(hasManifest)) && ProgressInv(s, Selected(hasManifest))
    requires Enabled(s, a) && FirstRunAction(a, hasManifest)
    ensures ProgressInv(Apply(s, a), Selected(hasManifest))
  {
    var sel := Selected(hasManifest);
    match a
    case HandlerStep(p, e) => HandlerStepKeepsProgress(s, p, e, sel);
    case OrchestratorStep(p, e) => OrchestratorStepKeepsProgress(s, p, e, hasManifest);
    case SynthesisStep(p, e) => SynthesisStepKeepsProgress(s, p, e, sel);
    case _ => OtherKeepsProgress(s, a, sel);
  }

  // ─── Main results ───────────────────────────────────────────────────────────

  lemma {:induction false} FirstRunKeeps(s: State, run: seq<Action>, hasManifest: bool)
    requires CompletionInv(s, Selected(hasManifest)) && ProgressInv(s, Selected(hasManifest))
    requires Legal(s, run) && FirstRun(run, hasManifest)
    ensures CompletionInv(Exec(s, run), Selected(hasManifest)) && ProgressInv(Exec(s, run), Selected(hasManifest))
    decreases |run|
  {
    if run == [] {
    } else {
      StepKeepsCompletion(s, run[0], hasManifest);
      StepKeepsProgress(s, run[0], hasManifest);
      FirstRunKeeps(Apply(s, run[0]), run[1..], hasManifest);
    }
  }

  lemma FirstRunInvariant(run: seq<Action>, hasManifest: bool)
    requires Legal(INITIAL, run) && FirstRun(run, hasManifest)
    ensures CompletionInv(Exec(INITIAL, run), Selected(hasManifest))
    ensures ProgressInv(Exec(INITIAL, run), Selected(hasManifest))
  {
    assert Architecture in SelectAgents(hasManifest);
    assert Architecture in Selected(hasManifest);
    FirstRunKeeps(INITIAL, run, hasManifest);
  }

  /** ready_for_synthesis is published, and synthesis proper is entered, only when every
      dispatched agent type has a result row. */
  lemma ReadyOnlyWhenAllRecorded(run: seq<Action>, hasManifest: bool)
    requires Legal(INITIAL, run) && FirstRun(run, hasManifest)
    ensures
      var s := Exec(INITIAL, run);
      var allRecorded := forall t | t in s.broker.tasks :: HasType(s.db.rows, t.agentType);
      && (s.broker.ready ==> allRecorded)
      && (forall p | p in s.handlers && s.handlers[p].pc.PublishReady? :: allRecorded)
      && (forall p | p in s.syntheses && !Sweeping(s.syntheses[p]) :: allRecorded)
  {
    FirstRunInvariant(run, hasManifest);
    var s := Exec(INITIAL, run);
    forall p | p in s.handlers && s.handlers[p].pc.PublishReady?
      ensures Covered(s.db.rows, Selected(hasManifest))
    {
      assert HandlerOk(s.handlers[p], s.broker.tasks, s.db.rows, Selected(hasManifest));
    }
    forall p | p in s.syntheses && !Sweeping(s.syntheses[p])
      ensures Covered(s.db.rows, Selected(hasManifest))
    {
      assert SynthesisOk(s.syntheses[p], s.db.rows, Selected(hasManifest));
    }
  }

  /** The job cannot be forgotten: once, for every selected type, some handler has run its
      bookkeeping to the end, ready_for_synthesis has been published, or a sweep had already
      found the counters complete. */
  lemma CompletionIsAnnounced(run: seq<Action>, hasManifest: bool)
    requires Legal(INITIAL, run) && FirstRun(run, hasManifest)
    requires Selected(hasManifest) <= Exec(INITIAL, run).past.completed
    ensures Exec(INITIAL, run).broker.ready || Exec(INITIAL, run).past.swept
  {
    FirstRunInvariant(run, hasManifest);
  }

  predicate Counting(y: Synthesis) { y.pc.SweepStatus? || y.pc.SweepDone? || y.pc.SweepExpected? || y.pc.SweepFallback? }

  /** No sweep has found the counters complete, and none is under way. */
  ghost predicate Unswept(s: State) {
    !s.past.swept && forall p | p in s.syntheses :: !Counting(s.syntheses[p])
  }

  lemma StaysUnswept(s: State, a: Action)
    requires Unswept(s) && Enabled(s, a) && !a.Sweep?
    ensures Unswept(Apply(s, a))
  {
  }

  lemma {:induction false} UnsweptRun(s: State, run: seq<Action>)
    requires Unswept(s) && Legal(s, run) && (forall a | a in run :: !a.Sweep?)
    ensures Unswept(Exec(s, run))
    decreases |run|
  {
    if run != [] {
      assert run[0] in run;
      StaysUnswept(s, run[0]);
      UnsweptRun(Apply(s, run[0]), run[1..]);
    }
  }

  /** So in a run without sweeps the handlers themselves publish. */
  lemma CompletionIsPublished(run: seq<Action>, hasManifest: bool)
    requires Legal(INITIAL, run) && FirstRun(run, hasManifest) && (forall a | a in run :: !a.Sweep?)
    requires Selected(hasManifest) <= Exec(INITIAL, run).past.completed
    ensures Exec(INITIAL, run).broker.ready
  {
    CompletionIsAnnounced(run, hasManifest);
    UnsweptRun(INITIAL, run);
  }

  /** What `completed` stands for: as soon as one handler of a type has finished its
      bookkeeping, the type is in it. */
  lemma FinishedIsCompleted(run: seq<Action>, p: nat)
    requires Legal(INITIAL, run)
    requires p in Exec(INITIAL, run).handlers && Exec(INITIAL, run).handlers[p].pc.Finished?
    ensures Exec(INITIAL, run).handlers[p].task.agentType in Exec(INITIAL, run).past.completed
  {
    FinishedRun(INITIAL, run);
  }

  ghost predicate FinishedCounted(handlers: map<nat, Handler>, completed: set<AgentType>) {
    forall p | p in handlers && handlers[p].pc.Finished? :: handlers[p].task.agentType in completed
  }

  lemma FinishCounts(s: State, h: Handler, e: HandlerEvent)
    requires HandlerEnabled(h, e) && HandlerNext(s, h, e).pc.Finished?
    ensures h.task.agentType in HandlerPast(s, h, e).completed
  {
  }

  lemma FinishedStep(s: State, a: Action)
    requires FinishedCounted(s.handlers, s.past.completed) && Enabled(s, a)
    ensures FinishedCounted(Apply(s, a).handlers, Apply(s, a).past.completed)
  {
    match a
    case HandlerStep(p, e) =>
      if HandlerNext(s, s.handlers[p], e).pc.Finished? { FinishCounts(s, s.handlers[p], e); }
      assert s.past.completed <= HandlerPast(s, s.handlers[p], e).completed;
      assert Apply(s, a).handlers == s.handlers[p := HandlerNext(s, s.handlers[p], e)];
    case _ =>
      assert Apply(s, a).past.completed == s.past.completed;
  }

  lemma {:induction false} FinishedRun(s: State, run: seq<Action>)
    requires FinishedCounted(s.handlers, s.past.completed) && Legal(s, run)
    ensures FinishedCounted(Exec(s, run).handlers, Exec(s, run).past.completed)
    decreases |run|
  {
    if run == [] {
    } else {
      FinishedStep(s, run[0]);
      FinishedRun(Apply(s, run[0]), run[1..]);
    }
  }

  // ─── Whatever manifests the indexings see ───────────────────────────────────

  /** No gateway call and no eviction fallback; the manifest may change between deliveries. */
  predicate UnassistedAction(a: Action) { !a.Call? && (a.SynthesisStep? ==> !a.synthesisEvent.OldEnough?) }

  predicate Unassisted(run: seq<Action>) { forall a | a in run :: UnassistedAction(a) }

  ghost predicate AllRecorded(s: State) {
    forall t | t in s.broker.tasks :: HasType(s.db.rows, t.agentType)
  }

  /** What was seen of agents_done is expected and has rows. */
  ghost predicate Counted(doneSeen: set<AgentType>, expected: set<AgentType>, rows: seq<Row>) {
    doneSeen <= expected && Covered(rows, doneSeen)
  }

  ghost predicate OrchestratorExpects(o: Orchestrator, expected: set<AgentType>) {
    o.request.retry == [] && (o.pc.Dispatch? ==> forall t | t in o.remaining :: t in expected)
  }

  ghost predicate HandlerCounted(h: Handler, tasks: set<Task>, expected: set<AgentType>, rows: seq<Row>) {
    && h.task in tasks && (PastInsert(h) ==> HasType(rows, h.task.agentType))
    && Counted(h.doneSeen, expected, rows)
  }

  /** Until a synthesis deletes the counters: all that is done is expected and recorded, and
      all that is dispatched is expected. */
  ghost predicate CountInv(s: State) {
    && s.gateways == map[] && (forall q | q in s.broker.requests :: q.retry == [])
    && Counted(s.redis.done, s.redis.expected, s.db.rows)
    && (forall t | t in s.broker.tasks :: t.agentType in s.redis.expected)
    && (forall p | p in s.orchestrators :: OrchestratorExpects(s.orchestrators[p], s.redis.expected))
    && (forall p | p in s.handlers :: HandlerCounted(s.handlers[p], s.broker.tasks, s.redis.expected, s.db.rows))
    && (forall p | p in s.syntheses :: Counted(s.syntheses[p].doneSeen, s.redis.expected, s.db.rows))
  }

  lemma CountedLater(h: Handler, next: Handler, tasks: set<Task>, expected: set<AgentType>, rows: seq<Row>, rows': seq<Row>)
    requires HandlerCounted(h, tasks, expected, rows) && Grows(rows, rows') && next.task == h.task
    requires next.doneSeen == h.doneSeen || Counted(next.doneSeen, expected, rows)
    requires PastInsert(next) ==> PastInsert(h) || HasType(rows', h.task.agentType)
    ensures HandlerCounted(next, tasks, expected, rows')
  {
  }

  lemma UnrecordedNext(s: State, h: Handler, e: HandlerEvent)
    requires HandlerEnabled(h, e) && (!e.Proceed? || Early(h))
    ensures Unrecorded(h, HandlerNext(s, h, e))
  {
  }

  lemma RecordCounted(s: State, h: Handler)
    requires HandlerEnabled(h, Proceed) && !Early(h)
    ensures Advance(s, h).task == h.task
    ensures Advance(s, h).doneSeen == if h.pc.ReadDone? then s.redis.done else h.doneSeen
    ensures PastInsert(h) || h.pc.InsertRow?
  {
  }

  lemma HandlerCountedNext(s: State, h: Handler, e: HandlerEvent)
    requires HandlerEnabled(h, e) && HandlerCounted(h, s.broker.tasks, s.redis.expected, s.db.rows)
    requires Counted(s.redis.done, s.redis.expected, s.db.rows)
    ensures HandlerCounted(HandlerNext(s, h, e), s.broker.tasks, s.redis.expected, HandlerDatabase(s.db, h, e).rows)
  {
    HandlerGrows(s.db, h, e);
    if !e.Proceed? || Early(h) {
      UnrecordedNext(s, h, e);
    } else {
      RecordCounted(s, h);
      if h.pc.InsertRow? { RowsGrow(s.db.rows, Row(h.task.agentType, h.success)); }
    }
    CountedLater(h, HandlerNext(s, h, e), s.broker.tasks, s.redis.expected, s.db.rows, HandlerDatabase(s.db, h, e).rows);
  }

  lemma CountsGrow(s: State, h: Handler, e: HandlerEvent)
    requires HandlerCounted(h, s.broker.tasks, s.redis.expected, s.db.rows) && Counted(s.redis.done, s.redis.expected, s.db.rows)
    requires forall t | t in s.broker.tasks :: t.agentType in s.redis.expected
    ensures Counted(HandlerRedis(s.redis, h, e).done, s.redis.expected, HandlerDatabase(s.db, h, e).rows)
  {
    HandlerGrows(s.db, h, e);
  }

  lemma HandlerStepCounts(s: State, p: nat, e: HandlerEvent)
    requires CountInv(s) && Enabled(s, HandlerStep(p, e))
    ensures CountInv(Apply(s, HandlerStep(p, e)))
  {
    var t := Apply(s, HandlerStep(p, e));
    assert HandlerCounted(s.handlers[p], s.broker.tasks, s.redis.expected, s.db.rows);
    HandlerCountedNext(s, s.handlers[p], e);
    CountsGrow(s, s.handlers[p], e);
    HandlerGrows(s.db, s.handlers[p], e);
    forall q | q in t.handlers ensures HandlerCounted(t.handlers[q], t.broker.tasks, t.redis.expected, t.db.rows) {
      if q != p { assert HandlerCounted(s.handlers[q], s.broker.tasks, s.redis.expected, s.db.rows); }
    }
    assert forall q | q in t.syntheses :: Counted(s.syntheses[q].doneSeen, s.redis.expected, s.db.rows);
  }

  lemma OrchestratorStepCounts(s: State, p: nat, e: OrchestratorEvent)
    requires CountInv(s) && Enabled(s, OrchestratorStep(p, e))
    ensures CountInv(Apply(s, OrchestratorStep(p, e)))
  {
    var o := s.orchestrators[p];
    var t := Apply(s, OrchestratorStep(p, e));
    assert OrchestratorExpects(o, s.redis.expected) && s.redis.expected <= t.redis.expected;
    if Happens(e) && o.pc.Dispatch? { assert o.remaining[0] in o.remaining; }
    forall q | q in t.orchestrators ensures OrchestratorExpects(t.orchestrators[q], t.redis.expected) {
      if q != p { assert OrchestratorExpects(s.orchestrators[q], s.redis.expected); }
    }
    forall q | q in t.handlers ensures HandlerCounted(t.handlers[q], t.broker.tasks, t.redis.expected, t.db.rows) {
      assert HandlerCounted(s.handlers[q], s.broker.tasks, s.redis.expected, s.db.rows);
    }
    assert forall q | q in t.syntheses :: Counted(s.syntheses[q].doneSeen, s.redis.expected, s.db.rows);
  }

  lemma SynthesisStepCounts(s: State, p: nat, e: SynthesisEvent)
    requires CountInv(s) && Enabled(s, SynthesisStep(p, e)) && !(Comes(e) && Drops(s.syntheses[p]))
    ensures CountInv(Apply(s, SynthesisStep(p, e)))
  {
    var t := Apply(s, SynthesisStep(p, e));
    assert Counted(s.syntheses[p].doneSeen, s.redis.expected, s.db.rows);
    assert t.redis.done == s.redis.done && t.redis.expected == s.redis.expected && t.db.rows == s.db.rows;
    assert forall q | q in t.handlers :: HandlerCounted(s.handlers[q], s.broker.tasks, s.redis.expected, s.db.rows);
    assert forall q | q in t.orchestrators :: OrchestratorExpects(s.orchestrators[q], s.redis.expected);
    forall q | q in t.syntheses ensures Counted(t.syntheses[q].doneSeen, t.redis.expected, t.db.rows) {
      if q != p { assert Counted(s.syntheses[q].doneSeen, s.redis.expected, s.db.rows); }
    }
  }

  lemma OtherCounts(s: State, a: Action)
    requires CountInv(s) && Enabled(s, a) && !a.Call?
    requires !a.HandlerStep? && !a.OrchestratorStep? && !a.SynthesisStep?
    ensures CountInv(Apply(s, a))
  {
    var t := Apply(s, a);
    forall q | q in t.handlers ensures HandlerCounted(t.handlers[q], t.broker.tasks, t.redis.expected, t.db.rows) {
      if q in s.handlers { assert HandlerCounted(s.handlers[q], s.broker.tasks, s.redis.expected, s.db.rows); }
    }
    forall q | q in t.orchestrators ensures OrchestratorExpects(t.orchestrators[q], t.redis.expected) {
      if q in s.orchestrators { assert OrchestratorExpects(s.orchestrators[q], s.redis.expected); }
    }
    forall q | q in t.syntheses ensures Counted(t.syntheses[q].doneSeen, t.redis.expected, t.db.rows) {
      if q in s.syntheses { assert Counted(s.syntheses[q].doneSeen, s.redis.expected, s.db.rows); }
    }
  }

  lemma StepCounts(s: State, a: Action)
    requires CountInv(s) && Enabled(s, a) && UnassistedAction(a) && !Apply(s, a).past.dropped
    ensures CountInv(Apply(s, a))
  {
    match a
    case HandlerStep(p, e) => HandlerStepCounts(s, p, e);
    case OrchestratorStep(p, e) => OrchestratorStepCounts(s, p, e);
    case SynthesisStep(p, e) => SynthesisStepCounts(s, p, e);
    case _ => OtherCounts(s, a);
  }

  lemma {:induction false} DroppedStays(s: State, run: seq<Action>)
    requires Legal(s, run) && s.past.dropped
    ensures Exec(s, run).past.dropped
    decreases |run|
  {
    if run != [] {
      assert Apply(s, run[0]).past.dropped;
      DroppedStays(Apply(s, run[0]), run[1..]);
    }
  }

  lemma {:induction false} RunCounts(s: State, run: seq<Action>)
    requires CountInv(s) && Legal(s, run) && Unassisted(run) && !Exec(s, run).past.dropped
    ensures CountInv(Exec(s, run))
    decreases |run|
  {
    if run != [] {
      assert run[0] in run;
      var t := Apply(s, run[0]);
      if t.past.dropped { DroppedStays(t, run[1..]); }
      StepCounts(s, run[0]);
      RunCounts(t, run[1..]);
    }
  }

  /** Whatever the indexings saw: as long as no synthesis has deleted the counters, a handler
      or a sweep that finds the count complete does so when every type dispatched so far has
      its row. */
  lemma CompleteCountsAreRight(run: seq<Action>)
    requires Legal(INITIAL, run) && Unassisted(run) && !Exec(INITIAL, run).past.dropped
    ensures
      var s := Exec(INITIAL, run);
      && (forall p | p in s.handlers && s.handlers[p].pc.ReadExpected? ::
            Advance(s, s.handlers[p]).full ==> AllRecorded(s))
      && (forall p | p in s.syntheses && s.syntheses[p].pc.SweepExpected? ::
            SweepFoundComplete(s.redis, s.syntheses[p], Continue) ==> AllRecorded(s))
  {
    RunCounts(INITIAL, run);
    var s := Exec(INITIAL, run);
    forall p | p in s.handlers && s.handlers[p].pc.ReadExpected? && Advance(s, s.handlers[p]).full ensures AllRecorded(s) {
      assert HandlerCounted(s.handlers[p], s.broker.tasks, s.redis.expected, s.db.rows);
      SameSize(s.handlers[p].doneSeen, s.redis.expected);
    }
    forall p | p in s.syntheses && SweepFoundComplete(s.redis, s.syntheses[p], Continue) ensures AllRecorded(s) {
      SameSize(s.syntheses[p].doneSeen, s.redis.expected);
    }
  }

  /** But what was right when it was decided need not stay so: a redelivered request whose
      indexing sees a manifest that the first one did not dispatches a fifth agent after
      ready_for_synthesis was published. */
  lemma ChangedManifestDispatchesMore() returns (run: seq<Action>)
    ensures Legal(INITIAL, run) && Unassisted(run)
    ensures
      var s := Exec(INITIAL, run);
      s.broker.ready && Task(Dependency, 0) in s.broker.tasks && !HasType(s.db.rows, Dependency)
  {
    run := ReadyRun();
    ghost var s := Exec(INITIAL, run);
    run := DispatchAll(run, 1, true);
    FifthDispatched(s, Exec(INITIAL, run));
  }

  lemma FifthDispatched(s: State, t: State)
    requires IsReady(s) && Dispatching(s, t, 1, SelectAgents(true), |SelectAgents(true)|)
    ensures t.broker.ready && Task(Dependency, 0) in t.broker.tasks && !HasType(t.db.rows, Dependency)
  {
    assert SelectAgents(true)[..5] == SelectAgents(true) && SelectAgents(true)[4] == Dependency;
    assert Task(Dependency, 0) in TasksFor(SelectAgents(true), 0);
    forall r | r in s.db.rows ensures r.agentType != Dependency {
      var i :| 0 <= i < 4 && s.db.rows[i] == r;
    }
  }
}
