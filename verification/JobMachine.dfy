/**
 One analysis job as a machine of atomic commands.

 Every Redis command, Postgres statement and broker publish that the gateway, the
 orchestrator, the agent workers, the dead-letter consumer and the synthesizer issue
 for a job is one action; between two actions any other process may act. Each process
 keeps a program counter that follows the order of commands in its handler.

 The broker is at-least-once: a message that was ever published may be delivered again
 at any time, which covers acks that were lost, redelivery and dead-lettering. Any
 process may crash between two commands, and any command may fail with an exception,
 before it takes effect or after (its reply was lost).
 */
module JobMachine {
  import opened Common
  import opened AgentTypes
  import opened LatestRows

  datatype Status = Pending | Running | Done | Failed | Cancelled

  /** An `analysis.requested` message. `retry` is empty for a full run. */
  datatype Request = Request(epoch: Option<nat>, retry: seq<AgentType>)

  /** The agent message that the orchestrator dispatches. */
  datatype Task = Task(agentType: AgentType, epoch: nat)

  // ─── Processes ──────────────────────────────────────────────────────────────

  datatype HandlerPc =
    | PreFence      // GET epoch, before any work
    | CostCap       // GET tokens_used, open the graph, load facts
    | CheckAlive    // GET epoch at the top of a turn
    | CallModel     // one LLM call
    | TurnDone      // the reply is in: run tools and loop, or stop
    | CountTokens   // INCRBY tokens_used
    | InsertRow     // agentResult.create
    | AddDone       // SADD agents_done
    | ReadDone      // SCARD agents_done
    | ReadExpected  // SCARD agents_expected
    | Progress      // publish job:progress
    | PublishReady  // publish ready_for_synthesis
    | Finished      // bookkeeping complete
    | Fenced        // dropped by the fence
    | Abandoned     // gave up after an error: nacked, or logged and acked

  /**
   A worker handling one agent message, or the dead-letter consumer handling one.
   `infra` is set on the catch path (recordInfraFailure). The last five fields are
   history: the value the last fence read returned, whether the pre-flight read failed,
   the LLM calls since the last fence read, the LLM calls started while the message was
   already stale, and whether anything was recorded.
   */
  datatype Handler = Handler(
    task: Task,
    deadLetter: bool,
    pc: HandlerPc,
    infra: bool,
    success: bool,
    doneSeen: set<AgentType>,
    full: bool,
    lastFence: Option<nat>,
    fenceReadFailed: bool,
    callsSince: nat,
    staleCalls: nat,
    recorded: bool)

  datatype OrchestratorPc =
    | ReadEpoch | MarkRunning | Index | AddExpected | Dispatch | MarkFailed | Settled

  datatype Orchestrator = Orchestrator(
    request: Request,
    pc: OrchestratorPc,
    epoch: nat,
    selected: seq<AgentType>,
    remaining: seq<AgentType>)

  datatype SynthesisPc =
    | SweepStatus | SweepDone | SweepExpected | SweepFallback
    | Claim | CheckReport | CheckStatus
    | LoadRows | CallSonnet | CreateReport | MarkDone | DropCounters
    | GuardStatus | GuardDrop   // failJob when no agent succeeded, inside the try block
    | FailStatus | FailDrop     // failJob in the catch block
    | Ended

  /** One call of synthesize(), possibly reached through the sweep. `inserted` is history:
      its own insert wrote the report. */
  datatype Synthesis = Synthesis(pc: SynthesisPc, doneSeen: set<AgentType>, inserted: bool)

  datatype GatewayPc = Guard | Bump | Wipe | SetStatus | StampEpoch | Emit | Replied

  datatype Operation = ForceStop | Cancel | Retry

  datatype Gateway = Gateway(operation: Operation, pc: GatewayPc, epoch: nat, retry: seq<AgentType>)

  /** The job's Redis keys. */
  datatype Redis = Redis(epoch: nat, done: set<AgentType>, expected: set<AgentType>, lock: Option<nat>)

  /** The job's Postgres rows. */
  datatype Database = Database(status: Status, rows: seq<Row>, reports: nat)

  /** Every message ever published for the job. */
  datatype Broker = Broker(requests: set<Request>, tasks: set<Task>, ready: bool)

  /** History, read by no process: the type whose SADD last grew agents_done, the types
      whose bookkeeping ran to the end, whether a sweep found the counters complete, whether a
      synthesis has deleted the counters, and the epochs that force-stops were given. */
  datatype Past = Past(lastAdded: AgentType, completed: set<AgentType>, swept: bool, dropped: bool, stamps: seq<nat>)

  datatype State = State(
    redis: Redis,
    db: Database,
    broker: Broker,
    past: Past,
    handlers: map<nat, Handler>,
    orchestrators: map<nat, Orchestrator>,
    syntheses: map<nat, Synthesis>,
    gateways: map<nat, Gateway>)

  /** createAnalysisJob: a pending row, no epoch key, one request stamped 0. */
  const INITIAL: State := State(
    Redis(0, {}, {}, None),
    Database(Pending, [], 0),
    Broker({Request(Some(0), [])}, {}, false),
    Past(Architecture, {}, false, false, []),
    map[], map[], map[], map[])

  // ─── Actions ────────────────────────────────────────────────────────────────

  datatype HandlerEvent =
    | Proceed
    | OverBudget              // at CostCap: the job budget is spent
    | NextTurn                // at TurnDone: tools ran, another turn follows
    | Stop(success: bool)     // at TurnDone: the agent returned a result
    | CommandFails            // the pending command throws, without effect
    | CommandFailsAfter       // it takes effect, and throws all the same

  datatype OrchestratorEvent =
    | Go
    | Indexed(hasManifest: bool)   // at Index: checkout, graph, facts and manifest are ready
    | NoSource                     // at Index: the graph has no nodes
    | Throws
    | ThrowsAfter                  // after taking effect

  datatype SynthesisEvent = Continue | OldEnough | CommandThrows | CommandThrowsAfter

  datatype Action =
    | Deliver(p: nat, task: Task)
    | DeadLetter(p: nat, task: Task)
    | HandlerStep(p: nat, handlerEvent: HandlerEvent)
    | Consume(p: nat, request: Request)
    | BuryRequest(p: nat, request: Request)   // the analysis dead-letter consumer: markFailed, unfenced
    | OrchestratorStep(p: nat, orchestratorEvent: OrchestratorEvent)
    | Wake(p: nat)
    | Sweep(p: nat)
    | SynthesisStep(p: nat, synthesisEvent: SynthesisEvent)
    | Call(p: nat, operation: Operation)
    | GatewayStep(p: nat)
    | ExpireLock
    | Crash(p: nat)

  // ─── Agent handlers ─────────────────────────────────────────────────────────

  function NewHandler(task: Task, deadLetter: bool): Handler {
    Handler(task, deadLetter, PreFence, false, false, {}, false, None, false, 0, 0, false)
  }

  predicate HandlerEnabled(h: Handler, e: HandlerEvent) {
    && (!h.pc.Finished? && !h.pc.Fenced? && !h.pc.Abandoned?)
    && (e.OverBudget? ==> h.pc.CostCap?)
    && (e.NextTurn? || e.Stop? ==> h.pc.TurnDone?)
    && (e.Proceed? ==> !h.pc.TurnDone?)
    && (e.CommandFails? || e.CommandFailsAfter? ==> !h.pc.TurnDone?)
  }

  /** From the fence to the end of the agent loop. */
  predicate Early(h: Handler) {
    h.pc.PreFence? || h.pc.CostCap? || h.pc.CheckAlive? || h.pc.CallModel? || h.pc.CountTokens?
  }

  /** The row is in; the rest of the bookkeeping follows. */
  predicate PastInsert(h: Handler) {
    h.pc.AddDone? || h.pc.ReadDone? || h.pc.ReadExpected? || h.pc.Progress? || h.pc.PublishReady? || h.pc.Finished?
  }

  /** A handler whose bookkeeping has not begun, with what it has seen of the counters unchanged. */
  predicate Unrecorded(h: Handler, next: Handler) {
    next.task == h.task && next.doneSeen == h.doneSeen && next.full == h.full && !PastInsert(next)
  }

  /** Is the message superseded? */
  predicate Stale(s: State, h: Handler) { h.task.epoch != s.redis.epoch }

  predicate ReadsFence(h: Handler) { h.pc.PreFence? || h.pc.CheckAlive? }

  /** LLM calls started while the message was already stale. */
  function StaleCalls(s: State, h: Handler): nat {
    if h.pc.CallModel? && Stale(s, h) then h.staleCalls + 1 else h.staleCalls
  }

  /** Where a handler goes when its command completes. */
  function NextPc(s: State, h: Handler): HandlerPc {
    match h.pc
    case PreFence => if Stale(s, h) then Fenced else if h.deadLetter then InsertRow else CostCap
    case CostCap => CheckAlive
    case CheckAlive => if Stale(s, h) then Fenced else CallModel
    case CallModel => TurnDone
    case CountTokens => InsertRow
    case InsertRow => AddDone
    case AddDone => ReadDone
    case ReadDone => ReadExpected
    case ReadExpected => Progress
    case Progress => if h.full then PublishReady else Finished
    case PublishReady => Finished
    case _ => h.pc
  }

  /** The command at the program counter completes. */
  function Advance(s: State, h: Handler): Handler {
    h.(pc := NextPc(s, h),
       lastFence := if ReadsFence(h) then Some(s.redis.epoch) else h.lastFence,
       callsSince := if ReadsFence(h) then 0 else if h.pc.CallModel? then h.callsSince + 1 else h.callsSince,
       staleCalls := StaleCalls(s, h),
       recorded := h.recorded || h.pc.InsertRow? || h.pc.AddDone?,
       doneSeen := if h.pc.ReadDone? then s.redis.done else h.doneSeen,
       full := if h.pc.ReadExpected? then |h.doneSeen| >= |s.redis.expected| else h.full)
  }

  /** The agent loop turns its own errors into a failed result. */
  predicate LoopCatches(h: Handler) { h.pc.CheckAlive? || h.pc.CallModel? }

  /** Any other error of a worker goes to recordInfraFailure; a second one is only logged. */
  predicate GivesUp(h: Handler) { !LoopCatches(h) && (h.infra || h.deadLetter) }

  /** The command at the program counter throws. */
  function HandlerThrows(s: State, h: Handler): Handler {
    h.(pc := if GivesUp(h) then Abandoned else InsertRow,
       infra := h.infra || (!LoopCatches(h) && !GivesUp(h)),
       success := h.success && GivesUp(h),
       fenceReadFailed := h.fenceReadFailed || (h.pc.PreFence? && !GivesUp(h)),
       callsSince := if h.pc.CallModel? then h.callsSince + 1 else h.callsSince,
       staleCalls := StaleCalls(s, h))
  }

  /** The handler's own next state. */
  function HandlerNext(s: State, h: Handler, e: HandlerEvent): (next: Handler)
    ensures next.task == h.task
  {
    match e
    case Proceed => Advance(s, h)
    case CommandFails => HandlerThrows(s, h)
    case CommandFailsAfter => HandlerThrows(s, h).(recorded := h.recorded || h.pc.InsertRow?)
    case OverBudget => h.(pc := InsertRow, success := false)
    case NextTurn => h.(pc := CheckAlive)
    case Stop(success) => h.(pc := if success then CountTokens else InsertRow, success := success)
  }

  // What the command of a handler does to each store, if it takes effect.

  predicate TakesEffect(e: HandlerEvent) { e.Proceed? || e.CommandFailsAfter? }

  function HandlerRedis(r: Redis, h: Handler, e: HandlerEvent): Redis {
    if TakesEffect(e) && h.pc.AddDone? then r.(done := r.done + {h.task.agentType}) else r
  }

  function HandlerDatabase(d: Database, h: Handler, e: HandlerEvent): Database {
    if TakesEffect(e) && h.pc.InsertRow? then d.(rows := d.rows + [Row(h.task.agentType, h.success)]) else d
  }

  function HandlerBroker(b: Broker, h: Handler, e: HandlerEvent): Broker {
    if TakesEffect(e) && h.pc.PublishReady? then b.(ready := true) else b
  }

  function HandlerPast(s: State, h: Handler, e: HandlerEvent): Past {
    if TakesEffect(e) && h.pc.AddDone? && h.task.agentType !in s.redis.done then
      s.past.(lastAdded := h.task.agentType)
    else if e.Proceed? && (h.pc.PublishReady? || (h.pc.Progress? && !h.full)) then
      s.past.(completed := s.past.completed + {h.task.agentType})
    else s.past
  }

  // ─── Orchestrator ───────────────────────────────────────────────────────────

  /** selectAgents: four unconditional agents, `dependency` only with a manifest file. */
  function SelectAgents(hasManifest: bool): seq<AgentType> {
    [Architecture, Security, Quality, Docs] + (if hasManifest then [Dependency] else [])
  }

  predicate Happens(e: OrchestratorEvent) { e.Go? || e.ThrowsAfter? }

  predicate OrchestratorEnabled(o: Orchestrator, e: OrchestratorEvent) {
    && !o.pc.Settled?
    && (e.NoSource? || e.Indexed? ==> o.pc.Index?)
    && (e.Go? ==> !o.pc.Index?)
    && (o.pc.Dispatch? && Happens(e) ==> o.remaining != [])
  }

  /** The request was published for a run that has been superseded since. */
  predicate Obsolete(s: State, o: Orchestrator) {
    o.request.epoch.Some? && o.request.epoch.value != s.redis.epoch
  }

  function OrchestratorNextPc(s: State, o: Orchestrator, e: OrchestratorEvent): OrchestratorPc {
    match e
    case Throws | ThrowsAfter =>
      // the fence read sits outside the try block; a failing markFailed ends the handler
      if o.pc.ReadEpoch? || o.pc.MarkFailed? then Settled else MarkFailed
    case NoSource => MarkFailed
    case Indexed(_) => if o.request.retry != [] then Dispatch else AddExpected
    case Go =>
      match o.pc
      case ReadEpoch => if Obsolete(s, o) then Settled else MarkRunning
      case MarkRunning => Index
      case AddExpected => Dispatch
      case Dispatch => if |o.remaining| == 1 then Settled else Dispatch
      case _ => Settled
  }

  function OrchestratorNext(s: State, o: Orchestrator, e: OrchestratorEvent): Orchestrator
    requires OrchestratorEnabled(o, e)
  {
    o.(pc := OrchestratorNextPc(s, o, e),
       epoch := if e.Go? && o.pc.ReadEpoch? && !Obsolete(s, o) then o.request.epoch.GetOr(s.redis.epoch) else o.epoch,
       selected := if e.Indexed? && o.request.retry == [] then SelectAgents(e.hasManifest) else o.selected,
       remaining := if e.Indexed? && o.request.retry != [] then o.request.retry
                    else if e.Go? && o.pc.AddExpected? then o.selected
                    else if e.Go? && o.pc.Dispatch? then o.remaining[1..]
                    else o.remaining)
  }

  function OrchestratorRedis(r: Redis, o: Orchestrator, e: OrchestratorEvent): Redis {
    if Happens(e) && o.pc.AddExpected? then r.(expected := r.expected + set t | t in o.selected) else r
  }

  function OrchestratorDatabase(d: Database, o: Orchestrator, e: OrchestratorEvent): Database {
    if Happens(e) && o.pc.MarkRunning? then d.(status := Running)
    else if Happens(e) && o.pc.MarkFailed? then d.(status := Failed)
    else d
  }

  function OrchestratorBroker(b: Broker, o: Orchestrator, e: OrchestratorEvent): Broker
    requires OrchestratorEnabled(o, e)
  {
    if Happens(e) && o.pc.Dispatch? then b.(tasks := b.tasks + {Task(o.remaining[0], o.epoch)}) else b
  }

  // ─── Synthesizer ────────────────────────────────────────────────────────────

  /** Between a successful claim and the end of synthesize(). */
  predicate Active(y: Synthesis) {
    y.pc.CheckReport? || y.pc.CheckStatus? || InTry(y) || y.pc.FailStatus? || y.pc.FailDrop?
  }

  predicate InTry(y: Synthesis) {
    || y.pc.LoadRows? || y.pc.GuardStatus? || y.pc.GuardDrop? || y.pc.CallSonnet? || y.pc.CreateReport?
    || y.pc.MarkDone? || y.pc.DropCounters?
  }

  predicate SynthesisEnabled(y: Synthesis, e: SynthesisEvent) {
    !y.pc.Ended? && (e.OldEnough? ==> y.pc.SweepFallback?)
  }

  predicate Comes(e: SynthesisEvent) { e.Continue? || e.CommandThrowsAfter? }

  /** Report.jobId is unique: a second insert fails. */
  predicate Inserts(d: Database, y: Synthesis) { y.pc.CreateReport? && d.reports == 0 }

  function SynthesisNextPc(s: State, y: Synthesis, e: SynthesisEvent): SynthesisPc {
    match e
    case CommandThrows | CommandThrowsAfter =>
      // inside the try block an error goes to failJob; elsewhere it ends the call
      if InTry(y) then FailStatus else Ended
    case OldEnough => if s.db.rows != [] then Claim else Ended
    case Continue =>
      match y.pc
      case SweepStatus => if s.db.status.Running? then SweepDone else Ended
      case SweepDone => SweepExpected
      case SweepExpected =>
        if s.redis.expected == {} then SweepFallback
        else if |y.doneSeen| < |s.redis.expected| then Ended else Claim
      case SweepFallback => Ended
      case Claim => if s.redis.lock.None? then CheckReport else Ended
      case CheckReport => if s.db.reports > 0 then Ended else CheckStatus
      case CheckStatus => if s.db.status.Cancelled? then Ended else LoadRows
      case LoadRows => if AnyLatestSucceeded(s.db.rows) then CallSonnet else GuardStatus
      case GuardStatus => GuardDrop
      case CallSonnet => CreateReport
      case CreateReport => if s.db.reports == 0 then MarkDone else FailStatus
      case MarkDone => DropCounters
      case FailStatus => FailDrop
      case _ => Ended
  }

  function SynthesisNext(s: State, y: Synthesis, e: SynthesisEvent): Synthesis {
    y.(pc := SynthesisNextPc(s, y, e),
       doneSeen := if e.Continue? && y.pc.SweepDone? then s.redis.done else y.doneSeen,
       inserted := y.inserted || (Comes(e) && Inserts(s.db, y)))
  }

  function SynthesisRedis(r: Redis, p: nat, y: Synthesis, e: SynthesisEvent): Redis {
    if Comes(e) && y.pc.Claim? && r.lock.None? then r.(lock := Some(p))
    else if Comes(e) && Drops(y) then r.(done := {}, expected := {})
    else r
  }

  predicate Drops(y: Synthesis) { y.pc.DropCounters? || y.pc.GuardDrop? || y.pc.FailDrop? }

  function SynthesisDatabase(d: Database, y: Synthesis, e: SynthesisEvent): Database {
    if Comes(e) && Inserts(d, y) then d.(reports := 1)
    else if Comes(e) && y.pc.MarkDone? then d.(status := Done)
    else if Comes(e) && (y.pc.GuardStatus? || y.pc.FailStatus?) then d.(status := Failed)
    else d
  }

  predicate SweepFoundComplete(r: Redis, y: Synthesis, e: SynthesisEvent) {
    e.Continue? && y.pc.SweepExpected? && r.expected != {} && |y.doneSeen| >= |r.expected|
  }

  function SynthesisPast(s: State, y: Synthesis, e: SynthesisEvent): Past {
    s.past.(swept := s.past.swept || SweepFoundComplete(s.redis, y, e), dropped := s.past.dropped || (Comes(e) && Drops(y)))
  }

  // ─── Gateway ────────────────────────────────────────────────────────────────

  function GatewayNextPc(s: State, g: Gateway): GatewayPc {
    match g.pc
    case Guard =>
      if g.operation.ForceStop? then Bump
      else if s.db.status.Pending? || s.db.status.Running? then (if g.operation.Cancel? then Bump else Replied)
      else if g.operation.Cancel? then Replied
      else if !s.db.status.Done? then SetStatus
      else if LatestFailures(s.db.rows) == [] then Replied
      else Wipe
    case Bump => Wipe
    case Wipe => SetStatus
    case SetStatus =>
      if g.operation.ForceStop? then Emit else if g.operation.Retry? then StampEpoch else Replied
    case StampEpoch => Emit
    case _ => Replied
  }

  function GatewayNext(s: State, g: Gateway): Gateway {
    g.(pc := GatewayNextPc(s, g),
       epoch := if g.pc.Bump? then s.redis.epoch + 1 else if g.pc.StampEpoch? then s.redis.epoch else g.epoch,
       retry := if g.pc.Guard? && g.operation.Retry? && s.db.status.Done? then LatestFailures(s.db.rows) else g.retry)
  }

  function GatewayRedis(r: Redis, g: Gateway): Redis {
    if g.pc.Bump? then r.(epoch := r.epoch + 1)
    else if g.pc.Wipe? && g.operation.Retry? then r.(done := r.done - set t | t in g.retry)
    else if g.pc.Wipe? then r.(done := {}, expected := {}, lock := None)
    else r
  }

  function GatewayDatabase(d: Database, g: Gateway): Database {
    if g.pc.SetStatus? then d.(status := if g.operation.Cancel? then Cancelled else Pending) else d
  }

  function GatewayBroker(b: Broker, g: Gateway): Broker {
    if g.pc.Emit? then b.(requests := b.requests + {Request(Some(g.epoch), g.retry)}) else b
  }

  function GatewayPast(s: State, g: Gateway): Past {
    if g.pc.Bump? && g.operation.ForceStop? then s.past.(stamps := s.past.stamps + [s.redis.epoch + 1]) else s.past
  }

  // ─── The machine ────────────────────────────────────────────────────────────

  predicate Enabled(s: State, a: Action) {
    match a
    case Deliver(p, task) => p !in s.handlers && task in s.broker.tasks
    case DeadLetter(p, task) => p !in s.handlers && task in s.broker.tasks
    case HandlerStep(p, e) => p in s.handlers && HandlerEnabled(s.handlers[p], e)
    case Consume(p, request) => p !in s.orchestrators && request in s.broker.requests
    case BuryRequest(p, request) => p !in s.orchestrators && request in s.broker.requests
    case OrchestratorStep(p, e) => p in s.orchestrators && OrchestratorEnabled(s.orchestrators[p], e)
    case Wake(p) => p !in s.syntheses && s.broker.ready
    case Sweep(p) => p !in s.syntheses
    case SynthesisStep(p, e) => p in s.syntheses && SynthesisEnabled(s.syntheses[p], e)
    case Call(p, _) => p !in s.gateways
    case GatewayStep(p) => p in s.gateways && s.gateways[p].pc != Replied
    case ExpireLock => s.redis.lock.Some?
    case Crash(_) => true
  }

  function Apply(s: State, a: Action): State
    requires Enabled(s, a)
  {
    match a
    case Deliver(p, task) => s.(handlers := s.handlers[p := NewHandler(task, false)])
    case DeadLetter(p, task) => s.(handlers := s.handlers[p := NewHandler(task, true)])
    case HandlerStep(p, e) =>
      var h := s.handlers[p];
      s.(redis := HandlerRedis(s.redis, h, e), db := HandlerDatabase(s.db, h, e),
         broker := HandlerBroker(s.broker, h, e), past := HandlerPast(s, h, e),
         handlers := s.handlers[p := HandlerNext(s, h, e)])
    case Consume(p, request) =>
      s.(orchestrators := s.orchestrators[p := Orchestrator(request, ReadEpoch, 0, [], [])])
    case BuryRequest(p, request) =>
      s.(orchestrators := s.orchestrators[p := Orchestrator(request, MarkFailed, 0, [], [])])
    case OrchestratorStep(p, e) =>
      var o := s.orchestrators[p];
      s.(redis := OrchestratorRedis(s.redis, o, e), db := OrchestratorDatabase(s.db, o, e),
         broker := OrchestratorBroker(s.broker, o, e),
         orchestrators := s.orchestrators[p := OrchestratorNext(s, o, e)])
    case Wake(p) => s.(syntheses := s.syntheses[p := Synthesis(Claim, {}, false)])
    case Sweep(p) => s.(syntheses := s.syntheses[p := Synthesis(SweepStatus, {}, false)])
    case SynthesisStep(p, e) =>
      var y := s.syntheses[p];
      s.(redis := SynthesisRedis(s.redis, p, y, e), db := SynthesisDatabase(s.db, y, e),
         past := SynthesisPast(s, y, e),
         syntheses := s.syntheses[p := SynthesisNext(s, y, e)])
    case Call(p, operation) => s.(gateways := s.gateways[p := Gateway(operation, Guard, 0, [])])
    case GatewayStep(p) =>
      var g := s.gateways[p];
      s.(redis := GatewayRedis(s.redis, g), db := GatewayDatabase(s.db, g),
         broker := GatewayBroker(s.broker, g), past := GatewayPast(s, g),
         gateways := s.gateways[p := GatewayNext(s, g)])
    case ExpireLock => s.(redis := s.redis.(lock := None))
    case Crash(p) =>
      s.(handlers := s.handlers - {p}, orchestrators := s.orchestrators - {p},
         syntheses := s.syntheses - {p}, gateways := s.gateways - {p})
  }

  /** Every action of the list is enabled when its turn comes. */
  predicate Legal(s: State, run: seq<Action>)
    decreases |run|
  {
    run == [] || (Enabled(s, run[0]) && Legal(Apply(s, run[0]), run[1..]))
  }

  /** The state a legal run ends in. */
  function Exec(s: State, run: seq<Action>): State
    requires Legal(s, run)
    decreases |run|
  {
    if run == [] then s else Exec(Apply(s, run[0]), run[1..])
  }

  /** One more action at the end of a legal run. */
  lemma {:induction false} Extend(s: State, run: seq<Action>, a: Action)
    requires Legal(s, run) && Enabled(Exec(s, run), a)
    ensures Legal(s, run + [a]) && Exec(s, run + [a]) == Apply(Exec(s, run), a)
    decreases |run|
  {
    if run == [] {
      assert run + [a] == [a];
      assert [a][1..] == [];
    } else {
      assert (run + [a])[0] == run[0] && (run + [a])[1..] == run[1..] + [a];
      Extend(Apply(s, run[0]), run[1..], a);
    }
  }
}
