/**
 The D2 renderer: a promise chain that serialises calls into one WASM worker, and the
 replacement of the worker after any failure.

 The worker library keeps a single resolve slot per instance: sending a request overwrites
 it, and a reply resolves whichever call is in it. Replies may come at any time, also after
 the call timed out and after its instance was terminated; the abandoned call then goes on
 sending to the instance it had captured. Calls over MAX_SOURCE_BYTES never reach the chain.
 */
module D2Renderer {
  import opened Common
  import opened Seqs

  /** An entry of the chain: a render() or a recycle(). */
  datatype Task = Render(source: string) | Recycle

  /** A message to the worker. The diagram sent for drawing is what a compile returned. */
  datatype Request = Compile(source: string) | Draw(diagramOf: string)

  datatype Reply = Compiled(source: string) | Drawn(source: string) | Failed

  /** `inbox`: requests the worker has not answered; `slot`: whose promise a reply resolves. */
  datatype Instance = Instance(inbox: seq<Request>, slot: Option<nat>)

  /** The compile-then-draw coroutine of one call; it outlives a timeout. */
  datatype Pipeline = Pipeline(instance: nat, awaiting: Awaiting)
  datatype Awaiting = CompileReply | DrawReply | Nothing

  datatype Outcome = Svg(source: string) | Fallback | Recycled

  /** Where the task at the head of the chain is. */
  datatype Stage =
    | Idle       // its function has not been called yet
    | Booting    // in getInstance, the module is being instantiated
    | Piped      // compile and draw under the timer
    | TearDown   // in terminate

  datatype State = State(
    tasks: seq<Task>,
    outcomes: seq<Outcome>,      // of the settled tasks, in chain order
    stage: Stage,
    live: Option<nat>,           // this.instance
    created: nat,
    instances: map<nat, Instance>,
    pipelines: map<nat, Pipeline>)

  datatype Event =
    | Submit(task: Task)
    | Begin                                  // the previous link settled
    | BootDone | BootFails
    | WorkerReplies(instance: nat, ok: bool) // to its oldest unanswered request
    | TimerFires
    | TerminateDone

  const INITIAL: State := State([], [], Idle, None, 0, map[], map[])

  /** The task being executed is the first one without an outcome. */
  function Head(s: State): nat { |s.outcomes| }

  function Answer(r: Request): Reply {
    match r
    case Compile(source) => Compiled(source)
    case Draw(source) => Drawn(source)
  }

  /** sendMessage: post the request and overwrite the slot. */
  function Send(i: Instance, caller: nat, r: Request): Instance {
    Instance(i.inbox + [r], Some(caller))
  }

  /** terminate(): forget the instance; its worker may still reply. */
  function Terminate(s: State): State { s.(live := None, stage := TearDown) }

  /** The head task calls compile on an instance. */
  function StartPipeline(s: State, instance: nat): State
    requires instance in s.instances && Head(s) < |s.tasks| && s.tasks[Head(s)].Render?
  {
    s.(stage := Piped,
       pipelines := s.pipelines[Head(s) := Pipeline(instance, CompileReply)],
       instances := s.instances[instance := Send(s.instances[instance], Head(s), Compile(s.tasks[Head(s)].source))])
  }

  function Settle(s: State, o: Outcome): State { s.(outcomes := s.outcomes + [o], stage := Idle) }

  /** A reply resolves the promise of the call in the slot. */
  function Deliver(s: State, caller: nat, r: Reply): State
    requires caller in s.pipelines && s.pipelines[caller].instance in s.instances
  {
    var pipe := s.pipelines[caller];
    if pipe.awaiting.CompileReply? && r.Compiled? then
      s.(pipelines := s.pipelines[caller := pipe.(awaiting := DrawReply)],
         instances := s.instances[pipe.instance := Send(s.instances[pipe.instance], caller, Draw(r.source))])
    else
      var t := s.(pipelines := s.pipelines[caller := pipe.(awaiting := Nothing)]);
      if !(s.stage.Piped? && caller == Head(s)) then t       // the race is already lost
      else if pipe.awaiting.DrawReply? && r.Drawn? then Settle(t, Svg(r.source))
      else Terminate(t)
  }

  predicate Enabled(s: State, e: Event) {
    match e
    case Submit(_) => true
    case Begin => s.stage.Idle? && Head(s) < |s.tasks|
    case BootDone => s.stage.Booting?
    case BootFails => s.stage.Booting?
    case WorkerReplies(i, _) => i in s.instances && s.instances[i].inbox != []
    case TimerFires => s.stage.Piped?
    case TerminateDone => s.stage.TearDown?
  }

  function Next(s: State, e: Event): State
    requires Enabled(s, e) && Inv(s)
  {
    match e
    case Submit(task) => s.(tasks := s.tasks + [task])
    case Begin =>
      if s.tasks[Head(s)].Recycle? then Terminate(s)
      else if s.live.Some? then StartPipeline(s, s.live.value)
      else s.(stage := Booting)
    case BootDone =>
      StartPipeline(s.(live := Some(s.created), created := s.created + 1,
                       instances := s.instances[s.created := Instance([], None)]), s.created)
    case BootFails => Terminate(s)
    case WorkerReplies(i, ok) =>
      var worker := s.instances[i];
      var t := s.(instances := s.instances[i := Instance(worker.inbox[1..], None)]);
      if worker.slot.None? then t
      else Deliver(t, worker.slot.value, if ok then Answer(worker.inbox[0]) else Failed)
    case TimerFires => Terminate(s)
    case TerminateDone => Settle(s, if s.tasks[Head(s)].Recycle? then Recycled else Fallback)
  }

  // ─── Invariant ──────────────────────────────────────────────────────────────

  /** The request the head call is waiting for. */
  function Pending(source: string, a: Awaiting): seq<Request> {
    match a
    case CompileReply => [Compile(source)]
    case DrawReply => [Draw(source)]
    case Nothing => []
  }

  /** Every call in a slot belongs to a pipeline on that very instance. */
  ghost predicate SlotsOwn(instances: map<nat, Instance>, pipelines: map<nat, Pipeline>) {
    forall i | i in instances && instances[i].slot.Some? ::
      instances[i].slot.value in pipelines && pipelines[instances[i].slot.value].instance == i
  }

  /** The live instance holds the request of the head call and nothing else. */
  ghost predicate LiveOk(s: State) {
    && (s.stage.Piped? ==>
          && s.live.Some? && Head(s) < |s.tasks| && Head(s) in s.pipelines && s.pipelines[Head(s)].instance == s.live.value
          && !s.pipelines[Head(s)].awaiting.Nothing? && s.tasks[Head(s)].Render?)
    && (s.live.Some? ==>
          && s.live.value in s.instances
          && s.instances[s.live.value] ==
               if s.stage.Piped? then
                 Instance(Pending(s.tasks[Head(s)].source, s.pipelines[Head(s)].awaiting), Some(Head(s)))
               else Instance([], None))
  }

  ghost predicate Inv(s: State) {
    && Head(s) <= |s.tasks|
    && (!s.stage.Idle? ==> Head(s) < |s.tasks|)
    && (s.stage.Booting? ==> s.live.None? && s.tasks[Head(s)].Render?)
    && (s.stage.TearDown? ==> s.live.None?)
    && (forall i | i in s.instances :: i < s.created)
    && (forall k | k in s.pipelines :: k <= Head(s) && s.pipelines[k].instance in s.instances)
    && SlotsOwn(s.instances, s.pipelines)
    && LiveOk(s)
    && (Head(s) in s.pipelines ==> !s.stage.Idle? && !s.stage.Booting?)
  }

  /** A request answered on an instance that is not live changes neither the chain nor the live instance. */
  lemma LateReplyKeeps(s: State, i: nat, ok: bool)
    requires Inv(s) && Enabled(s, WorkerReplies(i, ok)) && s.live != Some(i)
    ensures Inv(Next(s, WorkerReplies(i, ok)))
  {
    if s.instances[i].slot.Some? {
      assert !(s.stage.Piped? && s.instances[i].slot.value == Head(s));
    }
  }

  /** A reply of the live instance answers the request of the head call. */
  lemma {:induction false} LiveReplyIsOwn(s: State, i: nat, ok: bool)
    requires Inv(s) && Enabled(s, WorkerReplies(i, ok)) && s.live == Some(i)
    ensures s.stage.Piped? && s.instances[i].slot == Some(Head(s))
    ensures var a := s.pipelines[Head(s)].awaiting;
            && !a.Nothing? && s.instances[i].inbox[1..] == []
            && s.instances[i].inbox[0] == if a.CompileReply? then Compile(s.tasks[Head(s)].source) else Draw(s.tasks[Head(s)].source)
  {
  }

  lemma LiveReplyKeeps(s: State, i: nat, ok: bool)
    requires Inv(s) && Enabled(s, WorkerReplies(i, ok)) && s.live == Some(i)
    ensures Inv(Next(s, WorkerReplies(i, ok)))
  {
    LiveReplyIsOwn(s, i, ok);
    var compiling := s.pipelines[Head(s)].awaiting.CompileReply?;
    if compiling && ok {
      LiveCompiled(s, i);
    } else if ok {
      LiveDrawn(s, i);
    } else {
      LiveFailed(s, i);
    }
  }

  lemma LiveCompiled(s: State, i: nat)
    requires Inv(s) && Enabled(s, WorkerReplies(i, true)) && s.live == Some(i)
    requires s.stage.Piped? && s.pipelines[Head(s)].awaiting.CompileReply?
    ensures Inv(Next(s, WorkerReplies(i, true)))
  {
    LiveReplyIsOwn(s, i, true);
  }

  lemma LiveDrawn(s: State, i: nat)
    requires Inv(s) && Enabled(s, WorkerReplies(i, true)) && s.live == Some(i)
    requires s.stage.Piped? && s.pipelines[Head(s)].awaiting.DrawReply?
    ensures Inv(Next(s, WorkerReplies(i, true)))
  {
    LiveReplyIsOwn(s, i, true);
  }

  lemma LiveFailed(s: State, i: nat)
    requires Inv(s) && Enabled(s, WorkerReplies(i, false)) && s.live == Some(i)
    ensures Inv(Next(s, WorkerReplies(i, false)))
  {
    LiveReplyIsOwn(s, i, false);
  }

  lemma {:induction false} NextKeepsInv(s: State, e: Event)
    requires Inv(s) && Enabled(s, e)
    ensures Inv(Next(s, e))
  {
    match e
    case WorkerReplies(i, ok) =>
      if s.live == Some(i) { LiveReplyKeeps(s, i, ok); } else { LateReplyKeeps(s, i, ok); }
    case _ =>
  }

  /** Tasks and outcomes only ever grow at the end. */
  lemma NextExtends(s: State, e: Event)
    requires Inv(s) && Enabled(s, e)
    ensures s.tasks <= Next(s, e).tasks && s.outcomes <= Next(s, e).outcomes
  {
  }

  // ─── Whole runs ─────────────────────────────────────────────────────────────

  ghost predicate Legal(s: State, run: seq<Event>)
    requires Inv(s)
    decreases |run|
  {
    run == [] ||
    (&& Enabled(s, run[0])
     && (NextKeepsInv(s, run[0]); Legal(Next(s, run[0]), run[1..])))
  }

  ghost function Exec(s: State, run: seq<Event>): State
    requires Inv(s) && Legal(s, run)
    decreases |run|
  {
    if run == [] then s
    else
      NextKeepsInv(s, run[0]);
      Exec(Next(s, run[0]), run[1..])
  }

  lemma {:induction false} ExecKeeps(s: State, run: seq<Event>)
    requires Inv(s) && Legal(s, run)
    ensures Inv(Exec(s, run)) && s.tasks <= Exec(s, run).tasks && s.outcomes <= Exec(s, run).outcomes
    decreases |run|
  {
    if run == [] {
    } else {
      NextKeepsInv(s, run[0]);
      NextExtends(s, run[0]);
      ExecKeeps(Next(s, run[0]), run[1..]);
    }
  }

  // ─── Which outcome ──────────────────────────────────────────────────────────

  /** The head call is lost: the module does not boot, the timer fires, or the live worker
      answers with an error. */
  predicate Disturbs(s: State, e: Event) {
    e.BootFails? || e.TimerFires? || (e.WorkerReplies? && !e.ok && s.live == Some(e.instance))
  }

  /** That happens in the run while task k is at the head of the chain. */
  ghost predicate Disturbed(s: State, run: seq<Event>, k: nat)
    requires Inv(s) && Legal(s, run)
    decreases |run|
  {
    run != [] &&
    (|| (Head(s) == k && Disturbs(s, run[0]))
     || (NextKeepsInv(s, run[0]); Disturbed(Next(s, run[0]), run[1..], k)))
  }

  /** What a settled task must have got. */
  function Due(task: Task, lost: bool): Outcome {
    match task
    case Render(source) => if lost then Fallback else Svg(source)
    case Recycle => Recycled
  }

  /** The head call is lost already and its worker is being taken down. */
  predicate Losing(s: State)
    requires Head(s) < |s.tasks|
  {
    s.stage.TearDown? && s.tasks[Head(s)].Render?
  }

  /** A call is lost by exactly these events, and settles accordingly. */
  lemma StepOutcome(s: State, e: Event)
    requires Inv(s) && Enabled(s, e)
    ensures
      var t := Next(s, e);
      if t.outcomes == s.outcomes then
        Head(s) < |s.tasks| ==> (Losing(t) <==> Losing(s) || Disturbs(s, e))
      else
        && Head(s) < |s.tasks| && !Disturbs(s, e) && !t.stage.TearDown?
        && t.outcomes == s.outcomes + [Due(s.tasks[Head(s)], Losing(s))]
  {
    if e.WorkerReplies? {
      if s.live == Some(e.instance) {
        LiveReplyIsOwn(s, e.instance, e.ok);
      } else if s.instances[e.instance].slot.Some? {
        assert !(s.stage.Piped? && s.instances[e.instance].slot.value == Head(s));
      }
    }
  }

  lemma {:induction false} RunOutcome(s: State, run: seq<Event>, k: nat)
    requires Inv(s) && Legal(s, run) && Head(s) <= k < Head(Exec(s, run))
    ensures
      var t := Exec(s, run);
      && k < |t.tasks|
      && t.outcomes[k] == Due(t.tasks[k], (k == Head(s) && k < |s.tasks| && Losing(s)) || Disturbed(s, run, k))
    decreases |run|
  {
    var t := Next(s, run[0]);
    NextKeepsInv(s, run[0]);
    NextExtends(s, run[0]);
    StepOutcome(s, run[0]);
    ExecKeeps(t, run[1..]);
    if k < Head(t) {
      SettledIsOver(t, run[1..], k);
    } else {
      RunOutcome(t, run[1..], k);
    }
  }

  /** Nothing happens to a settled task. */
  lemma {:induction false} SettledIsOver(s: State, run: seq<Event>, k: nat)
    requires Inv(s) && Legal(s, run) && k < Head(s)
    ensures !Disturbed(s, run, k)
    decreases |run|
  {
    if run != [] {
      NextKeepsInv(s, run[0]);
      NextExtends(s, run[0]);
      SettledIsOver(Next(s, run[0]), run[1..], k);
    }
  }

  /** The calls made in a run, in order. */
  function Submitted(run: seq<Event>): seq<Task> {
    if run == [] then [] else (if run[0].Submit? then [run[0].task] else []) + Submitted(run[1..])
  }

  lemma NextTasks(s: State, e: Event)
    requires Inv(s) && Enabled(s, e)
    ensures Next(s, e).tasks == s.tasks + if e.Submit? then [e.task] else []
  {
  }

  lemma {:induction false} TasksAreSubmitted(s: State, run: seq<Event>)
    requires Inv(s) && Legal(s, run)
    ensures Exec(s, run).tasks == s.tasks + Submitted(run)
    decreases |run|
  {
    if run == [] {
      assert s.tasks + [] == s.tasks;
    } else {
      var t := Next(s, run[0]);
      NextKeepsInv(s, run[0]);
      NextTasks(s, run[0]);
      TasksAreSubmitted(t, run[1..]);
      Regroup(s.tasks, if run[0].Submit? then [run[0].task] else [], Submitted(run[1..]));
    }
  }

  /** Whatever the timeouts and however late the replies: calls settle in the order they were
      made, each render with the drawing of its own source, or with the fallback exactly when
      something disturbed it while it was at the head; and the live instance never has more
      than one request outstanding. */
  lemma NoCrossedReplies(run: seq<Event>)
    requires Legal(INITIAL, run)
    ensures
      var s := Exec(INITIAL, run);
      && s.tasks == Submitted(run) && |s.outcomes| <= |s.tasks|
      && (forall k | 0 <= k < |s.outcomes| :: s.outcomes[k] == Due(s.tasks[k], Disturbed(INITIAL, run, k)))
      && (s.live.Some? ==> s.live.value in s.instances && |s.instances[s.live.value].inbox| <= 1)
  {
    ExecKeeps(INITIAL, run);
    TasksAreSubmitted(INITIAL, run);
    var s := Exec(INITIAL, run);
    forall k | 0 <= k < |s.outcomes| ensures s.outcomes[k] == Due(s.tasks[k], Disturbed(INITIAL, run, k)) {
      RunOutcome(INITIAL, run, k);
    }
  }

  /** The worker a render will use: the live one, or the one that is booted for it. */
  function WorkerFor(s: State): nat { s.live.GetOr(s.created) }

  function GoodReplies(s: State): seq<Event> {
    [WorkerReplies(WorkerFor(s), true), WorkerReplies(WorkerFor(s), true)]
  }

  /** What an undisturbed render does. */
  function GoodRun(s: State): seq<Event> {
    [Begin] + (if s.live.Some? then [] else [BootDone]) + GoodReplies(s)
  }

  lemma RepliesDeliver(s: State)
    requires Inv(s) && s.stage.Piped? && s.pipelines[Head(s)].awaiting.CompileReply?
    ensures Legal(s, GoodReplies(s))
    ensures Exec(s, GoodReplies(s)).outcomes == s.outcomes + [Svg(s.tasks[Head(s)].source)]
  {
    var run := GoodReplies(s);
    var reply := run[0];
    NextKeepsInv(s, reply);
    var compiled := Next(s, reply);
    NextKeepsInv(compiled, reply);
    var drawn := Next(compiled, reply);
    assert run[1..] == [reply] && [reply][1..] == [];
    assert Exec(drawn, []) == drawn;
    assert Exec(compiled, [reply]) == drawn;
  }

  /** It is always possible, and delivers the drawing: from every reachable state in which a
      render is next, two good replies of its worker settle it with its own svg. */
  lemma RenderDelivers(s: State)
    requires Inv(s) && s.stage.Idle? && Head(s) < |s.tasks| && s.tasks[Head(s)].Render?
    ensures Legal(s, GoodRun(s))
    ensures Exec(s, GoodRun(s)).outcomes == s.outcomes + [Svg(s.tasks[Head(s)].source)]
  {
    var run := GoodRun(s);
    var started := Next(s, Begin);
    NextKeepsInv(s, Begin);
    assert run[1..] == (if s.live.Some? then [] else [BootDone]) + GoodReplies(s);
    if s.live.None? {
      NextKeepsInv(started, BootDone);
      assert run[1..][1..] == GoodReplies(s);
      RepliesDeliver(Next(started, BootDone));
    } else {
      RepliesDeliver(started);
    }
  }

  /** A call can be made at any time, and made of an idle renderer it is the next to run. */
  lemma SubmittedDelivers(s: State, source: string)
    requires Inv(s) && s.stage.Idle? && Head(s) == |s.tasks|
    ensures
      var t := s.(tasks := s.tasks + [Render(source)]);
      var run := [Submit(Render(source))] + GoodRun(t);
      Legal(s, run) && Exec(s, run).outcomes == s.outcomes + [Svg(source)]
  {
    var call := Submit(Render(source));
    NextKeepsInv(s, call);
    var t := Next(s, call);
    RenderDelivers(t);
    assert ([call] + GoodRun(t))[1..] == GoodRun(t);
  }

  /** The event that needs no cooperation of the worker: boot failure or success is the
      runtime's, the others are timers and promise continuations. */
  function NextTimed(s: State): Event {
    match s.stage
    case Idle => Begin
    case Booting => BootDone
    case Piped => TimerFires
    case TearDown => TerminateDone
  }

  /** A call that hangs or fails never blocks the chain: from every reachable state with an
      unsettled task, at most four events settle it without a single worker reply. */
  lemma ChainNeverBlocks(s: State) returns (run: seq<Event>)
    requires Inv(s) && Head(s) < |s.tasks|
    ensures |run| <= 4 && (forall e | e in run :: !e.WorkerReplies? && !e.Submit?)
    ensures Legal(s, run) && |Exec(s, run).outcomes| == |s.outcomes| + 1
  {
    run := SettleWithin(s, 4);
  }

  lemma SettleWithin(s: State, budget: nat) returns (run: seq<Event>)
    requires Inv(s) && Head(s) < |s.tasks|
    requires budget >= match s.stage case Idle => 4 case Booting => 3 case Piped => 2 case TearDown => 1
    ensures |run| <= budget && (forall e | e in run :: !e.WorkerReplies? && !e.Submit?)
    ensures Legal(s, run) && |Exec(s, run).outcomes| == |s.outcomes| + 1
    decreases budget
  {
    var e := NextTimed(s);
    var t := Next(s, e);
    NextKeepsInv(s, e);
    if s.stage.TearDown? {
      run := [e];
      assert run[1..] == [];
      assert Legal(t, []);
    } else {
      var rest := SettleWithin(t, budget - 1);
      run := [e] + rest;
      assert run[1..] == rest;
    }
  }
}
