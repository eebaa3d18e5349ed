/**
 Running a finished job again. Its report stays, and whatever synthesis is then started stops
 at its look for a report, before the status write: the job is never done again.
 */
module JobReruns {
  import opened Common
  import opened AgentTypes
  import opened LatestRows
  import opened JobMachine
  import opened JobRuns
  import JobSynthesis

  /** Some run from here ends with the job done. */
  ghost predicate CanFinish(s: State) {
    exists run :: Legal(s, run) && Exec(s, run).db.status.Done?
  }

  /** A synthesis has written the report and has yet to write the status. */
  predicate Finishing(s: State, p: nat) { p in s.syntheses && s.syntheses[p].pc.MarkDone? }

  ghost predicate Stuck(s: State) {
    s.db.reports > 0 && !s.db.status.Done? && forall p | p in s.syntheses :: !s.syntheses[p].pc.MarkDone?
  }

  lemma StaysStuck(s: State, a: Action)
    requires Stuck(s) && Enabled(s, a)
    ensures Stuck(Apply(s, a))
  {
  }

  lemma {:induction false} StuckForGood(s: State, run: seq<Action>)
    requires Stuck(s) && Legal(s, run)
    ensures Stuck(Exec(s, run))
    decreases |run|
  {
    if run != [] {
      StaysStuck(s, run[0]);
      StuckForGood(Apply(s, run[0]), run[1..]);
    }
  }

  /** A job that has its report and is not done can still become so exactly when some synthesis
      stands before that very write: no agent, sweep, wakeup or later retry can bring it about. */
  lemma FinishesAgain(s: State)
    requires s.db.reports > 0 && !s.db.status.Done?
    ensures CanFinish(s) <==> exists p :: Finishing(s, p)
  {
    if p :| Finishing(s, p) {
      One(s, SynthesisStep(p, Continue));
      assert Exec(s, [SynthesisStep(p, Continue)]).db.status.Done?;
    } else if CanFinish(s) {
      var run :| Legal(s, run) && Exec(s, run).db.status.Done?;
      assert forall p | p in s.syntheses :: !Finishing(s, p);
      StuckForGood(s, run);
      assert false;
    }
  }

  // ─── A retry of a finished job ──────────────────────────────────────────────

  function RetryPc(i: nat): GatewayPc {
    if i == 0 then Guard else if i == 1 then Wipe else if i == 2 then SetStatus
    else if i == 3 then StampEpoch else if i == 4 then Emit else Replied
  }

  /** What the retry g has done to s after i commands. */
  ghost predicate Retried(s: State, t: State, g: nat, i: nat) {
    && t.redis.epoch == s.redis.epoch && t.syntheses == s.syntheses
    && t.db == (if i < 3 then s.db else s.db.(status := Pending))
    && t.broker == (if i < 5 then s.broker else s.broker.(requests := s.broker.requests + {Again(s)}))
    && g in t.gateways && RetryAt(s, t.gateways[g], i)
  }

  function Again(s: State): Request { Request(Some(s.redis.epoch), LatestFailures(s.db.rows)) }

  ghost predicate RetryAt(s: State, g: Gateway, i: nat) {
    && g.operation.Retry? && g.pc == RetryPc(i)
    && (i >= 1 ==> g.retry == LatestFailures(s.db.rows)) && (i >= 4 ==> g.epoch == s.redis.epoch)
  }

  lemma RetryNext(s: State, t: State, g: nat, i: nat)
    requires s.db.status.Done? && LatestFailures(s.db.rows) != [] && i < 5 && Retried(s, t, g, i)
    ensures Enabled(t, GatewayStep(g)) && Retried(s, Apply(t, GatewayStep(g)), g, i + 1)
  {
  }

  lemma RetryRun(s: State, g: nat) returns (run: seq<Action>)
    requires s.db.status.Done? && LatestFailures(s.db.rows) != [] && g !in s.gateways
    ensures Legal(s, run) && Retried(s, Exec(s, run), g, 5)
  {
    run := [Call(g, Retry)];
    One(s, Call(g, Retry));
    for i := 0 to 5
      invariant Legal(s, run) && Retried(s, Exec(s, run), g, i)
    {
      RetryNext(s, Exec(s, run), g, i);
      Extend(s, run, GatewayStep(g));
      run := run + [GatewayStep(g)];
    }
  }

  /** The job is put back to pending with its request published, and with its report. */
  ghost predicate Reopened(s: State, t: State, request: Request) {
    t.db == s.db.(status := Pending) && t.broker.requests == s.broker.requests + {request}
  }

  /** Retrying any finished job some of whose agents last failed re-dispatches them, and leaves
      a job that is done again only if a synthesis was about to say so. */
  lemma RetryReopens(s: State, g: nat) returns (run: seq<Action>)
    requires JobSynthesis.Finished(s) && (exists t :: LastFailed(s.db.rows, t)) && g !in s.gateways
    ensures Legal(s, run) && Reopened(s, Exec(s, run), Again(s))
    ensures CanFinish(Exec(s, run)) <==> exists p :: Finishing(s, p)
  {
    var failed :| LastFailed(s.db.rows, failed);
    LatestFailuresAre(s.db.rows, failed);
    run := RetryRun(s, g);
    FinishesAgain(Exec(s, run));
    assert forall p :: Finishing(Exec(s, run), p) <==> Finishing(s, p);
  }

  /** So does a force-stop, which does not ask whether the job is finished. */
  lemma ForceStopReopens(s: State, g: nat) returns (run: seq<Action>)
    requires JobSynthesis.Finished(s) && g !in s.gateways
    ensures Legal(s, run) && Reopened(s, Exec(s, run), Request(Some(s.redis.epoch + 1), []))
    ensures CanFinish(Exec(s, run)) <==> exists p :: Finishing(s, p)
  {
    run := ForceStopRun(s, g, 5);
    FinishesAgain(Exec(s, run));
    assert forall p :: Finishing(Exec(s, run), p) <==> Finishing(s, p);
  }

  // ─── From submission ────────────────────────────────────────────────────────

  /** A job done, with its report, one agent whose last row is a failure, and no synthesis left. */
  ghost predicate DoneInPart(s: State) {
    && JobSynthesis.Finished(s) && LastFailed(s.db.rows, Architecture) && s.gateways == map[]
    && forall p | p in s.syntheses :: s.syntheses[p].pc.Ended?
  }

  /** The only thing of p is a handler at this command; no store has changed but the rows. */
  ghost predicate OnlyHandling(s: State, t: State, p: nat, h: Handler, rows: seq<Row>) {
    && t.redis == s.redis && t.db == s.db.(rows := rows) && t.broker == s.broker
    && t.syntheses == s.syntheses - {p} && t.gateways == s.gateways - {p}
    && p in t.handlers && t.handlers[p] == h
  }

  lemma Redelivered(start: seq<Action>, p: nat, task: Task) returns (run: seq<Action>)
    requires Legal(INITIAL, start) && task in Exec(INITIAL, start).broker.tasks
    ensures Legal(INITIAL, run)
    ensures OnlyHandling(Exec(INITIAL, start), Exec(INITIAL, run), p, NewHandler(task, false), Exec(INITIAL, start).db.rows)
  {
    Step(start, Crash(p));
    run := start + [Crash(p)];
    Step(run, Deliver(p, task));
    run := run + [Deliver(p, task)];
  }

  function Skipping(i: nat): HandlerEvent { if i == 1 then OverBudget else Proceed }

  /** The handler of a message that is skipped for the job's budget, after i commands. */
  ghost predicate SkippedAt(s: State, t: State, p: nat, task: Task, i: nat) {
    && p in t.handlers
    && var h := t.handlers[p];
       && h.task == task && !h.deadLetter && !h.success
       && h.pc == (if i == 0 then PreFence else if i == 1 then CostCap else if i == 2 then InsertRow else AddDone)
       && OnlyHandling(s, t, p, h, s.db.rows + if i == 3 then [Row(task.agentType, false)] else [])
  }

  lemma SkippedNext(s: State, t: State, p: nat, task: Task, i: nat)
    requires i < 3 && SkippedAt(s, t, p, task, i) && task.epoch == s.redis.epoch
    ensures Enabled(t, HandlerStep(p, Skipping(i))) && SkippedAt(s, Apply(t, HandlerStep(p, Skipping(i))), p, task, i + 1)
  {
  }

  /** A message for the agent is redelivered, and skipped for the job's budget. */
  lemma SkippedOnce(start: seq<Action>, p: nat, task: Task) returns (run: seq<Action>)
    requires Legal(INITIAL, start)
    requires var s := Exec(INITIAL, start); task in s.broker.tasks && task.epoch == s.redis.epoch
    ensures Legal(INITIAL, run) && SkippedAt(Exec(INITIAL, start), Exec(INITIAL, run), p, task, 3)
  {
    run := Redelivered(start, p, task);
    for i := 0 to 3
      invariant Legal(INITIAL, run) && SkippedAt(Exec(INITIAL, start), Exec(INITIAL, run), p, task, i)
    {
      SkippedNext(Exec(INITIAL, start), Exec(INITIAL, run), p, task, i);
      Step(run, HandlerStep(p, Skipping(i)));
      run := run + [HandlerStep(p, Skipping(i))];
    }
  }

  /** All four agents are done, one of them redelivered to a failed row before the synthesis. */
  ghost predicate SkippedOne(s: State) {
    && s.redis.lock.None? && s.db.rows == Successes(SelectAgents(false)) + [Row(Architecture, false)]
    && s.db.reports == 0 && s.db.status.Running? && s.broker.ready && s.syntheses == map[] && s.gateways == map[]
  }

  lemma SkippedRun() returns (run: seq<Action>)
    ensures Legal(INITIAL, run) && SkippedOne(Exec(INITIAL, run))
  {
    var counted := CountedRun();
    run := Publish(counted, 3);
    AllHandled(Exec(INITIAL, counted), Exec(INITIAL, run));
    SelectedFour();
    run := SkippedOnce(run, 9, Task(Architecture, 0));
  }

  lemma SkippedRows(s: State)
    requires SkippedOne(s)
    ensures CanSynthesize(s) && LastFailed(s.db.rows, Architecture)
  {
    var rows := s.db.rows;
    assert rows[3] == Row(Docs, true) && rows[4] == Row(Architecture, false);
    assert IsLast(rows, 3) && IsLast(rows, 4);
    assert LastSucceeded(rows, Docs);
    AnyLatestSucceededIs(rows);
  }

  lemma Synthesized(s: State, t: State)
    requires SkippedOne(s) && Synthesizing(s, t, 0, 7)
    ensures Enabled(t, SynthesisStep(0, Continue)) && DoneInPart(Apply(t, SynthesisStep(0, Continue)))
  {
    SkippedRows(s);
  }

  lemma DoneInPartRun() returns (run: seq<Action>)
    ensures Legal(INITIAL, run) && DoneInPart(Exec(INITIAL, run))
  {
    run := SkippedRun();
    SkippedRows(Exec(INITIAL, run));
    var skipped := Exec(INITIAL, run);
    run := Synthesize(run, 0, 7);
    Synthesized(skipped, Exec(INITIAL, run));
    Step(run, SynthesisStep(0, Continue));
    run := run + [SynthesisStep(0, Continue)];
  }

  /** A run from submission finishes the job with one failed agent, and then retries it: the
      agent's request is out again, and nothing whatever can make the job done. */
  lemma RetriedForGood() returns (done: seq<Action>, retried: seq<Action>)
    ensures Legal(INITIAL, done) && DoneInPart(Exec(INITIAL, done)) && done <= retried
    ensures Legal(INITIAL, retried)
    ensures Reopened(Exec(INITIAL, done), Exec(INITIAL, retried), Again(Exec(INITIAL, done)))
    ensures Architecture in Again(Exec(INITIAL, done)).retry
    ensures !CanFinish(Exec(INITIAL, retried))
  {
    done := DoneInPartRun();
    var s := Exec(INITIAL, done);
    LatestFailuresAre(s.db.rows, Architecture);
    var retry := RetryReopens(s, 0);
    Concat(INITIAL, done, retry);
    retried := done + retry;
  }
}
