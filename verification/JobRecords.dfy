/**
 What a row of a job is worth: a successful one was earned by an agent that returned a result,
 and everything that went wrong on the way is recorded as a failure.
 */
module JobRecords {
  import opened Common
  import opened AgentTypes
  import opened LatestRows
  import opened JobMachine

  /** The agent whose loop returns a result with this action. */
  function ReturnedBy(s: State, a: Action): set<AgentType> {
    if a.HandlerStep? && a.p in s.handlers && a.handlerEvent == Stop(true) then {s.handlers[a.p].task.agentType} else {}
  }

  /** The agents that returned a result in a run. */
  function Returned(s: State, run: seq<Action>): set<AgentType>
    requires Legal(s, run)
    decreases |run|
  {
    if run == [] then {} else ReturnedBy(s, run[0]) + Returned(Apply(s, run[0]), run[1..])
  }

  /** The types that were dispatched. */
  function Dispatched(s: State): set<AgentType> { set t: Task | t in s.broker.tasks :: t.agentType }

  /** Successful rows, and handlers about to write one, are of these types; and no row is of a
      type that was not dispatched. */
  ghost predicate Earned(s: State, types: set<AgentType>) {
    && (forall r | r in s.db.rows && r.success :: r.agentType in types)
    && (forall p | p in s.handlers && s.handlers[p].success :: s.handlers[p].task.agentType in types)
    && (forall p | p in s.handlers :: s.handlers[p].task in s.broker.tasks)
    && (forall r | r in s.db.rows :: r.agentType in Dispatched(s))
  }

  lemma StepEarns(s: State, a: Action, types: set<AgentType>)
    requires Enabled(s, a) && Earned(s, types)
    ensures Earned(Apply(s, a), types + ReturnedBy(s, a))
  {
    if a.HandlerStep? {
      HandlerEarns(s, a.p, a.handlerEvent, types);
    } else {
      assert Apply(s, a).db.rows == s.db.rows && s.broker.tasks <= Apply(s, a).broker.tasks;
      forall r | r in s.db.rows ensures r.agentType in Dispatched(Apply(s, a)) {
        var t :| t in s.broker.tasks && t.agentType == r.agentType;
        assert t in Apply(s, a).broker.tasks;
      }
    }
  }

  lemma HandlerEarns(s: State, p: nat, e: HandlerEvent, types: set<AgentType>)
    requires Enabled(s, HandlerStep(p, e)) && Earned(s, types)
    ensures Earned(Apply(s, HandlerStep(p, e)), types + ReturnedBy(s, HandlerStep(p, e)))
  {
    var h, t := s.handlers[p], Apply(s, HandlerStep(p, e));
    assert t.broker.tasks == s.broker.tasks && h.task.agentType in Dispatched(s);
    assert Dispatched(t) == Dispatched(s);
    assert t.handlers[p].success ==> h.success || e == Stop(true);
    assert forall r | r in t.db.rows :: r in s.db.rows || r == Row(h.task.agentType, h.success);
  }

  lemma {:induction false} RunEarns(s: State, run: seq<Action>, types: set<AgentType>)
    requires Legal(s, run) && Earned(s, types)
    ensures Earned(Exec(s, run), types + Returned(s, run))
    decreases |run|
  {
    if run == [] {
      assert types + {} == types;
    } else {
      StepEarns(s, run[0], types);
      RunEarns(Apply(s, run[0]), run[1..], types + ReturnedBy(s, run[0]));
      assert types + ReturnedBy(s, run[0]) + Returned(Apply(s, run[0]), run[1..]) == types + Returned(s, run);
    }
  }

  /** In every run each successful row is of a type whose agent returned a result, and each row
      of a type that was dispatched. */
  lemma SuccessesAreEarned(run: seq<Action>)
    requires Legal(INITIAL, run)
    ensures
      var s := Exec(INITIAL, run);
      forall r | r in s.db.rows :: r.agentType in Dispatched(s) && (r.success ==> r.agentType in Returned(INITIAL, run))
  {
    RunEarns(INITIAL, run, {});
  }

  // ─── Failures are recorded as such ──────────────────────────────────────────

  /** The agent itself runs. */
  predicate AgentRuns(pc: HandlerPc) {
    pc.CostCap? || pc.CheckAlive? || pc.CallModel? || pc.TurnDone? || pc.CountTokens?
  }

  /** The dead-letter consumer, and a worker on its catch path, have no agent and no success. */
  predicate Honest(h: Handler) {
    (h.deadLetter || h.infra ==> !h.success && !AgentRuns(h.pc)) && (h.infra ==> !h.pc.PreFence?)
  }

  lemma HandlerStaysHonest(s: State, h: Handler, e: HandlerEvent)
    requires Honest(h) && HandlerEnabled(h, e)
    ensures Honest(HandlerNext(s, h, e))
  {
  }

  ghost predicate AllHonest(s: State) { forall p | p in s.handlers :: Honest(s.handlers[p]) }

  lemma {:induction false} RunHonest(s: State, run: seq<Action>)
    requires Legal(s, run) && AllHonest(s)
    ensures AllHonest(Exec(s, run))
    decreases |run|
  {
    if run != [] {
      var a := run[0];
      if a.HandlerStep? { HandlerStaysHonest(s, s.handlers[a.p], a.handlerEvent); }
      RunHonest(Apply(s, a), run[1..]);
    }
  }

  /** In every run the row that a dead-letter consumer or a worker's catch path writes is a
      failed one. */
  lemma FailuresAreRecorded(run: seq<Action>, p: nat, e: HandlerEvent)
    requires Legal(INITIAL, run) && Enabled(Exec(INITIAL, run), HandlerStep(p, e))
    requires var h := Exec(INITIAL, run).handlers[p]; h.deadLetter || h.infra
    ensures
      var s := Exec(INITIAL, run);
      var written := Apply(s, HandlerStep(p, e)).db.rows;
      written == s.db.rows || written == s.db.rows + [Row(s.handlers[p].task.agentType, false)]
  {
    RunHonest(INITIAL, run);
  }

  /** And so is the row of an agent that was skipped for its job's budget, whatever happens to
      its handler in between. */
  lemma SkippedIsFailed(s: State, p: nat)
    requires p in s.handlers && s.handlers[p].pc.CostCap?
    ensures Enabled(s, HandlerStep(p, OverBudget))
    ensures
      var t := Apply(s, HandlerStep(p, OverBudget));
      && Enabled(t, HandlerStep(p, Proceed))
      && Apply(t, HandlerStep(p, Proceed)).db.rows == s.db.rows + [Row(s.handlers[p].task.agentType, false)]
  {
  }

  /** A message that ran out of deliveries is a failure of its agent, which is not run again; if
      its run has been superseded meanwhile, it is dropped. */
  lemma DeadLetterIsFailed(s: State, p: nat, task: Task)
    requires p !in s.handlers && task in s.broker.tasks
    ensures Enabled(s, DeadLetter(p, task))
    ensures
      var t := Apply(s, DeadLetter(p, task));
      && Enabled(t, HandlerStep(p, Proceed))
      && var u := Apply(t, HandlerStep(p, Proceed));
         if task.epoch != s.redis.epoch then u.handlers[p].pc.Fenced?
         else Enabled(u, HandlerStep(p, Proceed))
              && Apply(u, HandlerStep(p, Proceed)).db == s.db.(rows := s.db.rows + [Row(task.agentType, false)])
  {
  }

  /** Where an error leads. One inside the agent loop is a failed result, and the worker still
      has its catch path; any other error of a worker takes it there; and one on that path, or
      of the dead-letter consumer, is given up on, with nothing more written. */
  lemma ErrorsLead(s: State, p: nat, e: HandlerEvent)
    requires Enabled(s, HandlerStep(p, e)) && (e.CommandFails? || e.CommandFailsAfter?) && Honest(s.handlers[p])
    ensures
      var h, next := s.handlers[p], Apply(s, HandlerStep(p, e)).handlers[p];
      && !next.success
      && if h.deadLetter || h.infra then next.pc == Abandoned
         else next.pc == InsertRow && (next.infra <==> h.pc !in {CheckAlive, CallModel})
  {
  }

  /** Nothing is lost with a worker that crashes, whenever it does: its message can be delivered
      to another, which starts from the fence. */
  lemma CrashedWorkIsRedelivered(s: State, p: nat, q: nat, task: Task)
    requires task in s.broker.tasks && (q !in s.handlers || q == p)
    ensures Enabled(s, Crash(p))
    ensures
      var t := Apply(s, Crash(p));
      && t.redis == s.redis && t.db == s.db && t.broker == s.broker && t.handlers == s.handlers - {p}
      && Enabled(t, Deliver(q, task)) && Apply(t, Deliver(q, task)).handlers[q].pc.PreFence?
  {
  }

  // ─── What a synthesis makes of them ─────────────────────────────────────────

  /** The status is set to failed, then the counters are dropped, and nothing else is done. */
  ghost predicate GivesUpOn(s: State, p: nat) {
    && p in s.syntheses && Enabled(s, SynthesisStep(p, Continue))
    && var failed := Apply(s, SynthesisStep(p, Continue));
    && failed.db == s.db.(status := Failed) && failed.redis == s.redis
    && Enabled(failed, SynthesisStep(p, Continue))
    && var over := Apply(failed, SynthesisStep(p, Continue));
    && over.db == failed.db && over.redis == s.redis.(done := {}, expected := {}) && over.syntheses[p].pc.Ended?
  }

  lemma FailsThenDrops(s: State, p: nat)
    requires p in s.syntheses && (s.syntheses[p].pc.FailStatus? || s.syntheses[p].pc.GuardStatus?)
    ensures GivesUpOn(s, p)
  {
  }

  /** The model is called exactly when the last row of some type is a success; else the job fails
      without a report. */
  lemma SynthesisNeedsASuccess(s: State, p: nat)
    requires p in s.syntheses && s.syntheses[p].pc.LoadRows?
    ensures Enabled(s, SynthesisStep(p, Continue))
    ensures
      var t := Apply(s, SynthesisStep(p, Continue));
      if exists a :: LastSucceeded(s.db.rows, a) then t.syntheses[p].pc.CallSonnet? else GivesUpOn(t, p)
  {
    AnyLatestSucceededIs(s.db.rows);
    var t := Apply(s, SynthesisStep(p, Continue));
    if t.syntheses[p].pc.GuardStatus? { FailsThenDrops(t, p); }
  }

  /** An error while a synthesis is at work ends in the same way; elsewhere it only ends the call. */
  lemma SynthesisErrors(s: State, p: nat, e: SynthesisEvent)
    requires Enabled(s, SynthesisStep(p, e)) && (e.CommandThrows? || e.CommandThrowsAfter?)
    ensures
      var t := Apply(s, SynthesisStep(p, e));
      if InTry(s.syntheses[p]) then t.syntheses[p].pc.FailStatus? && GivesUpOn(t, p) else t.syntheses[p].pc.Ended?
  {
    var t := Apply(s, SynthesisStep(p, e));
    if t.syntheses[p].pc.FailStatus? { FailsThenDrops(t, p); }
  }

  // ─── The history fields say what happened ───────────────────────────────────

  /** A handler is marked as having recorded something by whatever it writes, for good. */
  lemma WritesAreRemembered(s: State, p: nat, e: HandlerEvent)
    requires Enabled(s, HandlerStep(p, e))
    ensures
      var t := Apply(s, HandlerStep(p, e));
      s.handlers[p].recorded || t.db.rows != s.db.rows ==> t.handlers[p].recorded
  {
  }

  predicate Remembers(h: Handler) { PastInsert(h) ==> h.recorded }

  lemma HandlerRemembers(s: State, h: Handler, e: HandlerEvent)
    requires Remembers(h) && HandlerEnabled(h, e)
    ensures Remembers(HandlerNext(s, h, e))
  {
  }

  ghost predicate AllRemember(s: State) { forall p | p in s.handlers :: Remembers(s.handlers[p]) }

  lemma StepRemembers(s: State, a: Action)
    requires AllRemember(s) && Enabled(s, a)
    ensures AllRemember(Apply(s, a))
  {
    if a.HandlerStep? { HandlerRemembers(s, s.handlers[a.p], a.handlerEvent); }
  }

  /** And by the time it makes its SADD it is. */
  lemma {:induction false} RunRemembers(s: State, run: seq<Action>)
    requires Legal(s, run) && AllRemember(s)
    ensures AllRemember(Exec(s, run))
    decreases |run|
  {
    if run != [] {
      StepRemembers(s, run[0]);
      RunRemembers(Apply(s, run[0]), run[1..]);
    }
  }

  /** A synthesis is marked as the writer exactly by the insert that makes the report. */
  lemma InsertIsRemembered(s: State, p: nat, e: SynthesisEvent)
    requires Enabled(s, SynthesisStep(p, e))
    ensures
      var t := Apply(s, SynthesisStep(p, e));
      t.syntheses[p].inserted <==> s.syntheses[p].inserted || t.db.reports != s.db.reports
  {
  }
}
