/**
 The synthesis claim over whole runs: any number of replicas, wakeups and sweeps, and
 every gateway operation. The lock is a concurrency guard that expires, so the guarantee
 is conditional: it holds for runs in which the lock is never released, by expiry or by a
 force-stop or cancel, while the synthesis that claimed it is still running.
 */
module JobSynthesis {
  import opened Common
  import opened LatestRows
  import opened JobMachine
  import opened JobRuns

  /** The claim belongs to a synthesis that is still running. */
  predicate HolderActive(s: State) {
    s.redis.lock.Some? && s.redis.lock.value in s.syntheses && Active(s.syntheses[s.redis.lock.value])
  }

  /** The actions that remove the lock key. */
  predicate ReleasesLock(s: State, a: Action) {
    || a.ExpireLock?
    || (a.GatewayStep? && a.p in s.gateways && s.gateways[a.p].pc.Wipe? && !s.gateways[a.p].operation.Retry?)
  }

  /** The lock outlives every synthesis that claimed it. */
  predicate LockOutlives(s: State, run: seq<Action>)
    requires Legal(s, run)
    decreases |run|
  {
    run == [] ||
    ((ReleasesLock(s, run[0]) ==> !HolderActive(s)) && LockOutlives(Apply(s, run[0]), run[1..]))
  }

  predicate BeforeReport(y: Synthesis) {
    y.pc.CheckStatus? || y.pc.LoadRows? || y.pc.GuardStatus? || y.pc.GuardDrop? || y.pc.CallSonnet? || y.pc.CreateReport?
  }

  ghost predicate ClaimHolds(y: Synthesis, p: nat, lock: Option<nat>, reports: nat) {
    && (Active(y) ==> lock == Some(p))
    && (BeforeReport(y) ==> reports == 0)
    && (y.pc.MarkDone? || y.pc.DropCounters? ==> reports == 1 && y.inserted)
    && (y.pc.FailStatus? && !y.inserted ==> reports == 0)
  }

  ghost predicate ClaimInv(s: State) {
    && s.db.reports <= 1
    && (forall p | p in s.syntheses :: ClaimHolds(s.syntheses[p], p, s.redis.lock, s.db.reports))
  }

  lemma SynthesisStepKeepsClaim(s: State, p: nat, e: SynthesisEvent)
    requires ClaimInv(s) && Enabled(s, SynthesisStep(p, e))
    ensures ClaimInv(Apply(s, SynthesisStep(p, e)))
  {
    var y := s.syntheses[p];
    var t := Apply(s, SynthesisStep(p, e));
    assert ClaimHolds(y, p, s.redis.lock, s.db.reports);
    OwnClaim(s, p, e);
    forall q | q in t.syntheses ensures ClaimHolds(t.syntheses[q], q, t.redis.lock, t.db.reports) {
      if q != p {
        assert ClaimHolds(s.syntheses[q], q, s.redis.lock, s.db.reports);
        if Active(s.syntheses[q]) { assert !Active(y); }
      }
    }
  }

  lemma OwnClaim(s: State, p: nat, e: SynthesisEvent)
    requires p in s.syntheses && SynthesisEnabled(s.syntheses[p], e) && s.db.reports <= 1
    requires ClaimHolds(s.syntheses[p], p, s.redis.lock, s.db.reports)
    ensures
      var y := s.syntheses[p];
      ClaimHolds(SynthesisNext(s, y, e), p, SynthesisRedis(s.redis, p, y, e).lock, SynthesisDatabase(s.db, y, e).reports)
  {
  }

  lemma {:induction false} StepKeepsClaim(s: State, a: Action)
    requires ClaimInv(s) && Enabled(s, a) && (ReleasesLock(s, a) ==> !HolderActive(s))
    ensures ClaimInv(Apply(s, a))
  {
    match a
    case SynthesisStep(p, e) => SynthesisStepKeepsClaim(s, p, e);
    case _ =>
      var t := Apply(s, a);
      assert t.db.reports == s.db.reports;
      assert t.redis.lock == s.redis.lock || ReleasesLock(s, a);
      forall q | q in t.syntheses ensures ClaimHolds(t.syntheses[q], q, t.redis.lock, t.db.reports) {
        if q in s.syntheses && t.syntheses[q] == s.syntheses[q] {
          assert ClaimHolds(s.syntheses[q], q, s.redis.lock, s.db.reports);
        }
      }
  }

  lemma {:induction false} RunKeepsClaim(s: State, run: seq<Action>)
    requires ClaimInv(s) && Legal(s, run) && LockOutlives(s, run)
    ensures ClaimInv(Exec(s, run))
    decreases |run|
  {
    if run == [] {
    } else {
      StepKeepsClaim(s, run[0]);
      RunKeepsClaim(Apply(s, run[0]), run[1..]);
    }
  }

  /** While the lock outlives its holders: two syntheses of the job never overlap, a
      synthesis about to call the model or to write its report finds no report, so its
      insert cannot meet the unique constraint, and at most one report exists. */
  lemma OneSynthesisOneReport(run: seq<Action>)
    requires Legal(INITIAL, run) && LockOutlives(INITIAL, run)
    ensures
      var s := Exec(INITIAL, run);
      && s.db.reports <= 1
      && (forall p, q | p in s.syntheses && q in s.syntheses && Active(s.syntheses[p]) && Active(s.syntheses[q]) :: p == q)
      && (forall p | p in s.syntheses && (s.syntheses[p].pc.CallSonnet? || s.syntheses[p].pc.CreateReport?) :: s.db.reports == 0)
  {
    RunKeepsClaim(INITIAL, run);
    var s := Exec(INITIAL, run);
    assert forall p | p in s.syntheses :: ClaimHolds(s.syntheses[p], p, s.redis.lock, s.db.reports);
  }

  /** Without any hypothesis the unique constraint still leaves at most one report. */
  lemma {:induction false} AtMostOneReport(s: State, run: seq<Action>)
    requires s.db.reports <= 1 && Legal(s, run)
    ensures s.db.reports <= Exec(s, run).db.reports <= 1
    decreases |run|
  {
    if run != [] {
      assert Apply(s, run[0]).db.reports <= 1;
      AtMostOneReport(Apply(s, run[0]), run[1..]);
    }
  }

  // ─── A finished job that fails ──────────────────────────────────────────────

  /** The report is written and the job says so. */
  predicate Finished(s: State) { s.db.status.Done? && s.db.reports == 1 }

  /** The writes of `failed`: failJob and markFailed, neither of which looks at the job. */
  predicate WritesFailed(s: State, a: Action)
    requires Enabled(s, a)
  {
    || (a.SynthesisStep? && Comes(a.synthesisEvent) && (s.syntheses[a.p].pc.GuardStatus? || s.syntheses[a.p].pc.FailStatus?))
    || (a.OrchestratorStep? && Happens(a.orchestratorEvent) && s.orchestrators[a.p].pc.MarkFailed?)
  }

  lemma FailingSteps(s: State, a: Action)
    requires Enabled(s, a) && Finished(s)
    ensures Apply(s, a).db.status.Failed? <==> WritesFailed(s, a)
  {
  }

  /** A synthesis past its look for a report and short of its end. */
  predicate AtRisk(y: Synthesis) {
    BeforeReport(y) || y.pc.MarkDone? || y.pc.DropCounters? || y.pc.FailStatus?
  }

  /** Neither the gateway nor an orchestrator has a part in it. */
  predicate Downstream(a: Action) { !a.Call? && !a.GatewayStep? && !a.OrchestratorStep? }

  predicate AllDownstream(run: seq<Action>) { forall a | a in run :: Downstream(a) }

  ghost predicate CanFail(s: State) {
    exists run :: Legal(s, run) && AllDownstream(run) && Exec(s, run).db.status.Failed?
  }

  ghost predicate Safe(s: State) {
    Finished(s) && forall p | p in s.syntheses :: !AtRisk(s.syntheses[p])
  }

  lemma StaysSafe(s: State, a: Action)
    requires Safe(s) && Enabled(s, a) && Downstream(a)
    ensures Safe(Apply(s, a))
  {
  }

  lemma {:induction false} SafeRun(s: State, run: seq<Action>)
    requires Safe(s) && Legal(s, run) && AllDownstream(run)
    ensures Safe(Exec(s, run))
    decreases |run|
  {
    if run != [] {
      StaysSafe(s, run[0]);
      SafeRun(Apply(s, run[0]), run[1..]);
    }
  }

  /** The run so far, and where the synthesis p stands after it. */
  ghost predicate Reaches(s: State, run: seq<Action>, p: nat, pc: SynthesisPc) {
    && Legal(s, run) && AllDownstream(run)
    && p in Exec(s, run).syntheses && Exec(s, run).syntheses[p].pc == pc
  }

  lemma Moves(s: State, run: seq<Action>, p: nat, pc: SynthesisPc, e: SynthesisEvent)
    requires Reaches(s, run, p, pc) && SynthesisEnabled(Exec(s, run).syntheses[p], e)
    ensures Legal(s, run + [SynthesisStep(p, e)]) && AllDownstream(run + [SynthesisStep(p, e)])
    ensures Exec(s, run + [SynthesisStep(p, e)]) == Apply(Exec(s, run), SynthesisStep(p, e))
  {
    Extend(s, run, SynthesisStep(p, e));
  }

  /** A synthesis at risk needs no more than one failing command. */
  lemma RiskFails(s: State, p: nat) returns (run: seq<Action>)
    requires Finished(s) && p in s.syntheses && AtRisk(s.syntheses[p])
    ensures Legal(s, run) && AllDownstream(run) && Exec(s, run).db.status.Failed?
  {
    run := RiskThrows(s, p);
    Moves(s, run, p, FailStatus, Continue);
    run := run + [SynthesisStep(p, Continue)];
  }

  lemma RiskThrows(s: State, p: nat) returns (run: seq<Action>)
    requires Finished(s) && p in s.syntheses && AtRisk(s.syntheses[p])
    ensures Reaches(s, run, p, FailStatus)
  {
    run := [];
    if s.syntheses[p].pc.CheckStatus? {
      Moves(s, run, p, CheckStatus, Continue);
      run := run + [SynthesisStep(p, Continue)];
    }
    if !s.syntheses[p].pc.FailStatus? {
      Moves(s, run, p, Exec(s, run).syntheses[p].pc, CommandThrows);
      run := run + [SynthesisStep(p, CommandThrows)];
    }
  }

  /** A finished job can still be marked failed downstream of the orchestrator exactly when
      some synthesis is past its look for a report and has not ended. */
  lemma FinishedJobCanFail(s: State)
    requires Finished(s)
    ensures CanFail(s) <==> exists p :: p in s.syntheses && AtRisk(s.syntheses[p])
  {
    if p :| p in s.syntheses && AtRisk(s.syntheses[p]) {
      var run := RiskFails(s, p);
    } else if CanFail(s) {
      var run :| Legal(s, run) && AllDownstream(run) && Exec(s, run).db.status.Failed?;
      SafeRun(s, run);
      assert false;
    }
  }

  /** While the lock outlives its holders the only synthesis at risk is the one that wrote the
      report: what fails the job then is an error after its own insert. */
  lemma OnlyTheWriterCanFail(run: seq<Action>, p: nat)
    requires Legal(INITIAL, run) && LockOutlives(INITIAL, run) && Finished(Exec(INITIAL, run))
    requires p in Exec(INITIAL, run).syntheses && AtRisk(Exec(INITIAL, run).syntheses[p])
    ensures Exec(INITIAL, run).syntheses[p].inserted && !BeforeReport(Exec(INITIAL, run).syntheses[p])
  {
    RunKeepsClaim(INITIAL, run);
    var s := Exec(INITIAL, run);
    assert ClaimHolds(s.syntheses[p], p, s.redis.lock, s.db.reports);
  }

  // ─── Runs from submission ───────────────────────────────────────────────────

  lemma {:induction false} QuietKeepsLock(s: State, run: seq<Action>)
    requires Legal(s, run) && AllQuiet(run)
    ensures LockOutlives(s, run)
    decreases |run|
  {
    if run != [] {
      assert run[0] in run;
      QuietKeepsLock(Apply(s, run[0]), run[1..]);
    }
  }

  lemma {:induction false} ReadySucceeds(s: State)
    requires IsReady(s)
    ensures CanSynthesize(s)
  {
    var rows := s.db.rows;
    assert rows[3] == Row(SelectAgents(false)[3], true) && Latest(rows)[0] == rows[3];
  }

  /** The run leaves a job that has its report and is marked failed. */
  ghost predicate EndsFailed(run: seq<Action>) {
    Legal(INITIAL, run) && Exec(INITIAL, run).db.reports == 1 && Exec(INITIAL, run).db.status.Failed?
  }

  /** The run finishes the job, with every lock outliving its holder. */
  ghost predicate FinishesLocked(run: seq<Action>) {
    Legal(INITIAL, run) && LockOutlives(INITIAL, run) && Finished(Exec(INITIAL, run))
  }

  /** The DEL of the counters throws after the report is written and the job done, with the
      lock held throughout: the error path marks the finished job failed. */
  lemma LateErrorFailsAFinishedJob() returns (done: seq<Action>, failed: seq<Action>)
    ensures FinishesLocked(done) && done <= failed && EndsFailed(failed) && LockOutlives(INITIAL, failed)
  {
    done := ReadyRun();
    ReadySucceeds(Exec(INITIAL, done));
    done := Synthesize(done, 0, 7);
    Step(done, SynthesisStep(0, CommandThrows));
    failed := done + [SynthesisStep(0, CommandThrows)];
    Step(failed, SynthesisStep(0, Continue));
    failed := failed + [SynthesisStep(0, Continue)];
    QuietKeepsLock(INITIAL, done);
    QuietKeepsLock(INITIAL, failed);
  }

  /** A synthesis stands before loading its rows, and its lock has expired. */
  lemma LockLost() returns (run: seq<Action>)
    ensures Legal(INITIAL, run)
    ensures var s := Exec(INITIAL, run);
            CanSynthesize(s) && s.broker.ready && s.syntheses.Keys == {0} && s.syntheses[0].pc.LoadRows?
  {
    run := ReadyRun();
    ReadySucceeds(Exec(INITIAL, run));
    run := Synthesize(run, 0, 3);
    Step(run, ExpireLock);
    run := run + [ExpireLock];
  }

  /** The run leads to two syntheses at once. */
  ghost predicate Overlaps(run: seq<Action>) {
    Legal(INITIAL, run) && var y := Exec(INITIAL, run).syntheses; 0 in y && 1 in y && Active(y[0]) && Active(y[1])
  }

  /** The run finishes the job while the first synthesis stands at this command. */
  ghost predicate Overtakes(run: seq<Action>, pc: SynthesisPc) {
    Legal(INITIAL, run) && var s := Exec(INITIAL, run); Finished(s) && 0 in s.syntheses && s.syntheses[0].pc == pc
  }

  /** The second synthesis overlaps the first, and finishes. */
  lemma Overtaken() returns (overlap: seq<Action>, run: seq<Action>)
    ensures Overlaps(overlap) && Overtakes(run, LoadRows) && AnyLatestSucceeded(Exec(INITIAL, run).db.rows)
  {
    var start := LockLost();
    overlap := Synthesize(start, 1, 4);
    run := SynthesizeOn(Exec(INITIAL, start), overlap, 1, 4, 7);
  }

  /** The lock expires while a synthesis has yet to load its rows: a second one overlaps it
      and finishes, the first then calls the model although a report exists, its insert meets
      the unique constraint, and its error path marks the finished job failed. */
  lemma ExpiryFailsAFinishedJob() returns (overlap: seq<Action>, late: seq<Action>, failed: seq<Action>)
    ensures Overlaps(overlap) && Overtakes(late, CallSonnet) && EndsFailed(failed)
  {
    overlap, late := Overtaken();
    late := Continues(late, 0);
    failed := InsertFails(late, 0);
  }

  /** A model call returns, the insert meets the report that exists, and the job is failed. */
  lemma InsertFails(start: seq<Action>, p: nat) returns (run: seq<Action>)
    requires Legal(INITIAL, start) && Exec(INITIAL, start).db.reports == 1
    requires p in Exec(INITIAL, start).syntheses && Exec(INITIAL, start).syntheses[p].pc.CallSonnet?
    ensures EndsFailed(run)
  {
    run := Continues(start, p);
    run := Continues(run, p);
    run := Continues(run, p);
  }

  lemma Continues(start: seq<Action>, p: nat) returns (run: seq<Action>)
    requires Legal(INITIAL, start)
    requires p in Exec(INITIAL, start).syntheses && !Exec(INITIAL, start).syntheses[p].pc.Ended?
    ensures Legal(INITIAL, run) && Exec(INITIAL, run) == Apply(Exec(INITIAL, start), SynthesisStep(p, Continue))
  {
    Step(start, SynthesisStep(p, Continue));
    run := start + [SynthesisStep(p, Continue)];
  }

  /** The analysis dead-letter consumer reads neither epoch nor status: whatever request it
      is handed, however old, it marks the job failed. */
  lemma BuriedRequestFailsAFinishedJob(s: State, p: nat, request: Request)
    requires Finished(s) && request in s.broker.requests && p !in s.orchestrators
    ensures Legal(s, [] + [BuryRequest(p, request)] + [OrchestratorStep(p, Go)])
    ensures Exec(s, [] + [BuryRequest(p, request)] + [OrchestratorStep(p, Go)]).db == s.db.(status := Failed)
  {
    Extend(s, [], BuryRequest(p, request));
    Extend(s, [] + [BuryRequest(p, request)], OrchestratorStep(p, Go));
  }
}
