/**
 What a retry does over a whole run: it re-dispatches the agents whose last row is a failure
 when the gateway looks, and no others.
 */
module JobRetry {
  import opened Common
  import opened AgentTypes
  import opened LatestRows
  import opened JobMachine

  /** A retry about to look at a finished job. */
  predicate AtGuard(s: State, p: nat) {
    p in s.gateways && s.gateways[p].operation.Retry? && s.gateways[p].pc.Guard? && s.db.status.Done?
  }

  /** The list holds the types that are to be retried, each once. */
  ghost predicate Lists(types: seq<AgentType>, rows: seq<Row>) {
    Once(types) && forall t :: t in types <==> LastFailed(rows, t)
  }

  lemma GuardLists(rows: seq<Row>)
    ensures Lists(LatestFailures(rows), rows)
  {
    forall t ensures t in LatestFailures(rows) <==> LastFailed(rows, t) {
      LatestFailuresAre(rows, t);
    }
    LatestFailuresAre(rows, Architecture);
  }

  /** The retry goes on exactly when some type's last row is a failure, and then with the list
      of those types; else it answers that there is nothing to retry. */
  lemma RetryGoesOn(s: State, p: nat)
    requires AtGuard(s, p)
    ensures Enabled(s, GatewayStep(p))
    ensures
      var g := Apply(s, GatewayStep(p)).gateways[p];
      && g.operation.Retry? && Lists(g.retry, s.db.rows)
      && g.pc == (if exists t :: LastFailed(s.db.rows, t) then Wipe else Replied)
  {
    GuardLists(s.db.rows);
    var failed := LatestFailures(s.db.rows);
    assert failed != [] <==> exists t :: LastFailed(s.db.rows, t) by {
      if failed != [] { assert LastFailed(s.db.rows, failed[0]); }
      if t :| LastFailed(s.db.rows, t) { assert t in failed; }
    }
  }

  /** Past its guard a retry keeps its list, whatever else happens. */
  lemma ListKept(s: State, a: Action, p: nat, list: seq<AgentType>)
    requires Retrying(s, p, list) && Enabled(s, a) && a != Crash(p)
    ensures Retrying(Apply(s, a), p, list)
  {
  }

  predicate Retrying(s: State, p: nat, list: seq<AgentType>) {
    p in s.gateways && s.gateways[p].operation.Retry? && !s.gateways[p].pc.Guard? && !s.gateways[p].pc.Bump?
    && s.gateways[p].retry == list
  }

  lemma {:induction false} ListKeptRun(s: State, run: seq<Action>, p: nat, list: seq<AgentType>)
    requires Retrying(s, p, list) && Legal(s, run) && Crash(p) !in run
    ensures Retrying(Exec(s, run), p, list)
    decreases |run|
  {
    if run != [] {
      ListKept(s, run[0], p, list);
      ListKeptRun(Apply(s, run[0]), run[1..], p, list);
    }
  }

  /** From done, exactly the listed types are removed; nothing else in Redis changes. */
  ghost predicate Unmarks(r: Redis, later: Redis, rows: seq<Row>) {
    && later == r.(done := later.done)
    && forall t :: t in later.done <==> t in r.done && !LastFailed(rows, t)
  }

  /** One request is published: for the retry's epoch, and for the listed types. */
  ghost predicate Requests(b: Broker, later: Broker, epoch: nat, rows: seq<Row>) {
    exists types :: Lists(types, rows) && later == b.(requests := b.requests + {Request(Some(epoch), types)})
  }

  /** What the commands of the retry then do, however long after and whatever happened in
      between: un-mark and re-dispatch exactly the types that were failed at its guard. */
  lemma RetryRedispatches(s: State, p: nat, run: seq<Action>)
    requires AtGuard(s, p) && Legal(Apply(s, GatewayStep(p)), run) && Crash(p) !in run
    ensures
      var t := Exec(Apply(s, GatewayStep(p)), run);
      && p in t.gateways
      && (t.gateways[p].pc.Wipe? ==> Unmarks(t.redis, Apply(t, GatewayStep(p)).redis, s.db.rows))
      && (t.gateways[p].pc.Emit? ==>
            Requests(t.broker, Apply(t, GatewayStep(p)).broker, t.gateways[p].epoch, s.db.rows))
  {
    RetryGoesOn(s, p);
    var start := Apply(s, GatewayStep(p));
    ListKeptRun(start, run, p, start.gateways[p].retry);
    var t := Exec(start, run);
    RetryStep(t, p, s.db.rows);
  }

  lemma RetryStep(t: State, p: nat, rows: seq<Row>)
    requires p in t.gateways && t.gateways[p].operation.Retry? && Lists(t.gateways[p].retry, rows)
    ensures t.gateways[p].pc.Wipe? ==> Unmarks(t.redis, Apply(t, GatewayStep(p)).redis, rows)
    ensures t.gateways[p].pc.Emit? ==> Requests(t.broker, Apply(t, GatewayStep(p)).broker, t.gateways[p].epoch, rows)
  {
  }

  /** A type whose last row succeeded is never un-marked and never re-dispatched by it. */
  lemma SucceededIsLeftAlone(rows: seq<Row>, types: seq<AgentType>, t: AgentType)
    requires Lists(types, rows) && LastSucceeded(rows, t)
    ensures t !in types
  {
    LastIsOne(rows, t);
  }
}
