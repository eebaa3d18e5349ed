/** The five agents. */
module AgentTypes {
  datatype AgentType = Architecture | Security | Dependency | Quality | Docs
}

/**
 Retries append agent rows instead of replacing them, so readers keep the newest row of
 each type: the synthesizer before it calls the model, the gateway before it retries.
 */
module LatestRows {
  import opened AgentTypes

  datatype Row = Row(agentType: AgentType, success: bool)

  predicate HasType(rows: seq<Row>, t: AgentType) {
    exists r | r in rows :: r.agentType == t
  }

  /** The rows that no later row of the same type supersedes, newest first; `rows` is in
      insertion order. */
  function Latest(rows: seq<Row>): seq<Row> { Newest(rows, {}) }

  /** The same, leaving out the types already seen. */
  function Newest(rows: seq<Row>, seen: set<AgentType>): seq<Row> {
    if rows == [] then []
    else
      var row := rows[|rows| - 1];
      var older := rows[..|rows| - 1];
      if row.agentType in seen then Newest(older, seen)
      else [row] + Newest(older, seen + {row.agentType})
  }

  predicate AnyLatestSucceeded(rows: seq<Row>) {
    exists r | r in Latest(rows) :: r.success
  }

  function LatestFailures(rows: seq<Row>): seq<AgentType> { FailedTypes(Latest(rows)) }

  function FailedTypes(rows: seq<Row>): seq<AgentType> {
    if rows == [] then []
    else (if rows[0].success then [] else [rows[0].agentType]) + FailedTypes(rows[1..])
  }

  /** The row at index i is the last one of its type. */
  predicate IsLast(rows: seq<Row>, i: nat)
    requires i < |rows|
  {
    forall j | i < j < |rows| :: rows[j].agentType != rows[i].agentType
  }

  /** The loop both services run over the rows of a job, newest first. */
  method CollapseToLatest(rows: seq<Row>) returns (kept: seq<Row>)
    ensures kept == Latest(rows)
  {
    kept := [];
    var seen: set<AgentType> := {};
    var i := |rows|;
    assert rows[..|rows|] == rows;
    while i > 0
      invariant 0 <= i <= |rows|
      invariant kept + Newest(rows[..i], seen) == Latest(rows)
    {
      i := i - 1;
      assert rows[..i + 1][..i] == rows[..i];
      if rows[i].agentType !in seen {
        kept, seen := kept + [rows[i]], seen + {rows[i].agentType};
      }
    }
  }

  /** A row is the last of its type if it comes last, or is the last of its type before that
      and the last row is of another type. */
  lemma LastAmong(rows: seq<Row>, i: nat)
    requires i < |rows|
    ensures var n := |rows| - 1;
            IsLast(rows, i) <==> i == n || (IsLast(rows[..n], i) && rows[i].agentType != rows[n].agentType)
  {
    var n := |rows| - 1;
    var older := rows[..n];
    if i < n {
      assert older[i] == rows[i];
      if IsLast(older, i) && rows[i].agentType != rows[n].agentType {
        forall j | i < j < |rows| ensures rows[j].agentType != rows[i].agentType {
          if j < n { assert older[j] == rows[j]; }
        }
      }
      if IsLast(rows, i) {
        assert forall j | i < j < n :: older[j] == rows[j];
      }
    }
  }

  ghost predicate LastOne(rows: seq<Row>, row: Row) {
    exists i :: 0 <= i < |rows| && rows[i] == row && IsLast(rows, i)
  }

  lemma LastOneAmong(rows: seq<Row>, row: Row)
    requires rows != []
    ensures var n := |rows| - 1;
            LastOne(rows, row) <==> row == rows[n] || (LastOne(rows[..n], row) && row.agentType != rows[n].agentType)
  {
    var n := |rows| - 1;
    if LastOne(rows, row) {
      var i :| 0 <= i < |rows| && rows[i] == row && IsLast(rows, i);
      LastAmong(rows, i);
      if i < n { assert rows[..n][i] == row; }
    }
    LastAmong(rows, n);
    if LastOne(rows[..n], row) && row.agentType != rows[n].agentType {
      var i :| 0 <= i < n && rows[..n][i] == row && IsLast(rows[..n], i);
      LastAmong(rows, i);
    }
  }

  lemma {:induction false} NewestIs(rows: seq<Row>, seen: set<AgentType>, row: Row)
    ensures row in Newest(rows, seen) <==> row.agentType !in seen && LastOne(rows, row)
  {
    if rows != [] {
      var n := |rows| - 1;
      LastOneAmong(rows, row);
      NewestIs(rows[..n], if rows[n].agentType in seen then seen else seen + {rows[n].agentType}, row);
    }
  }

  predicate DistinctTypes(rows: seq<Row>) {
    forall i, j | 0 <= i < j < |rows| :: rows[i].agentType != rows[j].agentType
  }

  lemma {:induction false} NewestDistinct(rows: seq<Row>, seen: set<AgentType>)
    ensures DistinctTypes(Newest(rows, seen))
  {
    if rows == [] {
    } else {
      var row := rows[|rows| - 1];
      var older := rows[..|rows| - 1];
      if row.agentType in seen {
        NewestDistinct(older, seen);
        assert Newest(rows, seen) == Newest(older, seen);
      } else {
        var tail := Newest(older, seen + {row.agentType});
        NewestDistinct(older, seen + {row.agentType});
        forall j | 0 <= j < |tail| ensures tail[j].agentType != row.agentType {
          NewestIs(older, seen + {row.agentType}, tail[j]);
        }
        assert Newest(rows, seen) == [row] + tail;
      }
    }
  }

  lemma {:induction false} LastOfType(rows: seq<Row>, t: AgentType) returns (i: nat)
    requires HasType(rows, t)
    ensures i < |rows| && rows[i].agentType == t && IsLast(rows, i)
  {
    var k :| 0 <= k < |rows| && rows[k].agentType == t;
    i := |rows| - 1;
    while rows[i].agentType != t
      invariant k <= i < |rows|
      invariant forall j | i < j < |rows| :: rows[j].agentType != t
      decreases i
    {
      i := i - 1;
    }
  }

  /** Exactly one row per type that ever reported, and it is that type's last row: a
      superseded attempt is never read, whatever the order of retries. */
  lemma LatestIsLastPerType(rows: seq<Row>, t: AgentType)
    ensures forall r | r in Latest(rows) :: exists i :: 0 <= i < |rows| && rows[i] == r && IsLast(rows, i)
    ensures HasType(rows, t) <==> HasType(Latest(rows), t)
    ensures DistinctTypes(Latest(rows))
  {
    forall r | r in Latest(rows) ensures exists i :: 0 <= i < |rows| && rows[i] == r && IsLast(rows, i) {
      NewestIs(rows, {}, r);
    }
    if HasType(rows, t) {
      var i := LastOfType(rows, t);
      NewestIs(rows, {}, rows[i]);
    }
    if HasType(Latest(rows), t) {
      var r :| r in Latest(rows) && r.agentType == t;
      NewestIs(rows, {}, r);
    }
    NewestDistinct(rows, {});
  }

  /** The last row of the type is a failure. */
  ghost predicate LastFailed(rows: seq<Row>, t: AgentType) {
    exists i :: 0 <= i < |rows| && rows[i].agentType == t && !rows[i].success && IsLast(rows, i)
  }

  ghost predicate LastSucceeded(rows: seq<Row>, t: AgentType) {
    exists i :: 0 <= i < |rows| && rows[i].agentType == t && rows[i].success && IsLast(rows, i)
  }

  /** One type is not both. */
  lemma LastIsOne(rows: seq<Row>, t: AgentType)
    ensures !(LastFailed(rows, t) && LastSucceeded(rows, t))
    ensures HasType(rows, t) <==> LastFailed(rows, t) || LastSucceeded(rows, t)
  {
    if LastFailed(rows, t) {
      var i :| 0 <= i < |rows| && rows[i].agentType == t && !rows[i].success && IsLast(rows, i);
      forall j | 0 <= j < |rows| && rows[j].agentType == t && rows[j].success ensures !IsLast(rows, j) {
        if j < i { assert rows[i].agentType == rows[j].agentType; }
      }
    }
    if HasType(rows, t) { var i := LastOfType(rows, t); }
  }

  lemma {:induction false} FailedTypesAre(rows: seq<Row>, t: AgentType)
    ensures t in FailedTypes(rows) <==> exists r | r in rows :: r.agentType == t && !r.success
  {
    if rows != [] {
      FailedTypesAre(rows[1..], t);
      assert forall r :: r in rows <==> r == rows[0] || r in rows[1..];
    }
  }

  predicate Once(types: seq<AgentType>) {
    forall i, j | 0 <= i < j < |types| :: types[i] != types[j]
  }

  lemma {:induction false} FailedTypesOnce(rows: seq<Row>)
    requires DistinctTypes(rows)
    ensures Once(FailedTypes(rows))
  {
    if rows != [] {
      var tail := FailedTypes(rows[1..]);
      FailedTypesOnce(rows[1..]);
      FailedTypesAre(rows[1..], rows[0].agentType);
      forall j | 0 <= j < |tail| && !rows[0].success ensures tail[j] != rows[0].agentType {
        assert tail[j] in tail;
      }
    }
  }

  /** What a retry re-dispatches: the types whose last row is a failure, each once. */
  lemma LatestFailuresAre(rows: seq<Row>, t: AgentType)
    ensures t in LatestFailures(rows) <==> LastFailed(rows, t)
    ensures Once(LatestFailures(rows))
  {
    FailedTypesAre(Latest(rows), t);
    if LastFailed(rows, t) {
      var i :| 0 <= i < |rows| && rows[i].agentType == t && !rows[i].success && IsLast(rows, i);
      NewestIs(rows, {}, rows[i]);
    }
    if t in LatestFailures(rows) {
      var r :| r in Latest(rows) && r.agentType == t && !r.success;
      NewestIs(rows, {}, r);
    }
    NewestDistinct(rows, {});
    FailedTypesOnce(Latest(rows));
  }

  /** What lets a synthesis go on: some type's last row is a success. */
  lemma AnyLatestSucceededIs(rows: seq<Row>)
    ensures AnyLatestSucceeded(rows) <==> exists t :: LastSucceeded(rows, t)
  {
    if AnyLatestSucceeded(rows) {
      var r :| r in Latest(rows) && r.success;
      NewestIs(rows, {}, r);
      assert LastSucceeded(rows, r.agentType);
    }
    if t :| LastSucceeded(rows, t) {
      var i :| 0 <= i < |rows| && rows[i].agentType == t && rows[i].success && IsLast(rows, i);
      NewestIs(rows, {}, rows[i]);
    }
  }
}
