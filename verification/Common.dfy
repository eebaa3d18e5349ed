/** Small datatypes shared by the other modules. */
module Common {

  function Min(a: int, b: int): int { if a < b then a else b }

  datatype Option<+T> = None | Some(value: T) {

    /** The value, or a default: the source's `x ?? default`. */
    function GetOr(default: T): T {
      match this
      case Some(v) => v
      case None => default
    }
  }
}

/** Sequence functions and equalities that several modules need. */
module Seqs {

  function Take<T>(s: seq<T>, n: nat): (r: seq<T>)
    ensures |r| <= n && r <= s
    ensures |s| <= n ==> r == s
    ensures |s| > n ==> |r| == n
  {
    if |s| <= n then s else s[..n]
  }

  function Join(parts: seq<string>, separator: string): string {
    if parts == [] then ""
    else if |parts| == 1 then parts[0]
    else parts[0] + separator + Join(parts[1..], separator)
  }

  /** The lines of a text: what Join with newlines puts together. */
  function SplitLines(s: string): (r: seq<string>)
    ensures r != []
  {
    if s == "" then [""]
    else
      var rest := SplitLines(s[1..]);
      if s[0] == '\n' then [""] + rest else [[s[0]] + rest[0]] + rest[1..]
  }

  lemma {:induction false} SplitLast(line: string)
    requires '\n' !in line
    ensures SplitLines(line) == [line]
  {
    if line != "" {
      assert line[0] in line;
      SplitLast(line[1..]);
      assert [line[0]] + line[1..] == line;
    }
  }

  lemma {:induction false} SplitFirst(line: string, rest: string)
    requires '\n' !in line
    ensures SplitLines(line + ("\n" + rest)) == [line] + SplitLines(rest)
  {
    var s := line + ("\n" + rest);
    if line == "" {
      assert s == "\n" + rest && s[1..] == rest;
    } else {
      assert line[0] in line;
      assert s[1..] == line[1..] + ("\n" + rest);
      SplitFirst(line[1..], rest);
      var tail := SplitLines(s[1..]);
      assert tail[0] == line[1..] && tail[1..] == SplitLines(rest);
      assert [line[0]] + line[1..] == line;
    }
  }

  lemma {:induction false} SplitJoin(lines: seq<string>)
    requires lines != [] && forall l | l in lines :: '\n' !in l
    ensures SplitLines(Join(lines, "\n")) == lines
  {
    assert lines[0] in lines;
    if |lines| == 1 {
      SplitLast(lines[0]);
    } else {
      var rest := Join(lines[1..], "\n");
      assert Join(lines, "\n") == lines[0] + ("\n" + rest);
      SplitFirst(lines[0], rest);
      SplitJoin(lines[1..]);
    }
  }

  predicate Increasing(s: seq<int>) {
    forall i, j | 0 <= i < j < |s| :: s[i] < s[j]
  }

  /** Array.prototype.filter. */
  function Filter<T(!new)>(s: seq<T>, keep: T -> bool): (r: seq<T>)
    ensures forall x :: x in r <==> x in s && keep(x)
  {
    if s == [] then []
    else
      var front, last := s[..|s| - 1], s[|s| - 1];
      assert forall x :: x in s <==> x in front || x == last;
      Filter(front, keep) + (if keep(last) then [last] else [])
  }

  /** The elements at these positions, and no others, are the kept ones. */
  ghost predicate KeptAt<T(!new)>(s: seq<T>, keep: T -> bool, r: seq<T>, at: seq<nat>) {
    && |at| == |r| && Increasing(at)
    && (forall k | 0 <= k < |at| :: at[k] < |s| && r[k] == s[at[k]])
    && (forall i | 0 <= i < |s| :: keep(s[i]) <==> i in at)
  }

  lemma KeepsNext<T(!new)>(front: seq<T>, last: T, keep: T -> bool, r: seq<T>, at: seq<nat>)
    requires KeptAt(front, keep, r, at)
    ensures if keep(last) then KeptAt(front + [last], keep, r + [last], at + [|front|]) else KeptAt(front + [last], keep, r, at)
  {
    var s := front + [last];
    assert |front| !in at;
    var more := at + [|front|];
    if keep(last) {
      assert forall i | 0 <= i < |s| :: i in more <==> i in at || i == |front|;
      assert forall j, k | 0 <= j < k < |more| :: more[j] < more[k];
    }
  }

  /** They come in order, each as often as it is there. */
  lemma {:induction false} FilterKeeps<T(!new)>(s: seq<T>, keep: T -> bool) returns (at: seq<nat>)
    ensures KeptAt(s, keep, Filter(s, keep), at)
  {
    if s == [] {
      at := [];
    } else {
      var front, last := s[..|s| - 1], s[|s| - 1];
      at := FilterKeeps(front, keep);
      KeepsNext(front, last, keep, Filter(front, keep), at);
      Snoc(s, |s| - 1);
      if keep(last) { at := at + [|front|]; }
    }
  }

  lemma {:induction false} FilterAll<T(!new)>(s: seq<T>, keep: T -> bool)
    requires forall x | x in s :: keep(x)
    ensures Filter(s, keep) == s
  {
    if s != [] {
      FilterAll(s[..|s| - 1], keep);
      Snoc(s, |s| - 1);
    }
  }

  lemma {:induction false} FilterBoth<T(!new)>(a: seq<T>, b: seq<T>, keep: T -> bool)
    ensures Filter(a + b, keep) == Filter(a, keep) + Filter(b, keep)
  {
    if b == [] {
      assert a + b == a;
    } else {
      assert (a + b)[..|a + b| - 1] == a + b[..|b| - 1];
      FilterBoth(a, b[..|b| - 1], keep);
    }
  }

  lemma {:induction false} FilterNoMore<T(!new)>(s: seq<T>, keep: T -> bool)
    ensures |Filter(s, keep)| <= |s|
  {
    if s != [] { FilterNoMore(s[..|s| - 1], keep); }
  }

  /** What a cut leaves out stands behind it. */
  lemma InRest<T>(s: seq<T>, n: nat, x: T) returns (j: nat)
    requires x in s && x !in Take(s, n)
    ensures n <= j < |s| && s[j] == x
  {
    var front := Take(s, n);
    assert forall k | 0 <= k < |front| :: front[k] != x;
    j :| 0 <= j < |s| && s[j] == x;
  }

  lemma Snoc<T>(s: seq<T>, n: nat)
    requires n < |s|
    ensures s[..n + 1] == s[..n] + [s[n]]
    ensures |s| == n + 1 ==> s == s[..n] + [s[n]]
  {
  }

  lemma Grown<T>(s: seq<T>, t: seq<T>, x: T)
    requires |t| == |s| + 1 && t[|s|] == x && forall i | 0 <= i < |s| :: t[i] == s[i]
    ensures t == s + [x]
  {
  }

  lemma Rejoin<T>(s: seq<T>, k: nat)
    requires k <= |s|
    ensures s[..k] + s[k..] == s && |s[k..]| == |s| - k
  {
  }

  lemma Rejoined<T>(a: seq<T>, b: seq<T>)
    ensures (a + b)[..|a|] == a && (a + b)[|a|..] == b
  {
  }

  lemma Sides<T>(whole: seq<T>, a: seq<T>, b: seq<T>)
    requires whole == a + b
    ensures |whole| == |a| + |b|
    ensures forall i | 0 <= i < |a| :: whole[i] == a[i]
    ensures forall i | 0 <= i < |b| :: whole[|a| + i] == b[i]
  {
  }

  lemma Whole<T>(s: seq<T>)
    ensures s[..|s|] == s
  {
  }

  lemma TakeOfSnoc<T>(s: seq<T>, x: T, k: nat)
    requires k <= |s|
    ensures (s + [x])[..k] == s[..k]
    ensures k == |s| ==> (s + [x])[..k] == s && (s + [x])[k] == x
    ensures k < |s| ==> (s + [x])[k] == s[k]
  {
  }

  lemma Regroup<T>(a: seq<T>, b: seq<T>, c: seq<T>)
    ensures a + b + c == a + (b + c)
  {
  }
}

/** Cardinalities of finite sets. */
module Sets {

  lemma SubsetSize<T>(a: set<T>, b: set<T>)
    requires a <= b
    ensures |a| <= |b|
  {
    assert b == a + (b - a);
  }

  lemma SameSize<T>(part: set<T>, whole: set<T>)
    requires part <= whole && |part| >= |whole|
    ensures part == whole
  {
    if part != whole {
      var x :| x in whole && x !in part;
      SubsetSize(part, whole - {x});
    }
  }
}
