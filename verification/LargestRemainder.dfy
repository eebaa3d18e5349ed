/**
 largestRemainder: whole percentages that add up to 100. Shares are kept exact, as the
 quotient and the remainder of 100 * count by the total.
 */
module LargestRemainder {
  import opened Seqs
  import opened StableSort

  function Sum(s: seq<int>): int {
    if s == [] then 0 else Sum(s[..|s| - 1]) + s[|s| - 1]
  }

  lemma {:induction false} SumBounds(s: seq<int>, limit: int)
    requires forall i | 0 <= i < |s| :: 0 <= s[i] <= limit
    ensures 0 <= Sum(s) <= |s| * limit
  {
    if s != [] {
      SumBounds(s[..|s| - 1], limit);
      assert |s| * limit == (|s| - 1) * limit + limit;
    }
  }

  lemma {:induction false} SumNatural(s: seq<int>)
    requires forall i | 0 <= i < |s| :: 0 <= s[i]
    ensures 0 <= Sum(s)
    ensures Sum(s) == 0 ==> forall i | 0 <= i < |s| :: s[i] == 0
  {
    if s != [] { SumNatural(s[..|s| - 1]); }
  }

  lemma {:induction false} SumAssign(s: seq<int>, i: nat, x: int)
    requires i < |s|
    ensures Sum(s[i := x]) == Sum(s) - s[i] + x
  {
    var n := |s| - 1;
    if i < n {
      SumAssign(s[..n], i, x);
      assert s[i := x][..n] == s[..n][i := x];
    } else {
      assert s[i := x][..n] == s[..n];
    }
  }

  // ─── Exact shares ───────────────────────────────────────────────────────────

  /** 100 * values[i] is floors[i] times the total and fracs[i] over. */
  ghost predicate Shares(values: seq<int>, total: int, floors: seq<int>, fracs: seq<int>) {
    && |floors| == |values| == |fracs|
    && forall i | 0 <= i < |values| ::
         100 * values[i] == floors[i] * total + fracs[i] && 0 <= fracs[i] < total
  }

  function Floors(values: seq<nat>, total: int): (r: seq<int>)
    requires 0 < total
  {
    seq(|values|, i requires 0 <= i < |values| => 100 * values[i] / total)
  }

  function Fracs(values: seq<nat>, total: int): (r: seq<int>)
    requires 0 < total
  {
    seq(|values|, i requires 0 <= i < |values| => 100 * values[i] % total)
  }

  lemma ExactShares(values: seq<nat>, total: int)
    requires 0 < total
    ensures Shares(values, total, Floors(values, total), Fracs(values, total))
  {
  }

  /** What the floors leave to hand out is the sum of the fractional parts. */
  lemma {:induction false} LeftOver(values: seq<int>, total: int, floors: seq<int>, fracs: seq<int>)
    requires Shares(values, total, floors, fracs)
    ensures 100 * Sum(values) == Sum(floors) * total + Sum(fracs)
  {
    if values != [] {
      var n := |values| - 1;
      LeftOver(values[..n], total, floors[..n], fracs[..n]);
      Distribute(Sum(floors[..n]), floors[n], total);
    }
  }

  lemma Distribute(a: int, b: int, c: int)
    ensures (a + b) * c == a * c + b * c
  {
  }

  lemma Monotone(a: int, b: int, c: int)
    requires a <= b && 0 <= c
    ensures a * c <= b * c
  {
  }

  /** What is left to hand out is neither negative nor more than one point each. */
  lemma EnoughToServe(values: seq<int>, total: int, floors: seq<int>, fracs: seq<int>)
    requires Shares(values, total, floors, fracs) && 0 < total == Sum(values)
    ensures var remaining := 100 - Sum(floors);
            0 <= remaining <= |values| && Sum(fracs) == remaining * total
  {
    LeftOver(values, total, floors, fracs);
    SumBounds(fracs, total);
    var n, remaining := |values|, 100 - Sum(floors);
    Distribute(remaining, Sum(floors), total);
    if remaining < 0 { Monotone(remaining, -1, total); }
    if remaining > n { Monotone(n + 1, remaining, total); Distribute(n, 1, total); }
  }

  // ─── The order of hand-out ──────────────────────────────────────────────────

  function Key(fracs: seq<int>): int -> int {
    i => if 0 <= i < |fracs| then -fracs[i] else 0
  }

  function Indices(n: nat): seq<int> { seq(n, i => i) }

  /** Largest fractional part first. */
  function Order(fracs: seq<int>): seq<int> {
    SortBy(Indices(|fracs|), Key(fracs))
  }

  lemma {:induction false} IndicesOnce(n: nat, i: int)
    ensures multiset(Indices(n))[i] <= 1
    ensures i >= n ==> multiset(Indices(n))[i] == 0
  {
    if n > 0 {
      IndicesOnce(n - 1, i);
      IndicesOnce(n - 1, n - 1);
      NextIndex(n - 1);
    } else {
      NoIndex();
    }
  }

  lemma IncreasingSnoc(s: seq<int>, n: int)
    requires Increasing(s) && forall i | 0 <= i < |s| :: s[i] < n
    ensures Increasing(s + [n]) && forall i | 0 <= i < |s + [n]| :: (s + [n])[i] <= n
  {
  }

  lemma {:induction false} WithKeyIncreasing(n: nat, key: int -> int, k: int)
    ensures Increasing(WithKey(Indices(n), key, k))
    ensures forall i | 0 <= i < |WithKey(Indices(n), key, k)| :: WithKey(Indices(n), key, k)[i] < n
  {
    if n > 0 {
      WithKeyIncreasing(n - 1, key, k);
      NextIndex(n - 1);
      WithKeyAppend(Indices(n - 1), n - 1, key, k);
      IncreasingSnoc(WithKey(Indices(n - 1), key, k), n - 1);
    } else {
      NoIndex();
    }
  }

  lemma NextIndex(n: nat)
    ensures Indices(n + 1) == Indices(n) + [n]
  {
  }

  lemma NoIndex()
    ensures Indices(0) == []
  {
  }

  /** Equal keys stand in the order in which WithKey lists them. */
  lemma {:induction false} TiesByIndex(s: seq<int>, key: int -> int, a: nat, b: nat)
    requires a < b < |s| && key(s[a]) == key(s[b]) && Increasing(WithKey(s, key, key(s[a])))
    ensures s[a] < s[b]
  {
    var front, k := s[..|s| - 1], key(s[a]);
    var w, whole := WithKey(front, key, k), WithKey(s, key, k);
    assert whole[..|w|] == w;
    assert Increasing(w) by { assert forall i | 0 <= i < |w| :: w[i] == whole[i]; }
    if b < |s| - 1 {
      TiesByIndex(front, key, a, b);
    } else {
      InWithKey(front, key, k, s[a]);
      assert front[a] == s[a];
      var i :| 0 <= i < |w| && w[i] == s[a];
      assert whole == w + [s[b]] && whole[i] == s[a] && whole[|w|] == s[b];
    }
  }

  /** i is served before j: a larger fractional part, or an equal one and an earlier place. */
  predicate Before(fracs: seq<int>, i: int, j: int)
    requires 0 <= i < |fracs| && 0 <= j < |fracs|
  {
    fracs[i] > fracs[j] || (fracs[i] == fracs[j] && i < j)
  }

  ghost predicate ServiceOrder(fracs: seq<int>, p: seq<int>) {
    && |p| == |fracs|
    && (forall a | 0 <= a < |p| :: 0 <= p[a] < |fracs|)
    && (forall i | 0 <= i < |fracs| :: i in p)
    && (forall a, b | 0 <= a < b < |p| :: p[a] != p[b] && Before(fracs, p[a], p[b]))
  }

  lemma OrderIs(fracs: seq<int>)
    ensures ServiceOrder(fracs, Order(fracs))
  {
    var n, key, p := |fracs|, Key(fracs), Order(fracs);
    SortByCorrect(Indices(n), key);
    SortBySameElements(Indices(n), key);
    forall a | 0 <= a < |p| ensures 0 <= p[a] < n {
      assert p[a] in Indices(n);
    }
    forall i | 0 <= i < n ensures i in p {
      assert Indices(n)[i] == i;
    }
    forall a, b | 0 <= a < b < |p| ensures p[a] != p[b] && Before(fracs, p[a], p[b]) {
      if p[a] == p[b] {
        Twice(p, a, b);
        IndicesOnce(n, p[a]);
        assert false;
      }
      if key(p[a]) == key(p[b]) {
        WithKeyIncreasing(n, key, key(p[a]));
        TiesByIndex(p, key, a, b);
      }
    }
  }

  // ─── What the percentages promise ───────────────────────────────────────────

  /** One point more than the floor for exactly the first k in the order of service. */
  ghost predicate Hands(floors: seq<int>, p: seq<int>, k: nat, r: seq<int>)
    requires k <= |p|
  {
    |r| == |floors| && forall i | 0 <= i < |floors| :: r[i] == floors[i] + if i in p[..k] then 1 else 0
  }

  /** Less than one point off the exact share, on either side. */
  predicate NearExact(v: int, total: int, percent: int) {
    (percent - 1) * total < 100 * v < (percent + 1) * total
  }

  /** A larger count never gets less; equal counts differ by at most a point, in favour of the earlier. */
  predicate Ranked(values: seq<int>, r: seq<int>) {
    |r| == |values| &&
    forall i, j | 0 <= i < |values| && 0 <= j < |values| ::
      (values[i] > values[j] ==> r[i] >= r[j]) && (values[i] == values[j] && i < j ==> r[j] <= r[i] <= r[j] + 1)
  }

  lemma LargerShare(v: int, w: int, total: int, f: int, x: int, g: int, y: int)
    requires 100 * v == f * total + x && 100 * w == g * total + y && 0 <= x < total && 0 <= y < total && v >= w
    ensures f > g || (f == g && x >= y && (v > w <==> x > y))
  {
    if f < g { Monotone(f + 1, g, total); Distribute(f, 1, total); }
  }

  lemma ServedFirst(fracs: seq<int>, p: seq<int>, k: nat, i: int, j: int)
    requires ServiceOrder(fracs, p) && k <= |p| && 0 <= i < |fracs| && 0 <= j < |fracs|
    requires Before(fracs, i, j) && j in p[..k]
    ensures i in p[..k]
  {
    assert i in p;
    var a :| 0 <= a < |p| && p[a] == i;
    var b :| 0 <= b < k && p[b] == j;
    assert a < k ==> p[..k][a] == i;
  }

  lemma HandsRank(values: seq<int>, total: int, floors: seq<int>, fracs: seq<int>, p: seq<int>, k: nat, r: seq<int>)
    requires Shares(values, total, floors, fracs) && ServiceOrder(fracs, p) && k <= |p| && Hands(floors, p, k, r)
    ensures Ranked(values, r)
  {
    forall i, j | 0 <= i < |values| && 0 <= j < |values|
      ensures values[i] > values[j] ==> r[i] >= r[j]
      ensures values[i] == values[j] && i < j ==> r[j] <= r[i] <= r[j] + 1
    {
      if values[i] >= values[j] {
        LargerShare(values[i], values[j], total, floors[i], fracs[i], floors[j], fracs[j]);
        if values[i] == values[j] {
          LargerShare(values[j], values[i], total, floors[j], fracs[j], floors[i], fracs[i]);
        }
        if Before(fracs, i, j) && j in p[..k] { ServedFirst(fracs, p, k, i, j); }
      }
    }
  }

  /** The sum of entries that vanish off the first a of an order that covers them. */
  lemma {:induction false} FewPositive(s: seq<int>, p: seq<int>, a: nat, limit: int)
    requires forall i | 0 <= i < |s| :: 0 <= s[i] <= limit
    requires a <= |p| && (forall i | 0 <= i < |s| :: i in p) && (forall b | 0 <= b < |p| :: 0 <= p[b] < |s|)
    requires forall b | a <= b < |p| :: s[p[b]] == 0
    ensures Sum(s) <= a * limit
    decreases a
  {
    if a == 0 {
      forall i | 0 <= i < |s| ensures s[i] <= 0 {
        assert i in p;
        var b :| 0 <= b < |p| && p[b] == i;
      }
      SumBounds(s, 0);
    } else {
      var i := p[a - 1];
      FewPositive(s[i := 0], p, a - 1, limit);
      SumAssign(s, i, 0);
      Distribute(a - 1, 1, limit);
    }
  }

  /** Nothing is handed to an exact share: there are enough others. */
  lemma PositiveFirst(fracs: seq<int>, total: int, p: seq<int>, k: nat, a: nat)
    requires ServiceOrder(fracs, p) && Sum(fracs) == k * total && a < k <= |p|
    requires forall i | 0 <= i < |fracs| :: 0 <= fracs[i] < total
    ensures fracs[p[a]] > 0
  {
    if fracs[p[a]] == 0 {
      forall b | a <= b < |p| ensures fracs[p[b]] == 0 {
        if a < b { assert Before(fracs, p[a], p[b]); }
      }
      FewPositive(fracs, p, a, total);
      Monotone(a + 1, k, total);
      Distribute(a, 1, total);
    }
  }

  lemma HandsNear(values: seq<int>, total: int, floors: seq<int>, fracs: seq<int>, p: seq<int>, k: nat, r: seq<int>, i: nat)
    requires Shares(values, total, floors, fracs) && ServiceOrder(fracs, p) && k <= |p| && Hands(floors, p, k, r)
    requires Sum(fracs) == k * total && i < |values|
    ensures NearExact(values[i], total, r[i])
  {
    var f := floors[i];
    Distribute(f, 1, total);
    Distribute(f, 2, total);
    Distribute(f, -1, total);
    if i in p[..k] {
      var a :| 0 <= a < k && p[a] == i;
      PositiveFirst(fracs, total, p, k, a);
    }
  }

  method LargestRemainder(values: seq<nat>) returns (r: seq<int>)
    ensures |r| == |values|
    ensures Sum(values) == 0 ==> forall i | 0 <= i < |r| :: r[i] == 0
    ensures Sum(values) > 0 ==> Sum(r) == 100
    ensures Sum(values) > 0 ==> forall i | 0 <= i < |r| :: NearExact(values[i], Sum(values), r[i])
    ensures Ranked(values, r)
  {
    var total := Sum(values);
    SumNatural(values);
    if total == 0 {
      r := seq(|values|, _ => 0);
      return;
    }
    var floors, fracs := Floors(values, total), Fracs(values, total);
    ExactShares(values, total);
    EnoughToServe(values, total, floors, fracs);
    ghost var k;
    r, k := HandOut(floors, fracs);
    HandsRank(values, total, floors, fracs, Order(fracs), k, r);
    forall i | 0 <= i < |r| ensures NearExact(values[i], total, r[i]) {
      HandsNear(values, total, floors, fracs, Order(fracs), k, r, i);
    }
  }

  /** Hand the points left over to the largest fractional parts. */
  method HandOut(floors: seq<int>, fracs: seq<int>) returns (r: seq<int>, ghost k: nat)
    requires |floors| == |fracs| && 0 <= 100 - Sum(floors) <= |floors|
    ensures k == 100 - Sum(floors) && ServiceOrder(fracs, Order(fracs)) && k <= |Order(fracs)|
    ensures Hands(floors, Order(fracs), k, r) && Sum(r) == 100
  {
    var order := Order(fracs);
    OrderIs(fracs);
    var remaining := 100 - Sum(floors);
    r := floors;
    k := 0;
    for j := 0 to |order|
      invariant 0 <= remaining && k + remaining == 100 - Sum(floors) && k == j
      invariant Hands(floors, order, k, r)
      invariant Sum(r) + remaining == 100
    {
      if remaining <= 0 { break; }
      SumAssign(r, order[j], r[order[j]] + 1);
      HandsOneMore(floors, fracs, order, k, r);
      r := r[order[j] := r[order[j]] + 1];
      remaining := remaining - 1;
      k := k + 1;
    }
  }

  lemma HandsOneMore(floors: seq<int>, fracs: seq<int>, p: seq<int>, k: nat, r: seq<int>)
    requires |floors| == |fracs| && ServiceOrder(fracs, p) && k < |p| && Hands(floors, p, k, r)
    ensures Hands(floors, p, k + 1, r[p[k] := r[p[k]] + 1])
  {
    assert p[..k + 1] == p[..k] + [p[k]];
  }
}
