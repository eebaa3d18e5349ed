/**
 Array.prototype.sort with a comparator on an integer key: a stable sort. It is specified
 here once, by what it computes (insertion after every element that is not larger), and
 characterised by three properties that determine it: order, permutation and stability.
 */
module StableSort {
  import opened Common
  import opened Seqs

  /** Insert x after every element whose key is not larger. */
  function Insert<T>(sorted: seq<T>, x: T, key: T -> int): seq<T> {
    if sorted == [] then [x]
    else if key(sorted[|sorted| - 1]) <= key(x) then sorted + [x]
    else Insert(sorted[..|sorted| - 1], x, key) + [sorted[|sorted| - 1]]
  }

  /** Ascending by key, equal keys in their original order. */
  function SortBy<T>(s: seq<T>, key: T -> int): seq<T> {
    if s == [] then [] else Insert(SortBy(s[..|s| - 1], key), s[|s| - 1], key)
  }

  predicate SortedBy<T>(s: seq<T>, key: T -> int) {
    forall i, j | 0 <= i < j < |s| :: key(s[i]) <= key(s[j])
  }

  /** The elements of one key, in order. */
  function WithKey<T>(s: seq<T>, key: T -> int, k: int): seq<T> {
    if s == [] then []
    else WithKey(s[..|s| - 1], key, k) + (if key(s[|s| - 1]) == k then [s[|s| - 1]] else [])
  }

  lemma {:induction false} InsertElements<T>(sorted: seq<T>, x: T, key: T -> int)
    ensures multiset(Insert(sorted, x, key)) == multiset(sorted) + multiset{x}
    ensures |Insert(sorted, x, key)| == |sorted| + 1
  {
    if sorted == [] {
    } else {
      var n := |sorted| - 1;
      assert sorted == sorted[..n] + [sorted[n]];
      if key(sorted[n]) > key(x) { InsertElements(sorted[..n], x, key); }
    }
  }

  lemma InsertedAre<T>(sorted: seq<T>, x: T, key: T -> int, y: T)
    requires y in Insert(sorted, x, key)
    ensures y == x || y in sorted
  {
    InsertElements(sorted, x, key);
    assert y in multiset(sorted) + multiset{x};
  }

  lemma {:induction false} InsertKeeps<T>(sorted: seq<T>, x: T, key: T -> int)
    requires SortedBy(sorted, key)
    ensures SortedBy(Insert(sorted, x, key), key)
  {
    if sorted == [] {
    } else {
      var n := |sorted| - 1;
      var front := sorted[..n];
      if key(sorted[n]) > key(x) {
        InsertKeeps(front, x, key);
        var inserted := Insert(front, x, key);
        forall i | 0 <= i < |inserted| ensures key(inserted[i]) <= key(sorted[n]) {
          InsertedAre(front, x, key, inserted[i]);
        }
      }
    }
  }

  lemma {:induction false} WithKeyAppend<T>(s: seq<T>, x: T, key: T -> int, k: int)
    ensures WithKey(s + [x], key, k) == WithKey(s, key, k) + (if key(x) == k then [x] else [])
  {
    assert (s + [x])[..|s|] == s;
  }

  lemma {:induction false} WithKeyAbove<T>(s: seq<T>, key: T -> int, k: int)
    requires forall x | x in s :: key(x) < k
    ensures WithKey(s, key, k) == []
  {
    if s == [] {
    } else {
      WithKeyAbove(s[..|s| - 1], key, k);
    }
  }

  lemma {:induction false} InsertStable<T>(sorted: seq<T>, x: T, key: T -> int, k: int)
    requires SortedBy(sorted, key)
    ensures WithKey(Insert(sorted, x, key), key, k) == WithKey(sorted, key, k) + (if key(x) == k then [x] else [])
  {
    if sorted == [] {
      WithKeyAppend([], x, key, k);
      assert [] + [x] == [x];
    } else {
      var n := |sorted| - 1;
      var front := sorted[..n];
      assert sorted == front + [sorted[n]];
      if key(sorted[n]) <= key(x) {
        WithKeyAppend(sorted, x, key, k);
      } else {
        InsertStable(front, x, key, k);
        WithKeyAppend(Insert(front, x, key), sorted[n], key, k);
        WithKeyAppend(front, sorted[n], key, k);
      }
    }
  }

  /** Sorted, a permutation, and stable. */
  lemma {:induction false} SortByCorrect<T>(s: seq<T>, key: T -> int)
    ensures SortedBy(SortBy(s, key), key)
    ensures multiset(SortBy(s, key)) == multiset(s)
    ensures |SortBy(s, key)| == |s|
    ensures forall k :: WithKey(SortBy(s, key), key, k) == WithKey(s, key, k)
  {
    if s == [] {
    } else {
      var front, x := s[..|s| - 1], s[|s| - 1];
      assert s == front + [x];
      SortByCorrect(front, key);
      InsertKeeps(SortBy(front, key), x, key);
      InsertElements(SortBy(front, key), x, key);
      forall k ensures WithKey(SortBy(s, key), key, k) == WithKey(s, key, k) {
        InsertStable(SortBy(front, key), x, key, k);
        WithKeyAppend(front, x, key, k);
      }
    }
  }

  lemma SortBySameElements<T>(s: seq<T>, key: T -> int)
    ensures forall x :: x in SortBy(s, key) <==> x in s
  {
    SortByCorrect(s, key);
    forall x ensures x in SortBy(s, key) <==> x in s {
      assert x in SortBy(s, key) <==> x in multiset(SortBy(s, key));
      assert x in s <==> x in multiset(s);
    }
  }

  lemma {:induction false} InWithKey<T>(s: seq<T>, key: T -> int, k: int, x: T)
    ensures x in WithKey(s, key, k) <==> x in s && key(x) == k
  {
    if s != [] {
      InWithKey(s[..|s| - 1], key, k, x);
      assert x in s <==> x in s[..|s| - 1] || x == s[|s| - 1];
    }
  }

  /** A selection from a sorted sequence is sorted. */
  lemma {:induction false} WithKeySorted<T>(s: seq<T>, key: T -> int, k: int, order: T -> int)
    requires SortedBy(s, order)
    ensures SortedBy(WithKey(s, key, k), order)
  {
    if s != [] {
      var front := s[..|s| - 1];
      WithKeySorted(front, key, k, order);
      var w := WithKey(front, key, k);
      forall i | 0 <= i < |w| ensures order(w[i]) <= order(s[|s| - 1]) {
        InWithKey(front, key, k, w[i]);
        assert w[i] in front;
        var j :| 0 <= j < |front| && front[j] == w[i];
      }
    }
  }

  lemma {:induction false} HeadOfKey<T>(s: seq<T>, key: T -> int)
    requires s != []
    ensures WithKey(s, key, key(s[0])) != [] && WithKey(s, key, key(s[0]))[0] == s[0]
  {
    if |s| > 1 { HeadOfKey(s[..|s| - 1], key); }
  }

  lemma Twice<T>(s: seq<T>, i: nat, j: nat)
    requires i < j < |s| && s[i] == s[j]
    ensures multiset(s)[s[i]] >= 2
  {
    assert s == s[..i] + [s[i]] + s[i + 1..j] + [s[j]] + s[j + 1..];
  }

  lemma {:induction false} SameInsert<T>(sorted: seq<T>, x: T, key: T -> int, other: T -> int)
    requires key(x) == other(x) && forall i | 0 <= i < |sorted| :: key(sorted[i]) == other(sorted[i])
    ensures Insert(sorted, x, key) == Insert(sorted, x, other)
  {
    if sorted != [] { SameInsert(sorted[..|sorted| - 1], x, key, other); }
  }

  /** Sorting depends on the keys of the elements only. */
  lemma {:induction false} SameSort<T>(s: seq<T>, key: T -> int, other: T -> int)
    requires forall i | 0 <= i < |s| :: key(s[i]) == other(s[i])
    ensures SortBy(s, key) == SortBy(s, other)
  {
    if s != [] {
      var front := s[..|s| - 1];
      SameSort(front, key, other);
      var sorted := SortBy(front, key);
      forall i | 0 <= i < |sorted| ensures key(sorted[i]) == other(sorted[i]) {
        SortByCorrect(front, key);
        assert sorted[i] in multiset(sorted);
        assert sorted[i] in multiset(front);
      }
      SameInsert(sorted, s[|s| - 1], key, other);
    }
  }

  lemma {:induction false} AlreadySorted<T>(s: seq<T>, key: T -> int)
    requires SortedBy(s, key)
    ensures SortBy(s, key) == s
  {
    if s != [] { AlreadySorted(s[..|s| - 1], key); }
  }

  /** What a cut keeps of a sorted sequence: as many as fit, in order, and nothing that is left
      out has a smaller key than anything kept. */
  lemma KeptFirst<T>(s: seq<T>, key: T -> int, n: nat)
    ensures var kept := Take(SortBy(s, key), n);
            && |kept| == Min(n, |s|) && SortedBy(kept, key) && (forall x | x in kept :: x in s)
            && forall x | x in s && x !in kept :: forall i | 0 <= i < |kept| :: key(kept[i]) <= key(x)
  {
    var sorted := SortBy(s, key);
    var kept := Take(sorted, n);
    SortByCorrect(s, key);
    SortBySameElements(s, key);
    forall x | x in kept ensures x in s { assert x in sorted; }
    forall x | x in s && x !in kept ensures forall i | 0 <= i < |kept| :: key(kept[i]) <= key(x) {
      var j := InRest(sorted, n, x);
    }
  }
}
