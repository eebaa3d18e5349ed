/** Identifiers for arbitrary labels: readable, lexically valid, stable and never shared. */
module D2Ids {
  import opened Decimal
  import opened Seqs
  import opened Sets
  import opened Words
  import opened D2Text

  predicate IsAlnum(c: char) { IdentChar(c) && c != '_' }

  predicate Other(c: char) { !IsAlnum(c) }

  predicate IsUnderscore(c: char) { c == '_' }

  function Cut(s: string, n: nat): (r: string)
    ensures forall c | c in r :: c in s
  {
    if |s| > n then s[..n] else s
  }

  function Base(prefix: string, text: string): (r: string)
    requires IsIdent(prefix)
    ensures IsIdent(r) && prefix + "_" <= r
  {
    var underscored := Squeeze(text, Other, '_');
    var flat := Cut(DropEnd(DropStart(underscored, IsUnderscore), IsUnderscore), 40);
    prefix + "_" + (if flat == "" then "x" else flat)
  }

  /** The base shows the letters and digits of the text, its words one underscore apart, as far
      as 40 characters go. */
  lemma BaseIs(prefix: string, text: string)
    requires IsIdent(prefix)
    ensures
      var words := Join(WordsOf(text, Other), "_");
      Base(prefix, text) == prefix + "_" + if words == "" then "x" else if |words| <= 40 then words else words[..40]
  {
    SqueezedIsWords(text, Other, '_', IsUnderscore);
  }

  /** The names tried for one base: itself, then with a counter. */
  function Candidate(base: string, n: nat): string {
    if n == 0 then base else base + "_" + ToDecimal(n)
  }

  lemma CandidatesDistinct(base: string, m: nat, n: nat)
    requires Candidate(base, m) == Candidate(base, n)
    ensures m == n
  {
    if m > 0 && n > 0 {
      var k := |base| + 1;
      assert (base + "_" + ToDecimal(m))[k..] == ToDecimal(m) && (base + "_" + ToDecimal(n))[k..] == ToDecimal(n);
      ToDecimalInjective(m, n);
    }
  }

  lemma CandidateIsIdent(base: string, n: nat)
    requires IsIdent(base)
    ensures IsIdent(Candidate(base, n)) && base <= Candidate(base, n)
  {
    if n > 0 {
      assert forall c | c in ToDecimal(n) :: IdentChar(c) by {
        forall c | c in ToDecimal(n) ensures IdentChar(c) { DigitIsIdentChar(c); }
      }
    }
  }

  lemma DigitIsIdentChar(c: char)
    requires IsDigit(c)
    ensures IdentChar(c)
  {
    var i :| 0 <= i < |DIGITS| && DIGITS[i] == c;
  }

  /** The first candidate that is not taken. */
  ghost predicate FirstFree(base: string, taken: set<string>, id: string) {
    id !in taken && exists n: nat :: id == Candidate(base, n) && forall k: nat | k < n :: Candidate(base, k) in taken
  }

  function Candidates(base: string, n: nat): set<string> { set k: nat | k < n :: Candidate(base, k) }

  lemma NewCandidate(base: string, n: nat)
    ensures Candidate(base, n) !in Candidates(base, n)
  {
    if Candidate(base, n) in Candidates(base, n) {
      var k: nat :| k < n && Candidate(base, k) == Candidate(base, n);
      CandidatesDistinct(base, k, n);
      assert false;
    }
  }

  lemma MoreCandidates(base: string, n: nat)
    ensures Candidates(base, n + 1) == Candidates(base, n) + {Candidate(base, n)}
  {
  }

  lemma {:induction false} CandidatesSize(base: string, n: nat)
    ensures |Candidates(base, n)| == n
  {
    if n > 0 {
      CandidatesSize(base, n - 1);
      NewCandidate(base, n - 1);
      MoreCandidates(base, n - 1);
    }
  }

  lemma FewerThanTaken(base: string, n: nat, taken: set<string>)
    requires Candidates(base, n) <= taken
    ensures n <= |taken|
  {
    CandidatesSize(base, n);
    SubsetSize(Candidates(base, n), taken);
  }

  /** The search for a free name: it ends because only finitely many names are taken and no
      two candidates are equal. */
  method Search(base: string, taken: set<string>) returns (id: string)
    ensures FirstFree(base, taken, id)
  {
    id := base;
    var n := 1;
    while id in taken
      invariant 1 <= n && id == Candidate(base, n - 1)
      invariant forall k: nat | k < n - 1 :: Candidate(base, k) in taken
      decreases |taken| + 1 - n
    {
      FewerThanTaken(base, n, taken);
      id := base + "_" + ToDecimal(n);
      n := n + 1;
    }
  }

  class IdAllocator {
    const prefix: string
    var byLabel: map<string, string>
    var taken: set<string>

    ghost predicate Valid()
      reads this
    {
      && IsIdent(prefix)
      && (forall l | l in byLabel :: byLabel[l] in taken)
      && (forall l, m | l in byLabel && m in byLabel && byLabel[l] == byLabel[m] :: l == m)
      && (forall id | id in taken :: IsIdent(id) && prefix + "_" <= id)
    }

    constructor (prefix: string)
      requires IsIdent(prefix)
      ensures Valid() && this.prefix == prefix && byLabel == map[] && taken == {}
    {
      this.prefix := prefix;
      byLabel := map[];
      taken := {};
    }

    /** The id of a label: the one it already has, or the first free one. */
    method Get(text: string) returns (id: string)
      requires Valid()
      modifies this
      ensures Valid()
      ensures byLabel == old(byLabel)[text := id] && IsIdent(id)
      ensures text in old(byLabel) ==> id == old(byLabel)[text] && byLabel == old(byLabel) && taken == old(taken)
      ensures text !in old(byLabel) ==> FirstFree(Base(prefix, text), old(taken), id) && taken == old(taken) + {id}
    {
      if text in byLabel {
        return byLabel[text];
      }
      id := Search(Base(prefix, text), taken);
      ghost var n: nat :| id == Candidate(Base(prefix, text), n);
      CandidateIsIdent(Base(prefix, text), n);
      taken := taken + {id};
      byLabel := byLabel[text := id];
    }
  }
}
