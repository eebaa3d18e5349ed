/** Decimal notation, as string templates print a non-negative integer. */
module Decimal {

  const DIGITS: string := "0123456789"

  predicate IsDigit(c: char) { c in DIGITS }

  predicate AllDigits(s: string) { forall c | c in s :: IsDigit(c) }

  function ToDecimal(n: nat): (s: string)
    ensures s != [] && AllDigits(s)
  {
    if n < 10 then [DIGITS[n]] else ToDecimal(n / 10) + [DIGITS[n % 10]]
  }

  /** The number a text of digits denotes. */
  function FromDecimal(s: string): nat
    requires AllDigits(s)
  {
    if s == "" then 0 else FromDecimal(s[..|s| - 1]) * 10 + DigitValue(s[|s| - 1])
  }

  function DigitValue(c: char): (d: nat)
    requires IsDigit(c)
    ensures d < 10 && DIGITS[d] == c
  {
    var d := c as int - '0' as int;
    assert DIGITS[0] == '0' && DIGITS[1] == '1' && DIGITS[2] == '2' && DIGITS[3] == '3' && DIGITS[4] == '4';
    assert DIGITS[5] == '5' && DIGITS[6] == '6' && DIGITS[7] == '7' && DIGITS[8] == '8' && DIGITS[9] == '9';
    d
  }

  /** What is printed denotes the number, and does not start with a needless zero. */
  lemma {:induction false} DecimalReads(n: nat)
    ensures FromDecimal(ToDecimal(n)) == n
    ensures n > 0 ==> ToDecimal(n)[0] != '0'
  {
    var s := ToDecimal(n);
    DigitsDistinct(DigitValue(s[|s| - 1]), n % 10);
    if n >= 10 {
      DecimalReads(n / 10);
      assert s[..|s| - 1] == ToDecimal(n / 10);
    } else {
      assert s[..0] == "";
    }
  }

  lemma ToDecimalInjective(m: nat, n: nat)
    requires ToDecimal(m) == ToDecimal(n)
    ensures m == n
  {
    DecimalReads(m);
    DecimalReads(n);
  }

  lemma DigitsDistinct(i: nat, j: nat)
    requires i < 10 && j < 10 && DIGITS[i] == DIGITS[j]
    ensures i == j
  {
  }
}

/**
 The keys and paths that belong to one run of a job. A force-stop changes the epoch and
 nothing else, so everything derived from a checkout must be keyed by (job, epoch).
 */
module RunKeys {
  import opened Common
  import opened Decimal

  function RunKeyOf(jobId: string, epoch: Option<nat>): string {
    jobId + "-" + ToDecimal(epoch.GetOr(0))
  }

  function AgentContextKey(runKey: string, agentType: string, queryHash: string): string {
    "agent_context:" + runKey + ":" + agentType + ":" + queryHash
  }

  /** `job:{id}:{suffix}`: every per-job key, and with a run key for an id the facts key. */
  function JobKey(id: string, suffix: string): string { "job:" + id + ":" + suffix }

  function RepoFactsKey(runKey: string): string { JobKey(runKey, "repo_facts") }

  /** path.join leaves a component without a slash as it is. */
  function RepoPath(runKey: string): string { "/tmp/repos/" + runKey }

  function ArchivePath(runKey: string): string { RepoPath(runKey) + ".tar.gz" }

  /** A text splits in one way only at the last occurrence of a separator. */
  lemma {:induction false} SplitAtLast(a: string, b: string, c: string, d: string, sep: char)
    requires a + [sep] + b == c + [sep] + d && sep !in b && sep !in d
    ensures a == c && b == d
  {
    var s := a + [sep] + b;
    assert s[|a|] == sep && s[|c|] == sep;
    assert |a| == |c|;
    assert a == s[..|a|] && c == s[..|c|];
    assert b == s[|a| + 1..] && d == s[|c| + 1..];
  }

  lemma NotADigit(s: string, c: char)
    requires AllDigits(s) && !IsDigit(c)
    ensures c !in s
  {
  }

  /** The run key determines the job and the epoch, whatever characters the job id holds;
      an absent epoch is generation 0. */
  lemma RunKeyInjective(j: string, e: Option<nat>, j': string, e': Option<nat>)
    ensures RunKeyOf(j, e) == RunKeyOf(j', e') <==> j == j' && e.GetOr(0) == e'.GetOr(0)
  {
    if RunKeyOf(j, e) == RunKeyOf(j', e') {
      var d, d' := ToDecimal(e.GetOr(0)), ToDecimal(e'.GetOr(0));
      assert !IsDigit('-');
      NotADigit(d, '-');
      NotADigit(d', '-');
      assert j + ['-'] + d == RunKeyOf(j, e) && j' + ['-'] + d' == RunKeyOf(j', e');
      SplitAtLast(j, d, j', d', '-');
      ToDecimalInjective(e.GetOr(0), e'.GetOr(0));
    }
  }

  lemma SamePrefix(p: string, a: string, b: string)
    requires p + a == p + b
    ensures a == b
  {
    assert a == (p + a)[|p|..] && b == (p + b)[|p|..];
  }

  lemma SameSuffix(a: string, b: string, q: string)
    requires a + q == b + q
    ensures a == b
  {
    assert a == (a + q)[..|a + q| - |q|] && b == (b + q)[..|b + q| - |q|];
  }

  /** Keys of different jobs, runs or purposes never coincide: the suffixes in use hold no
      colon, so a key determines both the id and the suffix. */
  lemma JobKeyInjective(id: string, suffix: string, id': string, suffix': string)
    requires ':' !in suffix && ':' !in suffix'
    ensures JobKey(id, suffix) == JobKey(id', suffix') <==> id == id' && suffix == suffix'
  {
    if JobKey(id, suffix) == JobKey(id', suffix') {
      assert ("job:" + id) + [':'] + suffix == JobKey(id, suffix);
      assert ("job:" + id') + [':'] + suffix' == JobKey(id', suffix');
      SplitAtLast("job:" + id, suffix, "job:" + id', suffix', ':');
      SamePrefix("job:", id, id');
    }
  }

  lemma AgentContextKeyInjective(r: string, t: string, h: string, r': string, t': string, h': string)
    requires ':' !in t && ':' !in t' && ':' !in h && ':' !in h'
    ensures AgentContextKey(r, t, h) == AgentContextKey(r', t', h') <==> r == r' && t == t' && h == h'
  {
    if AgentContextKey(r, t, h) == AgentContextKey(r', t', h') {
      var p, p' := "agent_context:" + r, "agent_context:" + r';
      assert (p + ":" + t) + [':'] + h == AgentContextKey(r, t, h);
      assert (p' + ":" + t') + [':'] + h' == AgentContextKey(r', t', h');
      SplitAtLast(p + ":" + t, h, p' + ":" + t', h', ':');
      assert p + ":" + t == p + [':'] + t && p' + ":" + t' == p' + [':'] + t';
      SplitAtLast(p, t, p', t', ':');
      SamePrefix("agent_context:", r, r');
    }
  }

  /** Two runs that differ in job or epoch share no checkout, archive, facts key or cached
      context, whatever agent types and query hashes the contexts are for. */
  lemma RunsShareNothing(j: string, e: Option<nat>, j': string, e': Option<nat>, t: string, h: string, t': string, h': string)
    requires j != j' || e.GetOr(0) != e'.GetOr(0)
    requires ':' !in t && ':' !in t' && ':' !in h && ':' !in h'
    ensures
      var r, r' := RunKeyOf(j, e), RunKeyOf(j', e');
      && RepoPath(r) != RepoPath(r') && ArchivePath(r) != ArchivePath(r') && ArchivePath(r) != RepoPath(r')
      && RepoFactsKey(r) != RepoFactsKey(r')
      && AgentContextKey(r, t, h) != AgentContextKey(r', t', h')
  {
    var r, r' := RunKeyOf(j, e), RunKeyOf(j', e');
    RunKeyInjective(j, e, j', e');
    if RepoPath(r) == RepoPath(r') { SamePrefix("/tmp/repos/", r, r'); }
    if ArchivePath(r) == ArchivePath(r') { SameSuffix(RepoPath(r), RepoPath(r'), ".tar.gz"); }
    ArchiveIsNoCheckout(r, j', e');
    JobKeyInjective(r, "repo_facts", r', "repo_facts");
    AgentContextKeyInjective(r, t, h, r', t', h');
  }

  /** A checkout ends in the digits of its epoch, an archive does not. */
  lemma ArchiveIsNoCheckout(r: string, j: string, e: Option<nat>)
    ensures ArchivePath(r) != RepoPath(RunKeyOf(j, e))
  {
    var archive, checkout, digits := ArchivePath(r), RepoPath(RunKeyOf(j, e)), ToDecimal(e.GetOr(0));
    assert checkout[|checkout| - 1] == digits[|digits| - 1] && digits[|digits| - 1] in digits;
    assert archive[|archive| - 1] == 'z' && !IsDigit('z');
  }
}
