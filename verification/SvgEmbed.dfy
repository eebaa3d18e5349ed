/**
 normalizeSvgForHtml: an SVG made fit to stand as raw HTML inside Markdown. Blank lines would
 end the HTML block and CDATA delimiters would survive as text, so both are taken out.
 */
module SvgEmbed {
  import opened Seqs
  import opened Words
  import opened D2Text

  const CDATA_OPEN := "<![CDATA["
  const CDATA_CLOSE := "]]>"

  /** Every occurrence of p deleted, left to right. */
  function Delete(s: string, p: string): (r: string)
    requires p != ""
    ensures |r| <= |s|
  {
    if s == "" then "" else if p <= s then Delete(s[|p|..], p) else [s[0]] + Delete(s[1..], p)
  }

  predicate Contains(s: string, p: string) {
    p <= s || (s != "" && Contains(s[1..], p))
  }

  /** What follows a run of newlines and blanks that starts with a newline. */
  function AfterRun(s: string): (r: string)
    ensures |r| <= |s|
    decreases |s|
  {
    if s == "" || s[0] != '\n' then s
    else
      BlanksShrink(s[1..]);
      var t := SkipBlanks(s[1..]);
      if t != "" && t[0] == '\n' then AfterRun(t) else t
  }

  lemma {:induction false} BlanksShrink(s: string)
    ensures |SkipBlanks(s)| <= |s|
  {
    if s != "" && IsBlank(s[0]) { BlanksShrink(s[1..]); }
  }

  /** A blank line starts here: a newline, blanks, another newline. */
  predicate BlankLineAt(s: string) {
    s != "" && s[0] == '\n' && SkipBlanks(s[1..]) != "" && SkipBlanks(s[1..])[0] == '\n'
  }

  /** Every run of blank lines becomes one newline. */
  function CollapseBlankLines(s: string): (r: string)
    ensures |r| <= |s|
    decreases |s|
  {
    if s == "" then ""
    else if BlankLineAt(s) then
      BlanksShrink(s[1..]);
      "\n" + CollapseBlankLines(AfterRun(SkipBlanks(s[1..])))
    else [s[0]] + CollapseBlankLines(s[1..])
  }

  function Trim(s: string): string { TrimEnd(TrimStart(s)) }

  /** The svg without its CDATA delimiters. */
  function Undelimited(svg: string): string { Delete(Delete(svg, CDATA_OPEN), CDATA_CLOSE) }

  function Normalize(svg: string): string { Trim(CollapseBlankLines(Undelimited(svg))) }

  predicate NoBlankLine(s: string) {
    s == "" || (!BlankLineAt(s) && NoBlankLine(s[1..]))
  }

  // ─── Collapsing ─────────────────────────────────────────────────────────────

  /** A run ends at something that is neither blank nor a newline, or at the end. */
  lemma {:induction false} RunEnds(s: string)
    requires s != "" && s[0] == '\n'
    ensures AfterRun(s) == "" || (!IsBlank(AfterRun(s)[0]) && AfterRun(s)[0] != '\n')
    decreases |s|
  {
    BlanksShrink(s[1..]);
    BlanksEnd(s[1..]);
    var t := SkipBlanks(s[1..]);
    if t != "" && t[0] == '\n' { RunEnds(t); }
  }

  lemma {:induction false} BlanksEnd(s: string)
    ensures SkipBlanks(s) == "" || !IsBlank(SkipBlanks(s)[0])
  {
    if s != "" && IsBlank(s[0]) { BlanksEnd(s[1..]); }
  }

  /** Collapsing leaves the first character of what does not start with a newline. */
  lemma CollapseFirst(s: string)
    ensures (CollapseBlankLines(s) == "") == (s == "")
    ensures s != "" ==> CollapseBlankLines(s)[0] == s[0]
  {
  }

  /** Blanks before a collapsed text stay what they were. */
  lemma {:induction false} CollapseAfterBlanks(s: string)
    ensures SkipBlanks(CollapseBlankLines(s)) == CollapseBlankLines(SkipBlanks(s))
  {
    if s != "" && IsBlank(s[0]) {
      assert CollapseBlankLines(s)[1..] == CollapseBlankLines(s[1..]);
      CollapseAfterBlanks(s[1..]);
    } else {
      CollapseFirst(s);
    }
  }

  lemma {:induction false} CollapseLeavesNone(s: string)
    ensures NoBlankLine(CollapseBlankLines(s))
    decreases |s|
  {
    if s != "" {
      var r := CollapseBlankLines(s);
      if BlankLineAt(s) {
        BlanksShrink(s[1..]);
        var t := AfterRun(SkipBlanks(s[1..]));
        RunEnds(SkipBlanks(s[1..]));
        CollapseLeavesNone(t);
        assert r[1..] == CollapseBlankLines(t);
        CollapseFirst(t);
      } else {
        CollapseLeavesNone(s[1..]);
        assert r[1..] == CollapseBlankLines(s[1..]);
        CollapseAfterBlanks(s[1..]);
        CollapseFirst(SkipBlanks(s[1..]));
      }
    }
  }

  lemma {:induction false} NothingToCollapse(s: string)
    requires NoBlankLine(s)
    ensures CollapseBlankLines(s) == s
  {
    if s != "" { NothingToCollapse(s[1..]); }
  }

  // ─── Trimming ───────────────────────────────────────────────────────────────

  predicate Trimmed(s: string) { s == "" || (!IsSpace(s[0]) && !IsSpace(s[|s| - 1])) }

  lemma {:induction false} TrimStartEnds(s: string)
    ensures TrimStart(s) == "" || !IsSpace(TrimStart(s)[0])
    ensures NoBlankLine(s) ==> NoBlankLine(TrimStart(s))
  {
    if s != "" && IsSpace(s[0]) { TrimStartEnds(s[1..]); }
  }

  lemma {:induction false} NoBlankPrefix(s: string)
    requires s != "" && NoBlankLine(s)
    ensures NoBlankLine(s[..|s| - 1])
  {
    if |s| > 1 {
      NoBlankPrefix(s[1..]);
      var front := s[..|s| - 1];
      assert front[1..] == s[1..][..|s| - 2];
      BlanksOfPrefix(s[1..]);
    }
  }

  /** A shorter text shows no newline after its blanks that the longer one does not. */
  lemma {:induction false} BlanksOfPrefix(s: string)
    requires s != ""
    ensures SkipBlanks(s[..|s| - 1]) != "" ==> SkipBlanks(s) != "" && SkipBlanks(s)[0] == SkipBlanks(s[..|s| - 1])[0]
  {
    if |s| > 1 && IsBlank(s[0]) {
      BlanksOfPrefix(s[1..]);
      assert s[..|s| - 1][1..] == s[1..][..|s| - 2];
    }
  }

  lemma {:induction false} TrimEndEnds(s: string)
    ensures TrimEnd(s) == "" || !IsSpace(TrimEnd(s)[|TrimEnd(s)| - 1])
    ensures TrimEnd(s) <= s
    ensures NoBlankLine(s) ==> NoBlankLine(TrimEnd(s))
  {
    if s != "" && IsSpace(s[|s| - 1]) {
      if NoBlankLine(s) { NoBlankPrefix(s); }
      TrimEndEnds(s[..|s| - 1]);
    }
  }

  lemma TrimTrims(s: string)
    ensures Trimmed(Trim(s))
    ensures NoBlankLine(s) ==> NoBlankLine(Trim(s))
    ensures Trimmed(s) ==> Trim(s) == s
  {
    TrimStartEnds(s);
    TrimEndEnds(TrimStart(s));
  }

  /** Normalized, an svg starts and ends with something visible and holds no blank line. */
  lemma NormalizeIs(svg: string)
    ensures Trimmed(Normalize(svg)) && NoBlankLine(Normalize(svg))
  {
    CollapseLeavesNone(Undelimited(svg));
    TrimTrims(CollapseBlankLines(Undelimited(svg)));
  }

  // ─── Nothing visible is lost ────────────────────────────────────────────────

  /** The visible part of every line that has one. */
  function Visibly(lines: seq<string>): seq<string> {
    if lines == [] then []
    else (if Trim(lines[0]) == "" then [] else [Trim(lines[0])]) + Visibly(lines[1..])
  }

  /** What a text shows, line by line. */
  function Shown(s: string): seq<string> { Visibly(SplitLines(s)) }

  lemma {:induction false} EndSpaceDropped(s: string, c: char)
    requires IsSpace(c)
    ensures Trim(s + [c]) == Trim(s)
  {
    if s == "" {
      assert [c][1..] == "" && s + [c] == [c];
    } else if IsSpace(s[0]) {
      assert (s + [c])[1..] == s[1..] + [c];
      EndSpaceDropped(s[1..], c);
    } else {
      assert (s + [c])[..|s|] == s;
    }
  }

  lemma FirstSpaceDropped(s: string)
    requires s != "" && IsSpace(s[0])
    ensures Trim(s) == Trim(s[1..])
  {
  }

  lemma VisiblySame(a: seq<string>, b: seq<string>)
    requires a != [] && b != [] && Trim(a[0]) == Trim(b[0]) && Visibly(a[1..]) == Visibly(b[1..])
    ensures Visibly(a) == Visibly(b)
  {
  }

  /** A newline or a blank at the start of a text shows nothing. */
  lemma SpaceFirst(s: string)
    requires s != "" && IsSpace(s[0])
    ensures Shown(s) == Shown(s[1..])
  {
    var lines, rest := SplitLines(s), SplitLines(s[1..]);
    if s[0] == '\n' {
      assert Trim("") == "" && lines[1..] == rest;
    } else {
      assert lines[0][1..] == rest[0] && lines[1..] == rest[1..];
      FirstSpaceDropped(lines[0]);
      VisiblySame(lines, rest);
    }
  }

  /** So does one at the end: at most it makes the last line longer. */
  lemma {:induction false} SpaceLast(s: string)
    requires s != "" && IsSpace(s[|s| - 1])
    ensures var line, was := SplitLines(s)[0], SplitLines(s[..|s| - 1])[0]; line == was || line == was + [s[|s| - 1]]
    ensures Visibly(SplitLines(s)[1..]) == Visibly(SplitLines(s[..|s| - 1])[1..])
  {
    var front := s[..|s| - 1];
    if |s| == 1 {
      assert front == "" && SplitLines(front) == [""] && s[1..] == "";
    } else {
      SpaceLast(s[1..]);
      assert front[1..] == s[1..][..|s| - 2];
      var lines, was := SplitLines(s[1..]), SplitLines(front[1..]);
      if s[0] == '\n' {
        LastShown(s[1..]);
        assert SplitLines(s)[1..] == lines && SplitLines(front)[1..] == was;
      } else {
        assert SplitLines(s)[1..] == lines[1..] && SplitLines(front)[1..] == was[1..];
        assert [s[0]] + (was[0] + [s[|s| - 1]]) == [s[0]] + was[0] + [s[|s| - 1]];
      }
    }
  }

  lemma LastShown(s: string)
    requires s != "" && IsSpace(s[|s| - 1])
    requires var line, was := SplitLines(s)[0], SplitLines(s[..|s| - 1])[0]; line == was || line == was + [s[|s| - 1]]
    requires Visibly(SplitLines(s)[1..]) == Visibly(SplitLines(s[..|s| - 1])[1..])
    ensures Shown(s) == Shown(s[..|s| - 1])
  {
    var was := SplitLines(s[..|s| - 1]);
    EndSpaceDropped(was[0], s[|s| - 1]);
    VisiblySame(SplitLines(s), was);
  }

  lemma {:induction false} TrimStartShows(s: string)
    ensures Shown(TrimStart(s)) == Shown(s)
  {
    if s != "" && IsSpace(s[0]) {
      SpaceFirst(s);
      TrimStartShows(s[1..]);
    }
  }

  lemma {:induction false} TrimEndShows(s: string)
    ensures Shown(TrimEnd(s)) == Shown(s)
  {
    if s != "" && IsSpace(s[|s| - 1]) {
      SpaceLast(s);
      LastShown(s);
      TrimEndShows(s[..|s| - 1]);
    }
  }

  lemma {:induction false} SkipShows(s: string)
    ensures Shown(SkipBlanks(s)) == Shown(s)
  {
    if s != "" && IsBlank(s[0]) {
      SpaceFirst(s);
      SkipShows(s[1..]);
    }
  }

  lemma {:induction false} RunShows(s: string)
    ensures Shown(AfterRun(s)) == Shown(s)
    decreases |s|
  {
    if s != "" && s[0] == '\n' {
      SpaceFirst(s);
      SkipShows(s[1..]);
      BlanksShrink(s[1..]);
      var t := SkipBlanks(s[1..]);
      if t != "" && t[0] == '\n' { RunShows(t); }
    }
  }

  lemma {:induction false} CollapseShows(s: string)
    ensures Shown(CollapseBlankLines(s)) == Shown(s)
    ensures SplitLines(CollapseBlankLines(s))[0] == SplitLines(s)[0]
    ensures Visibly(SplitLines(CollapseBlankLines(s))[1..]) == Visibly(SplitLines(s)[1..])
    decreases |s|
  {
    if s != "" {
      var r := CollapseBlankLines(s);
      if BlankLineAt(s) {
        BlanksShrink(s[1..]);
        var t := AfterRun(SkipBlanks(s[1..]));
        CollapseShows(t);
        RunShows(SkipBlanks(s[1..]));
        SkipShows(s[1..]);
        assert r[1..] == CollapseBlankLines(t);
        assert SplitLines(s)[1..] == SplitLines(s[1..]) && SplitLines(r)[1..] == SplitLines(r[1..]);
        VisiblySame(SplitLines(r), SplitLines(s));
      } else {
        CollapseShows(s[1..]);
        assert r[1..] == CollapseBlankLines(s[1..]);
        VisiblySame(SplitLines(r), SplitLines(s));
      }
    }
  }

  /** Line by line, whatever the svg showed without its delimiters it still shows. */
  lemma NormalizeShows(svg: string)
    ensures Shown(Normalize(svg)) == Shown(Undelimited(svg))
  {
    var collapsed := CollapseBlankLines(Undelimited(svg));
    CollapseShows(Undelimited(svg));
    TrimStartShows(collapsed);
    TrimEndShows(TrimStart(collapsed));
  }

  /** A piece that grows by the character before it, which does not start an occurrence. */
  lemma PieceGrows(c: char, piece: string, rest: string, p: string)
    requires p != "" && piece <= rest && !Contains(piece, p) && !(p <= [c] + rest)
    ensures !Contains([c] + piece, p)
  {
    var longer := [c] + piece;
    assert longer[1..] == piece;
    assert longer <= [c] + rest;
  }

  lemma FirstPiece(pieces: seq<string>, p: string)
    requires pieces != []
    ensures pieces[0] <= Join(pieces, p)
  {
    if |pieces| > 1 {
      Regroup(pieces[0], p, Join(pieces[1..], p));
    }
  }

  /** The text in pieces, none of which holds an occurrence. */
  ghost predicate Pieces(s: string, p: string, pieces: seq<string>) {
    pieces != [] && Join(pieces, p) == s && forall q | q in pieces :: !Contains(q, p)
  }

  lemma PiecesNext(s: string, p: string, rest: seq<string>)
    requires s != "" && p != "" && !(p <= s) && Pieces(s[1..], p, rest)
    ensures Pieces(s, p, [[s[0]] + rest[0]] + rest[1..])
  {
    JoinFirst([s[0]], rest, p);
    FirstPiece(rest, p);
    assert [s[0]] + s[1..] == s;
    PieceGrows(s[0], rest[0], s[1..], p);
  }

  lemma PiecesSkip(s: string, p: string, rest: seq<string>)
    requires p != "" && p <= s && Pieces(s[|p|..], p, rest)
    ensures Pieces(s, p, [""] + rest)
  {
    JoinNext("", rest, p);
    assert s == "" + p + s[|p|..];
    assert !Contains("", p);
  }

  /** Deleting takes out the occurrences of the text, left to right, and leaves all that stands
      between them. */
  lemma {:induction false} DeleteIs(s: string, p: string) returns (pieces: seq<string>)
    requires p != ""
    ensures Pieces(s, p, pieces) && Delete(s, p) == Join(pieces, "")
    decreases |s|
  {
    if s == "" {
      pieces := [""];
    } else if p <= s {
      var rest := DeleteIs(s[|p|..], p);
      pieces := [""] + rest;
      PiecesSkip(s, p, rest);
      JoinNext("", rest, "");
    } else {
      var rest := DeleteIs(s[1..], p);
      pieces := [[s[0]] + rest[0]] + rest[1..];
      PiecesNext(s, p, rest);
      JoinFirst([s[0]], rest, "");
    }
  }

  // ─── Idempotence ────────────────────────────────────────────────────────────

  lemma {:induction false} NothingToDelete(s: string, p: string)
    requires p != ""
    ensures !Contains(s, p) ==> Delete(s, p) == s
    ensures Contains(s, p) ==> |Delete(s, p)| < |s|
    decreases |s|
  {
    if s == "" || p <= s {
    } else {
      NothingToDelete(s[1..], p);
    }
  }

  predicate Visible(p: string) { p != "" && forall c | c in p :: !IsSpace(c) }

  lemma {:induction false} CollapseKeepsStart(s: string, p: string)
    requires forall c | c in p :: !IsSpace(c)
    ensures p <= CollapseBlankLines(s) <==> p <= s
  {
    if p != "" {
      assert p[0] in p;
      CollapseFirst(s);
      if s != "" && p[0] == s[0] {
        CollapseKeepsStart(s[1..], p[1..]);
        assert CollapseBlankLines(s)[1..] == CollapseBlankLines(s[1..]);
        assert p <= CollapseBlankLines(s) <==> p[1..] <= CollapseBlankLines(s)[1..];
        assert p <= s <==> p[1..] <= s[1..];
      }
    }
  }

  lemma StartsVisible(s: string, p: string)
    requires Visible(p) && s != "" && IsSpace(s[0])
    ensures Contains(s, p) == Contains(s[1..], p)
  {
    assert p[0] in p;
  }

  lemma {:induction false} SkipKeeps(s: string, p: string)
    requires Visible(p)
    ensures Contains(SkipBlanks(s), p) == Contains(s, p)
  {
    if s != "" && IsBlank(s[0]) {
      StartsVisible(s, p);
      SkipKeeps(s[1..], p);
    }
  }

  lemma {:induction false} RunKeeps(s: string, p: string)
    requires Visible(p)
    ensures Contains(AfterRun(s), p) == Contains(s, p)
    decreases |s|
  {
    if s != "" && s[0] == '\n' {
      StartsVisible(s, p);
      SkipKeeps(s[1..], p);
      BlanksShrink(s[1..]);
      var t := SkipBlanks(s[1..]);
      if t != "" && t[0] == '\n' { RunKeeps(t, p); }
    }
  }

  lemma {:induction false} CollapseKeeps(s: string, p: string)
    requires Visible(p)
    ensures Contains(CollapseBlankLines(s), p) == Contains(s, p)
    decreases |s|
  {
    if s != "" {
      var r := CollapseBlankLines(s);
      if BlankLineAt(s) {
        BlanksShrink(s[1..]);
        var t := AfterRun(SkipBlanks(s[1..]));
        CollapseKeeps(t, p);
        StartsVisible(r, p);
        assert r[1..] == CollapseBlankLines(t);
        StartsVisible(s, p);
        SkipKeeps(s[1..], p);
        RunKeeps(SkipBlanks(s[1..]), p);
      } else {
        CollapseKeeps(s[1..], p);
        CollapseKeepsStart(s, p);
        assert r[1..] == CollapseBlankLines(s[1..]);
      }
    }
  }

  lemma {:induction false} TrimStartKeeps(s: string, p: string)
    requires Visible(p)
    ensures Contains(TrimStart(s), p) == Contains(s, p)
  {
    if s != "" && IsSpace(s[0]) {
      StartsVisible(s, p);
      TrimStartKeeps(s[1..], p);
    }
  }

  lemma {:induction false} SpaceAtEnd(s: string, p: string)
    requires Visible(p) && s != "" && IsSpace(s[|s| - 1])
    ensures Contains(s[..|s| - 1], p) == Contains(s, p)
  {
    var front := s[..|s| - 1];
    assert p[|p| - 1] in p;
    assert p <= s ==> |p| < |s|;
    assert p <= s <==> p <= front;
    if |s| > 1 {
      SpaceAtEnd(s[1..], p);
      assert front[1..] == s[1..][..|s| - 2];
    } else {
      StartsVisible(s, p);
    }
  }

  lemma {:induction false} TrimEndKeeps(s: string, p: string)
    requires Visible(p)
    ensures Contains(TrimEnd(s), p) == Contains(s, p)
  {
    if s != "" && IsSpace(s[|s| - 1]) {
      SpaceAtEnd(s, p);
      TrimEndKeeps(s[..|s| - 1], p);
    }
  }

  lemma {:induction false} TrimShrinks(s: string)
    ensures |TrimStart(s)| <= |s|
  {
    if s != "" && IsSpace(s[0]) { TrimShrinks(s[1..]); }
  }

  lemma NormalizeShrinks(svg: string)
    ensures |Normalize(svg)| <= |Undelimited(svg)|
  {
    TrimShrinks(CollapseBlankLines(Undelimited(svg)));
    TrimEndEnds(TrimStart(CollapseBlankLines(Undelimited(svg))));
  }

  /** Normalizing twice is normalizing once exactly when deleting the delimiters does not put
      a new delimiter together. */
  lemma IdempotentUnlessAssembled(svg: string)
    ensures Normalize(Normalize(svg)) == Normalize(svg)
            <==> !Contains(Undelimited(svg), CDATA_OPEN) && !Contains(Undelimited(svg), CDATA_CLOSE)
  {
    var d, n := Undelimited(svg), Normalize(svg);
    KeepsDelimiter(d, CDATA_OPEN);
    KeepsDelimiter(d, CDATA_CLOSE);
    NothingToDelete(n, CDATA_OPEN);
    NothingToDelete(Delete(n, CDATA_OPEN), CDATA_CLOSE);
    NormalizeShrinks(n);
    NormalizeIs(svg);
    if !Contains(n, CDATA_OPEN) && !Contains(n, CDATA_CLOSE) {
      NothingToCollapse(n);
      TrimTrims(n);
    }
  }

  lemma KeepsDelimiter(d: string, p: string)
    requires Visible(p)
    ensures Contains(Trim(CollapseBlankLines(d)), p) == Contains(d, p)
  {
    CollapseKeeps(d, p);
    TrimStartKeeps(CollapseBlankLines(d), p);
    TrimEndKeeps(TrimStart(CollapseBlankLines(d)), p);
  }

  /** Such an svg: the brackets around a delimiter close up into another one. */
  lemma AssembledDelimiter()
    ensures Normalize(Normalize("]]]]>>")) != Normalize("]]]]>>")
  {
    var w := "]]]]>>";
    NoOpenDelimiter(w);
    assert w[1..] == "]]]>>" && "]]]>>"[1..] == "]]>>" && "]]>>"[3..] == ">";
    assert Delete(">", CDATA_CLOSE) == ">";
    assert Delete("]]>>", CDATA_CLOSE) == ">";
    assert Delete("]]]>>", CDATA_CLOSE) == "]" + ">";
    assert Undelimited(w) == "]]>";
    IdempotentUnlessAssembled(w);
  }

  lemma {:induction false} NoOpenDelimiter(s: string)
    requires '<' !in s
    ensures Delete(s, CDATA_OPEN) == s
  {
    if s != "" {
      assert s[0] in s && CDATA_OPEN[0] == '<';
      NoOpenDelimiter(s[1..]);
    }
  }
}
