/**
 Report fences: a diagram is printed into the Markdown as a fence holding its source, and
 spliced back in as a figure holding its SVG. The scanner knows nothing of what was printed;
 it looks for a header line and the first closing line after it.
 */
module FenceSplice {
  import opened Common
  import opened Seqs
  import opened Decimal
  import opened Words
  import opened D2Text
  import opened SvgEmbed

  datatype Kind = D2 | Chart

  datatype Diagram = Diagram(slug: string, title: string, kind: Kind, source: string, svg: string)

  function KindText(k: Kind): string { if k.D2? then "d2" else "chart" }

  // ─── Printing ───────────────────────────────────────────────────────────────

  function Header(d: Diagram): string { "```" + KindText(d.kind) + " " + d.slug }

  function Fence(d: Diagram): string { Header(d) + "\n" + d.source + "\n```" }

  // ─── The scanner ────────────────────────────────────────────────────────────

  predicate SlugChar(c: char) { IdentChar(c) || c == '-' }

  function FirstLine(s: string): (r: string)
    ensures r <= s && OneLine(r)
    ensures |r| < |s| ==> IsTerminator(s[|r|])
  {
    if s == "" || IsTerminator(s[0]) then "" else [s[0]] + FirstLine(s[1..])
  }

  function SkipSlug(s: string): (r: string)
    ensures |r| <= |s|
  {
    if s != "" && SlugChar(s[0]) then SkipSlug(s[1..]) else s
  }

  /** Blanks, a slug, blanks, and nothing more: the slug. */
  function SlugAfter(s: string): Option<string> {
    if s == "" || !IsBlank(s[0]) then None
    else
      var t := SkipBlanks(s);
      var u := SkipSlug(t);
      if |u| == |t| || SkipBlanks(u) != "" then None else Some(t[..|t| - |u|])
  }

  /** The slug of a header line. */
  function HeaderSlug(line: string): Option<string> {
    if "```d2" <= line then SlugAfter(line[5..])
    else if "```chart" <= line then SlugAfter(line[8..])
    else None
  }

  /** Recognises a header line and reads its slug. */
  type Recogniser = string -> Option<string>

  /** A header at the start of s: its slug, and the text after its newline. */
  function OpensHere(header: Recogniser, s: string): (r: Option<(string, string)>)
    ensures r.Some? ==> |r.value.1| < |s|
  {
    var line := FirstLine(s);
    if |line| < |s| && s[|line|] == '\n' && header(line).Some?
    then Some((header(line).value, s[|line| + 1..])) else None
  }

  /** A newline and three backquotes that end their line. */
  predicate ClosesHere(s: string) {
    "\n```" <= s && (|s| == 4 || IsTerminator(s[4]))
  }

  /** The text after the first closing line. */
  function AfterClose(body: string): (r: Option<string>)
    ensures r.Some? ==> |r.value| < |body|
  {
    if ClosesHere(body) then Some(body[4..]) else if body == "" then None else AfterClose(body[1..])
  }

  function EscapeChar(c: char): string {
    if c == '&' then "&amp;" else if c == '<' then "&lt;" else if c == '>' then "&gt;" else if c == '"' then "&quot;" else [c]
  }

  function Escape(s: string): string { if s == "" then "" else EscapeChar(s[0]) + Escape(s[1..]) }

  const FIGURE_OPEN := "<figure class=\"cm-diagram\" data-slug=\""
  const CAPTION_OPEN := "<figcaption>"
  const CAPTION_CLOSE := "</figcaption>"
  const FIGURE_CLOSE := "</figure>"

  /** The four lines of a figure. */
  function Figure(slug: string, d: Diagram): string {
    FIGURE_OPEN + slug + "\">" + "\n" + Normalize(d.svg)
    + "\n" + (CAPTION_OPEN + Escape(d.title) + CAPTION_CLOSE)
    + "\n" + FIGURE_CLOSE
  }

  /** What replaces a fence: the figure of its diagram, or the fence itself when there is none. */
  function Replacement(slug: string, whole: string, figures: map<string, string>): string {
    if slug in figures then figures[slug] else whole
  }

  function Splice(header: Recogniser, s: string, atStart: bool, figures: map<string, string>): string
    decreases |s|
  {
    if s == "" then ""
    else if atStart && OpensHere(header, s).Some? && AfterClose(OpensHere(header, s).value.1).Some? then
      var (slug, body) := OpensHere(header, s).value;
      var rest := AfterClose(body).value;
      Replacement(slug, s[..|s| - |rest|], figures) + Splice(header, rest, false, figures)
    else [s[0]] + Splice(header, s[1..], IsTerminator(s[0]), figures)
  }

  /** new Map(diagrams.map(d => [d.slug, d])). */
  function BySlug(diagrams: seq<Diagram>): map<string, Diagram> {
    if diagrams == [] then map[]
    else BySlug(diagrams[..|diagrams| - 1])[diagrams[|diagrams| - 1].slug := diagrams[|diagrams| - 1]]
  }

  /** The figure of every diagram. */
  function Figures(diagrams: seq<Diagram>): map<string, string> {
    var bySlug := BySlug(diagrams);
    map slug | slug in bySlug :: Figure(slug, bySlug[slug])
  }

  function InlineDiagrams(markdown: string, diagrams: seq<Diagram>): string {
    Splice(HeaderSlug, markdown, true, Figures(diagrams))
  }

  // ─── What the printer must keep to ──────────────────────────────────────────

  predicate IsSlug(s: string) { s != "" && forall c | c in s :: SlugChar(c) }

  /** No line of the source but the first is a closing line. */
  predicate NoClosingLine(source: string) {
    source == "" || (!ClosesHere(source + "\n") && NoClosingLine(source[1..]))
  }

  predicate Printable(d: Diagram) { IsSlug(d.slug) && NoClosingLine(d.source) }

  /** No line of the text is a fence header. */
  predicate NoHeader(header: Recogniser, s: string, atStart: bool) {
    s == "" || ((!atStart || OpensHere(header, s).None?) && NoHeader(header, s[1..], IsTerminator(s[0])))
  }

  predicate EndsLine(s: string) { s != "" && IsTerminator(s[|s| - 1]) }

  // ─── Prose passes through ───────────────────────────────────────────────────

  lemma {:induction false} FirstLineAppend(s: string, rest: string)
    requires exists i | 0 <= i < |s| :: IsTerminator(s[i])
    ensures FirstLine(s + rest) == FirstLine(s) && |FirstLine(s)| < |s|
  {
    if !IsTerminator(s[0]) {
      var i :| 0 <= i < |s| && IsTerminator(s[i]);
      assert s[1..][i - 1] == s[i];
      assert (s + rest)[1..] == s[1..] + rest;
      FirstLineAppend(s[1..], rest);
    }
  }

  /** Whether a line is a header does not depend on the lines after it. */
  lemma OpensAppend(header: Recogniser, s: string, rest: string)
    requires EndsLine(s)
    ensures OpensHere(header, s + rest).Some? == OpensHere(header, s).Some?
  {
    assert IsTerminator(s[|s| - 1]);
    FirstLineAppend(s, rest);
    var line, whole := FirstLine(s), s + rest;
    assert FirstLine(whole) == line && |line| < |whole| && whole[|line|] == s[|line|];
  }

  /** Prose made of whole lines, none of them a header, is copied. */
  lemma {:induction false} ProseCopied(header: Recogniser, p: string, rest: string, atStart: bool, figures: map<string, string>)
    requires NoHeader(header, p, atStart) && EndsLine(p)
    ensures Splice(header, p + rest, atStart, figures) == p + Splice(header, rest, true, figures)
  {
    OpensAppend(header, p, rest);
    CharCopied(header, p + rest, atStart, figures);
    FirstAndRest(p, rest);
    if |p| > 1 {
      ProseCopied(header, p[1..], rest, IsTerminator(p[0]), figures);
    }
    FirstAndRest(p, Splice(header, rest, true, figures));
  }

  lemma FirstAndRest(p: string, rest: string)
    requires p != ""
    ensures [p[0]] + (p[1..] + rest) == p + rest
    ensures (p + rest)[1..] == p[1..] + rest
    ensures |p| == 1 ==> p[1..] + rest == rest
  {
  }

  lemma CharCopied(header: Recogniser, s: string, atStart: bool, figures: map<string, string>)
    requires s != "" && (!atStart || OpensHere(header, s).None?)
    ensures Splice(header, s, atStart, figures) == [s[0]] + Splice(header, s[1..], IsTerminator(s[0]), figures)
  {
  }

  /** Prose at the end need not end its line. */
  lemma {:induction false} LastProseCopied(header: Recogniser, p: string, atStart: bool, figures: map<string, string>)
    requires NoHeader(header, p, atStart)
    ensures Splice(header, p, atStart, figures) == p
  {
    if p != "" { LastProseCopied(header, p[1..], IsTerminator(p[0]), figures); }
  }

  // ─── A printed fence is recognised ──────────────────────────────────────────

  lemma {:induction false} SlugSkipped(s: string)
    requires forall c | c in s :: SlugChar(c)
    ensures SkipSlug(s) == ""
  {
    if s != "" { assert s[0] in s; SlugSkipped(s[1..]); }
  }

  lemma SlugFound(slug: string)
    requires IsSlug(slug)
    ensures SlugAfter(" " + slug) == Some(slug)
  {
    assert slug[0] in slug;
    assert (" " + slug)[1..] == slug;
    assert SkipBlanks(slug) == slug && slug[..|slug|] == slug;
    assert SkipBlanks(" " + slug) == slug;
    SlugSkipped(slug);
  }

  lemma HeaderRead(d: Diagram)
    requires IsSlug(d.slug)
    ensures HeaderSlug(Header(d)) == Some(d.slug) && OneLine(Header(d))
  {
    SlugFound(d.slug);
    HeaderOneLine(d);
    if d.kind.D2? { D2Header(d); } else { ChartHeader(d); }
  }

  lemma D2Header(d: Diagram)
    requires d.kind.D2?
    ensures HeaderSlug(Header(d)) == SlugAfter(" " + d.slug)
  {
    assert Header(d) == "```d2" + (" " + d.slug);
    assert Header(d)[5..] == " " + d.slug;
  }

  lemma ChartHeader(d: Diagram)
    requires d.kind.Chart?
    ensures HeaderSlug(Header(d)) == SlugAfter(" " + d.slug)
  {
    assert Header(d) == "```chart" + (" " + d.slug);
    assert Header(d)[8..] == " " + d.slug;
    assert Header(d)[3] == 'c';
  }

  lemma HeaderOneLine(d: Diagram)
    requires IsSlug(d.slug)
    ensures OneLine(Header(d))
  {
    forall c | c in d.slug ensures !IsTerminator(c) {
    }
    OneLineBoth("```" + KindText(d.kind), " ");
    OneLineBoth("```" + KindText(d.kind) + " ", d.slug);
  }

  lemma {:induction false} FirstLineOf(line: string, rest: string)
    requires OneLine(line) && rest != "" && IsTerminator(rest[0])
    ensures FirstLine(line + rest) == line
  {
    if line == "" {
      assert line + rest == rest;
    } else {
      assert line[0] in line;
      assert (line + rest)[1..] == line[1..] + rest;
      FirstLineOf(line[1..], rest);
    }
  }

  /** The first closing line is the printed one. */
  lemma {:induction false} CloseFound(source: string, after: string)
    requires NoClosingLine(source) && (after == "" || IsTerminator(after[0]))
    ensures AfterClose(source + "\n```" + after) == Some(after)
  {
    var body := source + "\n```" + after;
    if source == "" {
      assert body == "\n```" + after;
      assert body[4..] == after;
    } else {
      NotYetClosed(source, after);
      assert body[1..] == source[1..] + "\n```" + after;
      CloseFound(source[1..], after);
    }
  }

  lemma NotYetClosed(source: string, after: string)
    requires source != "" && !ClosesHere(source + "\n")
    ensures !ClosesHere(source + "\n```" + after)
  {
    var s, t := source + "\n", source + "\n```" + after;
    assert t[|source|] == '\n';
    assert forall i | 0 <= i < |s| :: t[i] == s[i];
    if |source| >= 4 {
      assert s[..4] == t[..4];
    }
  }

  /** The recogniser reads the printed header. */
  ghost predicate Reads(header: Recogniser, d: Diagram) {
    OneLine(Header(d)) && header(Header(d)) == Some(d.slug)
  }

  lemma FenceOpens(header: Recogniser, d: Diagram, body: string)
    requires Reads(header, d)
    ensures OpensHere(header, Header(d) + ("\n" + body)) == Some((d.slug, body))
  {
    FirstLineOf(Header(d), "\n" + body);
    var s := Header(d) + ("\n" + body);
    assert s[|Header(d)| + 1..] == body;
  }

  /** What the scanner makes of a header followed by a body that is closed somewhere. */
  lemma SpliceAtHeader(header: Recogniser, s: string, slug: string, body: string, rest: string, figures: map<string, string>)
    requires s != "" && OpensHere(header, s) == Some((slug, body)) && AfterClose(body) == Some(rest)
    ensures |rest| <= |s|
    ensures Splice(header, s, true, figures) == Replacement(slug, s[..|s| - |rest|], figures) + Splice(header, rest, false, figures)
  {
  }

  lemma FenceReplaced(header: Recogniser, d: Diagram, after: string, figures: map<string, string>)
    requires Printable(d) && (after == "" || IsTerminator(after[0])) && Reads(header, d)
    ensures Splice(header, Fence(d) + after, true, figures) == Replacement(d.slug, Fence(d), figures) + Splice(header, after, false, figures)
  {
    var s := Fence(d) + after;
    var body := d.source + "\n```" + after;
    assert s == Header(d) + ("\n" + body);
    FenceOpens(header, d, body);
    CloseFound(d.source, after);
    SpliceAtHeader(header, s, d.slug, body, after, figures);
    assert s[..|s| - |after|] == Fence(d);
  }

  // ─── Whole reports ──────────────────────────────────────────────────────────

  /** A fence and the prose that follows it. */
  datatype Section = Section(diagram: Diagram, prose: string)

  function Report(sections: seq<Section>): string {
    if sections == [] then "" else Fence(sections[0].diagram) + sections[0].prose + Report(sections[1..])
  }

  function Spliced(sections: seq<Section>, figures: map<string, string>): string {
    if sections == [] then ""
    else Replacement(sections[0].diagram.slug, Fence(sections[0].diagram), figures)
         + sections[0].prose + Spliced(sections[1..], figures)
  }

  /** A fence as it is printed, and prose without header lines, each on lines of its own. */
  predicate SectionOk(header: Recogniser, s: Section, last: bool) {
    && Printable(s.diagram)
    && NoHeader(header, s.prose, false)
    && (s.prose != "" ==> IsTerminator(s.prose[0]))
    && (last || EndsLine(s.prose))
  }

  predicate WellFormed(header: Recogniser, sections: seq<Section>) {
    sections == [] || (SectionOk(header, sections[0], |sections| == 1) && WellFormed(header, sections[1..]))
  }

  ghost predicate ReadsHeaders(header: Recogniser) {
    forall d: Diagram | IsSlug(d.slug) :: Reads(header, d)
  }

  lemma {:induction false} SectionsSpliced(header: Recogniser, sections: seq<Section>, figures: map<string, string>)
    requires WellFormed(header, sections) && ReadsHeaders(header)
    ensures Splice(header, Report(sections), true, figures) == Spliced(sections, figures)
  {
    if sections != [] {
      var d, prose, rest := sections[0].diagram, sections[0].prose, Report(sections[1..]);
      SectionsSpliced(header, sections[1..], figures);
      FirstSpliced(header, d, prose, rest, |sections| == 1, figures);
      Regroup(Fence(d), prose, rest);
    }
  }

  lemma FirstSpliced(header: Recogniser, d: Diagram, prose: string, rest: string, last: bool, figures: map<string, string>)
    requires Printable(d) && Reads(header, d) && NoHeader(header, prose, false) && (prose != "" ==> IsTerminator(prose[0]))
    requires if last then rest == "" else EndsLine(prose)
    ensures Splice(header, Fence(d) + (prose + rest), true, figures)
            == Replacement(d.slug, Fence(d), figures) + prose + Splice(header, rest, true, figures)
  {
    FenceReplaced(header, d, prose + rest, figures);
    Regroup(Replacement(d.slug, Fence(d), figures), prose, Splice(header, rest, true, figures));
    if last {
      assert prose + rest == prose;
      LastProseCopied(header, prose, false, figures);
    } else {
      ProseCopied(header, prose, rest, false, figures);
    }
  }

  /** Splicing a report replaces exactly the printed fences, each by its own figure, and leaves
      every other character alone; a fence without a diagram stays as it is. */
  lemma RoundTrip(opening: string, sections: seq<Section>, figures: map<string, string>)
    requires WellFormed(HeaderSlug, sections) && NoHeader(HeaderSlug, opening, true)
    requires opening != "" && sections != [] ==> EndsLine(opening)
    ensures Splice(HeaderSlug, opening + Report(sections), true, figures) == opening + Spliced(sections, figures)
  {
    forall d: Diagram | IsSlug(d.slug) ensures Reads(HeaderSlug, d) {
      HeaderRead(d);
    }
    SectionsSpliced(HeaderSlug, sections, figures);
    if sections == [] {
      assert opening + Report(sections) == opening;
      LastProseCopied(HeaderSlug, opening, true, figures);
    } else if opening == "" {
      assert opening + Report(sections) == Report(sections);
    } else {
      ProseCopied(HeaderSlug, opening, Report(sections), true, figures);
    }
  }

  /** With distinct slugs every printed fence becomes the figure of its own diagram. */
  lemma InlineRoundTrip(opening: string, sections: seq<Section>, diagrams: seq<Diagram>)
    requires WellFormed(HeaderSlug, sections) && NoHeader(HeaderSlug, opening, true)
    requires opening != "" && sections != [] ==> EndsLine(opening)
    requires forall i, j | 0 <= i < j < |diagrams| :: diagrams[i].slug != diagrams[j].slug
    requires forall i | 0 <= i < |sections| :: sections[i].diagram in diagrams
    ensures InlineDiagrams(opening + Report(sections), diagrams) == opening + Illustrated(sections)
  {
    RoundTrip(opening, sections, Figures(diagrams));
    AllIllustrated(sections, diagrams);
  }

  function Illustrated(sections: seq<Section>): string {
    if sections == [] then ""
    else Figure(sections[0].diagram.slug, sections[0].diagram) + sections[0].prose + Illustrated(sections[1..])
  }

  lemma {:induction false} AllIllustrated(sections: seq<Section>, diagrams: seq<Diagram>)
    requires forall i, j | 0 <= i < j < |diagrams| :: diagrams[i].slug != diagrams[j].slug
    requires forall i | 0 <= i < |sections| :: sections[i].diagram in diagrams
    ensures Spliced(sections, Figures(diagrams)) == Illustrated(sections)
  {
    if sections != [] {
      AllIllustrated(sections[1..], diagrams);
      BySlugIs(diagrams, sections[0].diagram);
    }
  }

  lemma {:induction false} BySlugIs(diagrams: seq<Diagram>, d: Diagram)
    requires d in diagrams && forall i, j | 0 <= i < j < |diagrams| :: diagrams[i].slug != diagrams[j].slug
    ensures d.slug in BySlug(diagrams) && BySlug(diagrams)[d.slug] == d
  {
    var n := |diagrams| - 1;
    if d != diagrams[n] {
      assert d in diagrams[..n];
      BySlugIs(diagrams[..n], d);
    }
  }

  // ─── What a header is, and what a figure shows ──────────────────────────────

  /** Blanks, at least one, then the slug, then blanks. */
  ghost predicate SlugBetween(s: string, slug: string, before: string, behind: string) {
    s == before + slug + behind && Blanks(before) && before != "" && IsSlug(slug) && Blanks(behind)
  }

  lemma {:induction false} SlugTaken(slug: string, rest: string)
    requires (forall c | c in slug :: SlugChar(c)) && (rest == "" || !SlugChar(rest[0]))
    ensures SkipSlug(slug + rest) == rest
  {
    if slug == "" {
      assert slug + rest == rest;
    } else {
      assert slug[0] in slug;
      assert (slug + rest)[1..] == slug[1..] + rest;
      SlugTaken(slug[1..], rest);
    }
  }

  lemma {:induction false} SlugLeft(s: string)
    ensures |SkipSlug(s)| <= |s| && s[|s| - |SkipSlug(s)|..] == SkipSlug(s)
    ensures forall c | c in s[..|s| - |SkipSlug(s)|] :: SlugChar(c)
  {
    if s != "" && SlugChar(s[0]) {
      SlugLeft(s[1..]);
      var n := |s| - |SkipSlug(s)|;
      assert s[..n] == [s[0]] + s[1..][..n - 1];
    }
  }

  lemma {:induction false} BlanksLeft(s: string)
    ensures |SkipBlanks(s)| <= |s| && s[|s| - |SkipBlanks(s)|..] == SkipBlanks(s)
    ensures Blanks(s[..|s| - |SkipBlanks(s)|])
  {
    if s != "" && IsBlank(s[0]) {
      BlanksLeft(s[1..]);
      var n := |s| - |SkipBlanks(s)|;
      assert s[..n] == [s[0]] + s[1..][..n - 1];
    }
  }

  /** What follows the kind in a header line: exactly a slug between blanks. */
  lemma SlugAfterIs(s: string, slug: string)
    ensures SlugAfter(s) == Some(slug) <==> exists before, behind :: SlugBetween(s, slug, before, behind)
  {
    if SlugAfter(s) == Some(slug) { SlugFoundIn(s, slug); }
    if before, behind :| SlugBetween(s, slug, before, behind) { SlugRead(s, slug, before, behind); }
  }

  lemma SlugFoundIn(s: string, slug: string)
    requires SlugAfter(s) == Some(slug)
    ensures exists before, behind :: SlugBetween(s, slug, before, behind)
  {
    var t := SkipBlanks(s);
    var u := SkipSlug(t);
    BlanksLeft(s);
    SlugLeft(t);
    BlanksLeft(u);
    Whole(u);
    ThreeParts(s, t, u);
    assert SlugBetween(s, slug, s[..|s| - |t|], u);
  }

  lemma ThreeParts(s: string, t: string, u: string)
    requires |u| <= |t| <= |s| && s[|s| - |t|..] == t && t[|t| - |u|..] == u
    ensures s == s[..|s| - |t|] + t[..|t| - |u|] + u
  {
    assert t == t[..|t| - |u|] + u;
    assert s == s[..|s| - |t|] + t;
  }

  lemma SlugRead(s: string, slug: string, before: string, behind: string)
    requires SlugBetween(s, slug, before, behind)
    ensures SlugAfter(s) == Some(slug)
  {
    assert slug[0] in slug;
    assert s == before + (slug + behind);
    SkipAllBlanks(before);
    SkipBlanksAppend(before, slug + behind);
    assert "" + (slug + behind) == slug + behind;
    if behind != "" { assert behind[0] in behind; }
    SlugTaken(slug, behind);
    SkipAllBlanks(behind);
    assert (slug + behind)[..|slug|] == slug;
  }

  ghost predicate IsHeader(line: string, kind: Kind, slug: string) {
    var mark := "```" + KindText(kind);
    mark <= line && exists before, behind :: SlugBetween(line[|mark|..], slug, before, behind)
  }

  /** The scanner takes for headers exactly the lines made of a mark, blanks and a slug. */
  lemma HeaderIs(line: string, slug: string)
    ensures HeaderSlug(line) == Some(slug) <==> IsHeader(line, D2, slug) || IsHeader(line, Chart, slug)
  {
    assert "```" + KindText(D2) == "```d2" && "```" + KindText(Chart) == "```chart";
    if "```d2" <= line {
      SlugAfterIs(line[5..], slug);
      assert line[3] == 'd';
    } else if "```chart" <= line {
      SlugAfterIs(line[8..], slug);
    }
  }

  /** What a browser makes of an escaped text. */
  function Unescape(s: string): string {
    if s == "" then ""
    else if "&amp;" <= s then "&" + Unescape(s[5..])
    else if "&lt;" <= s then "<" + Unescape(s[4..])
    else if "&gt;" <= s then ">" + Unescape(s[4..])
    else if "&quot;" <= s then "\"" + Unescape(s[6..])
    else [s[0]] + Unescape(s[1..])
  }

  /** An escaped text shows as it was, and holds nothing that could open or close a tag. */
  lemma {:induction false} EscapeRoundTrip(s: string)
    ensures Unescape(Escape(s)) == s
    ensures forall c | c in Escape(s) :: c != '<' && c != '>' && c != '"'
  {
    if s != "" {
      var rest := Escape(s[1..]);
      EscapeRoundTrip(s[1..]);
      CharUnescaped(s[0], rest);
    }
  }

  lemma CharUnescaped(c: char, rest: string)
    ensures Unescape(EscapeChar(c) + rest) == [c] + Unescape(rest)
    ensures forall d | d in EscapeChar(c) :: d != '<' && d != '>' && d != '"'
  {
    var s := EscapeChar(c) + rest;
    if c == '&' {
      assert s[5..] == rest;
    } else if c == '<' {
      assert s[1] == 'l' && s[4..] == rest;
    } else if c == '>' {
      assert s[1] == 'g' && s[4..] == rest;
    } else if c == '"' {
      assert s[1] == 'q' && s[6..] == rest;
    } else {
      assert s[0] == c && s[1..] == rest;
    }
  }

  // What can be read off a figure.

  const FIGURE_END := CAPTION_CLOSE + ("\n" + FIGURE_CLOSE)

  function SlugIn(figure: string): string
    requires |FIGURE_OPEN| <= |figure|
  {
    Untilled(figure[|FIGURE_OPEN|..], '"')
  }

  /** The figure without its last two tags. */
  function Inside(figure: string): string
    requires |FIGURE_END| <= |figure|
  {
    figure[..|figure| - |FIGURE_END|]
  }

  function TitleIn(figure: string): string
    requires |FIGURE_END| <= |figure|
  {
    Unescape(BehindLast(Inside(figure), '>'))
  }

  /** What stands between the first line and the caption. */
  function SvgIn(figure: string): string
    requires |FIGURE_END| <= |figure|
  {
    var above := |Inside(figure)| - |BehindLast(Inside(figure), '>')| - |CAPTION_OPEN| - 1;
    if above < 0 then "" else Behind(Inside(figure)[..above], '\n')
  }

  lemma Reassembled(open: string, slug: string, end: string, svg: string, tag: string, caption: string, close: string, last: string)
    ensures var figure := open + slug + end + "\n" + svg + "\n" + (tag + caption + close) + "\n" + last;
            && figure == open + (slug + (end + "\n" + svg + "\n" + (tag + caption + close) + "\n" + last))
            && figure == (open + slug + end) + "\n" + svg + ("\n" + tag) + caption + (close + ("\n" + last))
  {
  }

  lemma FigureParts(slug: string, d: Diagram)
    ensures
      var top, caption := FIGURE_OPEN + slug + "\">", Escape(d.title);
      && |FIGURE_OPEN| + |FIGURE_END| <= |Figure(slug, d)|
      && Figure(slug, d) == top + "\n" + Normalize(d.svg) + ("\n" + CAPTION_OPEN) + caption + FIGURE_END
      && Inside(Figure(slug, d)) == top + "\n" + Normalize(d.svg) + ("\n" + CAPTION_OPEN) + caption
  {
    Reassembled(FIGURE_OPEN, slug, "\">", Normalize(d.svg), CAPTION_OPEN, Escape(d.title), CAPTION_CLOSE, FIGURE_CLOSE);
  }

  lemma SlugReads(open: string, slug: string, rest: string)
    requires '"' !in slug
    ensures Untilled((open + slug + ("\"" + rest))[|open|..], '"') == slug
  {
    assert (open + slug + ("\"" + rest))[|open|..] == slug + "\"" + rest;
    UpTo(slug, '"', rest);
  }

  /** The caption is what stands behind the last bracket, and the svg between the first line
      and the tag before it. */
  lemma InsideReads(top: string, svg: string, tag: string, caption: string)
    requires '\n' !in top && '>' !in caption && tag != "" && tag[|tag| - 1] == '>'
    ensures
      var inside := top + "\n" + svg + ("\n" + tag) + caption;
      var above := |inside| - |caption| - |tag| - 1;
      && BehindLast(inside, '>') == caption
      && above >= 0 && Behind(inside[..above], '\n') == svg
  {
    var before := top + "\n" + svg + ("\n" + tag[..|tag| - 1]);
    var inside := top + "\n" + svg + ("\n" + tag) + caption;
    assert inside == before + [tag[|tag| - 1]] + caption;
    Last(before, '>', caption);
    assert inside[..|inside| - |caption| - |tag| - 1] == top + "\n" + svg;
    UpTo(top, '\n', svg);
  }

  /** A figure shows the slug, the title and the svg it was made with, whatever they hold. */
  lemma FigureReads(slug: string, d: Diagram)
    requires IsSlug(slug)
    ensures |FIGURE_OPEN| + |FIGURE_END| <= |Figure(slug, d)|
    ensures SlugIn(Figure(slug, d)) == slug
    ensures TitleIn(Figure(slug, d)) == d.title
    ensures SvgIn(Figure(slug, d)) == Normalize(d.svg)
  {
    var top := FIGURE_OPEN + slug + "\">";
    Tags();
    FigureParts(slug, d);
    assert '"' !in slug && '\n' !in slug;
    assert '\n' !in top;
    EscapeRoundTrip(d.title);
    InsideReads(top, Normalize(d.svg), CAPTION_OPEN, Escape(d.title));
    FigureSlug(slug, d);
  }

  lemma FigureSlug(slug: string, d: Diagram)
    requires IsSlug(slug)
    ensures |FIGURE_OPEN| <= |Figure(slug, d)| && SlugIn(Figure(slug, d)) == slug
  {
    var rest := ">" + "\n" + Normalize(d.svg) + ("\n" + CAPTION_OPEN) + Escape(d.title) + FIGURE_END;
    FigureParts(slug, d);
    assert '"' !in slug;
    SlugThen(FIGURE_OPEN, slug, Normalize(d.svg), "\n" + CAPTION_OPEN, Escape(d.title), FIGURE_END);
    SlugReads(FIGURE_OPEN, slug, rest);
  }

  lemma SlugThen(open: string, slug: string, svg: string, tag: string, caption: string, end: string)
    ensures (open + slug + "\">") + "\n" + svg + tag + caption + end
            == open + slug + ("\"" + (">" + "\n" + svg + tag + caption + end))
  {
  }

  // ─── The slugs of a report ──────────────────────────────────────────────────

  const FLOW_SLUG := "request-flow-"

  /** The diagrams drawn for a report with that many request flows, in order. */
  function Slugs(flows: nat): seq<string> {
    ["system-flow", "architecture-modules"] + FlowSlugs(flows)
    + ["security-auth-flow", "dependency-graph", "quality-donut", "health-gauge"]
  }

  function FlowSlugs(flows: nat): (r: seq<string>)
    ensures |r| == flows && forall i | 0 <= i < flows :: r[i] == FLOW_SLUG + ToDecimal(i + 1)
  {
    seq(flows, i requires 0 <= i < flows => FLOW_SLUG + ToDecimal(i + 1))
  }

  lemma FlowSlugIs(n: nat)
    ensures IsSlug(FLOW_SLUG + ToDecimal(n))
  {
    forall c | c in ToDecimal(n) ensures SlugChar(c) { DigitIsSlugChar(c); }
    FlowSlugStart();
    assert forall c | c in FLOW_SLUG + ToDecimal(n) :: c in FLOW_SLUG || c in ToDecimal(n);
  }

  lemma FlowSlugStart()
    ensures IsSlug(FLOW_SLUG)
  {
  }

  lemma DigitIsSlugChar(c: char)
    requires IsDigit(c)
    ensures SlugChar(c)
  {
    var i :| 0 <= i < |DIGITS| && DIGITS[i] == c;
  }

  lemma DiagramSlugs()
    ensures IsSlug("system-flow") && IsSlug("architecture-modules") && IsSlug("security-auth-flow")
  {
  }

  lemma ChartSlugs()
    ensures IsSlug("dependency-graph") && IsSlug("quality-donut") && IsSlug("health-gauge")
  {
  }

  /** All of them can be printed as fences, and none is used twice. */
  lemma SlugsAre(flows: nat)
    ensures forall s | s in Slugs(flows) :: IsSlug(s)
    ensures forall i, j | 0 <= i < j < |Slugs(flows)| :: Slugs(flows)[i] != Slugs(flows)[j]
  {
    var slugs := Slugs(flows);
    DiagramSlugs();
    ChartSlugs();
    forall i | 0 <= i < flows ensures IsSlug(FlowSlugs(flows)[i]) { FlowSlugIs(i + 1); }
    forall i, j | 0 <= i < j < |slugs| ensures slugs[i] != slugs[j] {
      if 2 <= i && j < 2 + flows {
        SlugsDiffer(i - 1, j - 1);
      } else {
        SlugStart(flows, i);
        SlugStart(flows, j);
      }
    }
  }

  /** The flows start with an r, and the others differ in length. */
  lemma SlugStart(flows: nat, i: nat)
    requires i < |Slugs(flows)|
    ensures var s := Slugs(flows)[i];
            if 2 <= i < 2 + flows then s != "" && s[0] == 'r'
            else s != "" && s[0] != 'r'
                 && |s| == if i == 0 then 11 else if i == 1 then 20 else if i == 2 + flows then 18
                           else if i == 3 + flows then 16 else if i == 4 + flows then 13 else 12
  {
    if 2 <= i < 2 + flows { assert Slugs(flows)[i] == FlowSlugs(flows)[i - 2]; }
  }

  lemma SlugsDiffer(m: nat, n: nat)
    requires m != n
    ensures FLOW_SLUG + ToDecimal(m) != FLOW_SLUG + ToDecimal(n)
  {
    assert (FLOW_SLUG + ToDecimal(m))[|FLOW_SLUG|..] == ToDecimal(m) && (FLOW_SLUG + ToDecimal(n))[|FLOW_SLUG|..] == ToDecimal(n);
    if ToDecimal(m) == ToDecimal(n) { ToDecimalInjective(m, n); }
  }

  // ─── Figures survive as raw HTML ────────────────────────────────────────────

  predicate Solid(c: char) { !IsBlank(c) && c != '\n' }

  lemma {:induction false} SkipToSolid(a: string, b: string)
    requires a != "" && Solid(a[|a| - 1])
    ensures SkipBlanks(a) != "" && SkipBlanks(a + b) == SkipBlanks(a) + b
  {
    if IsBlank(a[0]) {
      assert (a + b)[1..] == a[1..] + b;
      SkipToSolid(a[1..], b);
    }
  }

  /** Nothing blank comes about where a text that ends solidly is followed by another. */
  lemma {:induction false} AfterSolid(a: string, b: string)
    requires a != "" && Solid(a[|a| - 1])
    ensures NoBlankLine(a + b) <==> NoBlankLine(a) && NoBlankLine(b)
  {
    assert (a + b)[1..] == a[1..] + b;
    if |a| == 1 {
      assert a[1..] + b == b;
      assert NoBlankLine(a) by { assert a[1..] == ""; }
    } else {
      AfterSolid(a[1..], b);
      SkipToSolid(a[1..], b);
    }
  }

  lemma {:induction false} SkipBeforeSolid(a: string, b: string)
    requires b != "" && Solid(b[0])
    ensures SkipBlanks(a + b) == SkipBlanks(a) + b
  {
    if a == "" {
      assert a + b == b;
    } else if IsBlank(a[0]) {
      assert (a + b)[1..] == a[1..] + b;
      SkipBeforeSolid(a[1..], b);
    }
  }

  /** Nor where a text is followed by one that starts solidly. */
  lemma {:induction false} BeforeSolid(a: string, b: string)
    requires b != "" && Solid(b[0])
    ensures NoBlankLine(a + b) <==> NoBlankLine(a) && NoBlankLine(b)
  {
    if a == "" {
      assert a + b == b;
    } else {
      assert (a + b)[1..] == a[1..] + b;
      BeforeSolid(a[1..], b);
      SkipBeforeSolid(a[1..], b);
    }
  }

  lemma {:induction false} WithoutNewline(s: string)
    requires '\n' !in s
    ensures NoBlankLine(s)
  {
    if s != "" { WithoutNewline(s[1..]); }
  }

  /** One more line after a solid end: blank only if the line is empty. */
  lemma NextLine(above: string, line: string)
    requires above != "" && Solid(above[|above| - 1]) && line != "" && Solid(line[0])
    ensures NoBlankLine(above + "\n" + line) <==> NoBlankLine(above) && NoBlankLine(line)
  {
    BeforeSolid(above + "\n", line);
    AfterSolid(above, "\n");
    WithoutNewlineBut("\n");
  }

  lemma WithoutNewlineBut(s: string)
    requires s == "\n"
    ensures NoBlankLine(s)
  {
    assert s[1..] == "";
  }

  lemma {:induction false} EscapeKeepsLines(s: string)
    ensures NoBlankLine(Escape(s)) <==> NoBlankLine(s)
    ensures SkipBlanks(Escape(s)) == Escape(SkipBlanks(s))
  {
    if s != "" {
      EscapeKeepsLines(s[1..]);
      if EscapeChar(s[0]) == [s[0]] {
        assert Escape(s)[1..] == Escape(s[1..]);
        EscapeFirst(SkipBlanks(s[1..]));
      } else {
        assert '\n' !in EscapeChar(s[0]);
        WithoutNewline(EscapeChar(s[0]));
        AfterSolid(EscapeChar(s[0]), Escape(s[1..]));
      }
    }
  }

  lemma EscapeFirst(s: string)
    ensures Escape(s) == "" <==> s == ""
    ensures s != "" ==> (Escape(s)[0] == '\n' <==> s[0] == '\n')
  {
  }

  /** A tag: one line, solid at both ends. */
  predicate Tag(s: string) { s != "" && Solid(s[0]) && Solid(s[|s| - 1]) && '\n' !in s }

  lemma Tags()
    ensures Tag(FIGURE_OPEN) && Tag("\">")
    ensures Tag(CAPTION_OPEN) && Tag(CAPTION_CLOSE)
    ensures Tag(FIGURE_CLOSE)
  {
  }

  lemma Tagged(before: string, text: string, after: string)
    requires Tag(before) && Tag(after)
    ensures NoBlankLine(before + text + after) <==> NoBlankLine(text)
    ensures var s := before + text + after; s != "" && Solid(s[0]) && Solid(s[|s| - 1])
  {
    WithoutNewline(before);
    WithoutNewline(after);
    AfterSolid(before, text);
    BeforeSolid(before + text, after);
  }

  /** A figure holds no blank line, which would end its HTML block, exactly when something is
      left of its svg and its title holds none. */
  lemma FigureStaysWhole(slug: string, d: Diagram)
    requires IsSlug(slug)
    ensures NoBlankLine(Figure(slug, d)) <==> Normalize(d.svg) != "" && NoBlankLine(d.title)
  {
    Tags();
    forall c | c in slug ensures c != '\n' { }
    WithoutNewline(slug);
    Tagged(FIGURE_OPEN, slug, "\">");
    Tagged(CAPTION_OPEN, Escape(d.title), CAPTION_CLOSE);
    EscapeKeepsLines(d.title);
    WithoutNewline(FIGURE_CLOSE);
    NormalizeIs(d.svg);
    FourLines(FIGURE_OPEN + slug + "\">", Normalize(d.svg), CAPTION_OPEN + Escape(d.title) + CAPTION_CLOSE, FIGURE_CLOSE);
  }

  lemma FourLines(a: string, b: string, c: string, d: string)
    requires a != "" && c != "" && d != ""
    requires Solid(a[|a| - 1]) && Solid(c[0]) && Solid(c[|c| - 1]) && Solid(d[0])
    requires Trimmed(b) && NoBlankLine(a) && NoBlankLine(b) && NoBlankLine(d)
    ensures NoBlankLine(a + "\n" + b + "\n" + c + "\n" + d) <==> b != "" && NoBlankLine(c)
  {
    if b != "" {
      ThreeLines(a, b, c, d);
    } else {
      EmptyMiddle(a, c, d);
      assert a + "\n" + b == a + "\n";
    }
  }

  lemma ThreeLines(a: string, b: string, c: string, d: string)
    requires a != "" && b != "" && c != "" && d != ""
    requires Solid(a[|a| - 1]) && Solid(b[0]) && Solid(b[|b| - 1]) && Solid(c[0]) && Solid(c[|c| - 1]) && Solid(d[0])
    ensures NoBlankLine(a + "\n" + b + "\n" + c + "\n" + d)
            <==> NoBlankLine(a) && NoBlankLine(b) && NoBlankLine(c) && NoBlankLine(d)
  {
    NextLine(a, b);
    NextLine(a + "\n" + b, c);
    NextLine(a + "\n" + b + "\n" + c, d);
  }

  lemma EmptyMiddle(a: string, c: string, d: string)
    requires a != "" && Solid(a[|a| - 1]) && c != "" && Solid(c[0]) && Solid(c[|c| - 1]) && d != "" && Solid(d[0])
    ensures !NoBlankLine(a + "\n" + "\n" + c + "\n" + d)
  {
    NextLine(a + "\n" + "\n" + c, d);
    BeforeSolid(a + "\n" + "\n", c);
    AfterSolid(a, "\n" + "\n");
    assert a + "\n" + "\n" == a + ("\n" + "\n");
    var gap := "\n" + "\n";
    assert gap[1..] == "\n" && SkipBlanks(gap[1..]) == "\n";
    assert BlankLineAt(gap);
  }

  // ─── Printed diagrams fit a fence ───────────────────────────────────────────

  /** No line but the first starts with a backquote, and the last is not empty. */
  predicate NoTick(s: string) {
    s == "" || ((s[0] == '\n' ==> |s| > 1 && s[1] != '`') && NoTick(s[1..]))
  }

  lemma ClosingStart(t: string)
    ensures ClosesHere(t) ==> |t| > 1 && t[0] == '\n' && t[1] == '`'
  {
  }

  lemma {:induction false} NoTickNoClosing(s: string)
    requires NoTick(s)
    ensures NoClosingLine(s)
  {
    if s != "" {
      NoTickNoClosing(s[1..]);
      var t := s + "\n";
      assert t[0] == s[0] && (|s| > 1 ==> t[1] == s[1]);
      ClosingStart(t);
    }
  }

  lemma {:induction false} NoTickLine(line: string, rest: string)
    requires OneLine(line) && NoTick(rest)
    ensures NoTick(line + rest)
  {
    if line == "" {
      assert line + rest == rest;
    } else {
      assert line[0] in line;
      assert (line + rest)[1..] == line[1..] + rest;
      NoTickLine(line[1..], rest);
    }
  }

  predicate PlainLine(l: string) { OneLine(l) && l != "" && l[0] != '`' }

  lemma {:induction false} JoinPlain(lines: seq<string>)
    requires forall l | l in lines :: PlainLine(l)
    ensures NoTick(Join(lines, "\n")) && (lines != [] ==> Join(lines, "\n") != "" && Join(lines, "\n")[0] != '`')
  {
    if lines != [] {
      assert PlainLine(lines[0]);
      if |lines| == 1 {
        NoTickLine(lines[0], "");
        assert lines[0] + "" == lines[0];
      } else {
        JoinPlain(lines[1..]);
        var rest := "\n" + Join(lines[1..], "\n");
        assert rest[1..] == Join(lines[1..], "\n");
        NoTickLine(lines[0], rest);
        assert lines[0] + rest == Join(lines, "\n");
      }
    }
  }

  lemma StartsPlain(item: Item)
    requires Lexical(item)
    ensures forall l | l in Lines(item) :: l != "" && l[0] != '`'
  {
    match item
    case Node(nested, id, caption, None) => assert IdentStart(id[0]);
    case Node(nested, id, caption, Some(tone)) => StyledStartsPlain(nested, id, caption, tone);
    case Open(id, title) => assert IdentStart(id[0]);
    case Close =>
    case Edge(from, to, caption) => assert IdentStart(from[0]);
    case Back(from, to, caption) => assert IdentStart(from[0]);
    case Fixed(line) => FixedStartsPlain(line);
  }

  lemma StyledStartsPlain(nested: bool, id: string, caption: string, tone: Tone)
    requires IsIdent(id)
    ensures forall l | l in Lines(Node(nested, id, caption, Some(tone))) :: l != "" && l[0] != '`'
  {
    assert IdentStart(id[0]);
    var indent := Indent(nested);
    assert indent == "" || indent[0] == ' ';
    assert forall l | l in StyleBlock(indent, Palette(tone)) :: l != "" && l[0] != '`';
  }

  lemma FixedStartsPlain(line: FixedLine)
    ensures var (indent, word, rest) := FixedText(line); indent + word + rest != "" && (indent + word + rest)[0] != '`'
  {
  }

  lemma {:induction false} AllPlain(items: seq<Item>)
    requires forall item | item in items :: Lexical(item)
    ensures forall l | l in AllLines(items) :: PlainLine(l)
  {
    if items != [] {
      ItemCounts(items[0]);
      StartsPlain(items[0]);
      AllPlain(items[1..]);
    }
  }

  /** So any diagram a builder prints can be fenced under any slug. */
  lemma BuilderSourcesFit(items: seq<Item>, slug: string, title: string, svg: string)
    requires (forall item | item in items :: Lexical(item)) && IsSlug(slug)
    ensures Printable(Diagram(slug, title, D2, Print(items), svg))
  {
    AllPlain(items);
    JoinPlain(AllLines(items));
    NoTickNoClosing(Print(items));
  }
}
