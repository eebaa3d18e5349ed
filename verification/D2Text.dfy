/**
 The text of a D2 diagram: what the printer emits for each item, and what the node counter
 reads back from the printed source.
 */
module D2Text {
  import opened Common
  import opened Seqs
  import opened Words

  // ─── Characters ─────────────────────────────────────────────────────────────

  /** The line terminators of JavaScript, where ^ matches in a multi-line pattern. */
  predicate IsTerminator(c: char) { c == '\n' || c == '\r' || c == '\U{2028}' || c == '\U{2029}' }

  predicate IsBlank(c: char) { c == ' ' || c == '\t' }

  predicate IsControl(c: char) { c <= '\U{001F}' || c == '\U{007F}' }

  /** White space in a JavaScript pattern. */
  predicate IsSpace(c: char) {
    || IsTerminator(c) || IsBlank(c) || c == '\U{000B}' || c == '\U{000C}' || c == '\U{00A0}' || c == '\U{1680}'
    || '\U{2000}' <= c <= '\U{200A}' || c == '\U{202F}' || c == '\U{205F}' || c == '\U{3000}' || c == '\U{FEFF}'
  }

  predicate IdentStart(c: char) { 'A' <= c <= 'Z' || 'a' <= c <= 'z' || c == '_' }

  predicate IdentChar(c: char) { IdentStart(c) || '0' <= c <= '9' }

  predicate OneLine(s: string) { forall c | c in s :: !IsTerminator(c) }

  /** Text that stays between its quotes. */
  predicate Quotable(s: string) { OneLine(s) && '"' !in s }

  predicate Blanks(s: string) { forall c | c in s :: IsBlank(c) }

  predicate IsIdent(s: string) { s != "" && IdentStart(s[0]) && forall c | c in s :: IdentChar(c) }

  // ─── Labels ─────────────────────────────────────────────────────────────────

  const MAX_LABEL := 48

  /** Control characters become spaces; quotes and backslashes go. */
  function Scrub(s: string): (r: string)
    ensures forall c | c in r :: !IsControl(c) && c != '"' && c != '\\'
  {
    if s == "" then ""
    else (if IsControl(s[0]) then " " else if s[0] == '"' || s[0] == '\\' then "" else [s[0]]) + Scrub(s[1..])
  }

  function TrimStart(s: string): string { DropStart(s, IsSpace) }

  function TrimEnd(s: string): string { DropEnd(s, IsSpace) }

  function Ellipsize(s: string): (r: string)
    ensures |r| == if |s| > MAX_LABEL then MAX_LABEL else |s|
    ensures forall c | c in r :: c in s || c == '\U{2026}'
  {
    if |s| > MAX_LABEL then s[..MAX_LABEL - 1] + ['\U{2026}'] else s
  }

  /** Whatever the raw text, a label is one line of 1 to 48 characters that cannot end or escape its quotes. */
  function Label(raw: string): (r: string)
    ensures 1 <= |r| <= MAX_LABEL && OneLine(r)
    ensures forall c | c in r :: c != '"' && c != '\\'
  {
    var cleaned := TrimEnd(TrimStart(Squeeze(Scrub(raw), IsSpace, ' ')));
    if cleaned == "" then "unknown"
    else Ellipsize(cleaned)
  }

  /** A text without the characters that a label cannot show. */
  function Kept(raw: string): string {
    if raw == "" then "" else (if raw[0] == '"' || raw[0] == '\\' then "" else [raw[0]]) + Kept(raw[1..])
  }

  /** What stands between two words. */
  predicate Gap(c: char) { IsControl(c) || IsSpace(c) }

  lemma {:induction false} ScrubbedWords(raw: string)
    ensures WordsOf(Scrub(raw), IsSpace) == WordsOf(Kept(raw), Gap)
    ensures InWord(Scrub(raw), IsSpace) <==> InWord(Kept(raw), Gap)
  {
    if raw != "" {
      var scrubbed, kept := Scrub(raw[1..]), Kept(raw[1..]);
      ScrubbedWords(raw[1..]);
      if raw[0] == '"' || raw[0] == '\\' {
        assert Scrub(raw) == scrubbed && Kept(raw) == kept;
      } else {
        var c := if IsControl(raw[0]) then ' ' else raw[0];
        assert Scrub(raw) == [c] + scrubbed && Kept(raw) == [raw[0]] + kept;
        assert ([c] + scrubbed)[1..] == scrubbed && ([raw[0]] + kept)[1..] == kept;
        assert IsSpace(c) <==> Gap(raw[0]);
      }
    }
  }

  /** A label is the words of its text, one space apart; cut, with a mark, when there are too
      many of them; and says so when there are none. */
  lemma LabelIs(raw: string)
    ensures
      var text := Join(WordsOf(Kept(raw), Gap), " ");
      Label(raw) == if text == "" then "unknown" else if |text| <= 48 then text else text[..47] + ['\U{2026}']
  {
    ScrubbedWords(raw);
    SqueezedIsWords(Scrub(raw), IsSpace, ' ', IsSpace);
  }

  // ─── Items and their lines ──────────────────────────────────────────────────

  datatype Tone = Entry | Root | Critical | Warning | Ok | Muted

  datatype Style = Style(fill: string, text: string, stroke: string)

  function Palette(t: Tone): Style {
    match t
    case Entry => Style("#0072B2", "#FFFFFF", "#00538A")
    case Root => Style("#0B4F6C", "#FFFFFF", "#073649")
    case Critical => Style("#A63603", "#FFFFFF", "#7A2802")
    case Warning => Style("#E69F00", "#1A1A1A", "#B37B00")
    case Ok => Style("#006D5B", "#FFFFFF", "#00473B")
    case Muted => Style("#767676", "#FFFFFF", "#5A5A5A")
  }

  /** Directives and properties that do not depend on the input. */
  datatype FixedLine = DirectionRight | DirectionDown | SequenceShape | GridColumns | BoxStroke | BoxDash

  /** Split after the first identifier. */
  function FixedText(f: FixedLine): (string, string, string) {
    match f
    case DirectionRight => ("", "direction", ": " + "right")
    case DirectionDown => ("", "direction", ": " + "down")
    case SequenceShape => ("", "shape", ": " + "sequence_diagram")
    case GridColumns => ("  ", "grid", "-columns: 3")
    case BoxStroke => ("  ", "style", ".stroke: \"#A63603\"")
    case BoxDash => ("  ", "style", ".stroke-dash: 3")
  }

  datatype Item =
    | Node(nested: bool, id: string, caption: string, tone: Option<Tone>)
    | Open(id: string, title: string)
    | Close
    | Edge(from: string, to: string, caption: string) // unlabelled when empty
    | Back(from: string, to: string, caption: string) // the dashed return arrow
    | Fixed(line: FixedLine)

  function Indent(nested: bool): string { if nested then "  " else "" }

  /** The end of a dashed edge. */
  const DASHED := "\" { style.stroke-dash: 3 }"

  function StyleLine(indent: string, property: string, value: string): string {
    indent + "  style" + property + ": \"" + value + "\""
  }

  function StyleBlock(indent: string, style: Style): seq<string> {
    [StyleLine(indent, ".fill", style.fill),
     StyleLine(indent, ".font-color", style.text),
     StyleLine(indent, ".stroke", style.stroke),
     indent + "  style.stroke-width: 2",
     indent + "}"]
  }

  function Lines(item: Item): (r: seq<string>)
    ensures r != []
  {
    match item
    case Node(nested, id, caption, None) => [Indent(nested) + id + ": \"" + Label(caption) + "\""]
    case Node(nested, id, caption, Some(tone)) =>
      [Indent(nested) + id + ": \"" + Label(caption) + "\" {"] + StyleBlock(Indent(nested), Palette(tone))
    case Open(id, title) => [id + ": \"" + title + "\" {"]
    case Close => ["}"]
    case Edge(from, to, caption) => [from + " -> " + to + (if caption == "" then "" else ": \"" + Label(caption) + "\"")]
    case Back(from, to, caption) => [from + " -> " + to + (": \"" + caption + DASHED)]
    case Fixed(line) => var (indent, word, rest) := FixedText(line); [indent + word + rest]
  }

  function AllLines(items: seq<Item>): seq<string> {
    if items == [] then [] else Lines(items[0]) + AllLines(items[1..])
  }

  function Print(items: seq<Item>): string { Join(AllLines(items), "\n") }

  /** Identifiers that are identifiers, and container titles and return captions that stay between their quotes. */
  predicate Lexical(item: Item) {
    match item
    case Node(_, id, _, _) => IsIdent(id)
    case Open(id, title) => IsIdent(id) && Quotable(title)
    case Close => true
    case Edge(from, to, _) => IsIdent(from) && IsIdent(to)
    case Back(from, to, caption) => IsIdent(from) && IsIdent(to) && Quotable(caption)
    case Fixed(_) => true
  }

  // ─── The counter ────────────────────────────────────────────────────────────

  function SkipBlanks(s: string): string {
    if s != "" && IsBlank(s[0]) then SkipBlanks(s[1..]) else s
  }

  function SkipIdent(s: string): string {
    if s != "" && IdentChar(s[0]) then SkipIdent(s[1..]) else s
  }

  /** A colon, blanks and an opening quote. */
  predicate Quoted(s: string) {
    s != "" && s[0] == ':' && SkipBlanks(s[1..]) != "" && SkipBlanks(s[1..])[0] == '"'
  }

  /** The pattern matches here: blanks, an identifier, a colon, blanks, a quote. */
  predicate Declares(s: string) {
    var t := SkipBlanks(s);
    t != "" && IdentStart(t[0]) && Quoted(SkipIdent(t))
  }

  /** The matches of the pattern at line starts; none can overlap, since it matches no terminator. */
  function CountFrom(s: string, atStart: bool): nat {
    if s == "" then 0
    else (if atStart && Declares(s) then 1 else 0) + CountFrom(s[1..], IsTerminator(s[0]))
  }

  function CountNodes(source: string): nat { CountFrom(source, true) }

  // ─── Counting line by line ──────────────────────────────────────────────────

  lemma {:induction false} SkipBlanksAppend(s: string, rest: string)
    requires rest == "" || !IsBlank(rest[0])
    ensures SkipBlanks(s + rest) == SkipBlanks(s) + rest
  {
    if s == "" {
      assert s + rest == rest;
    } else if IsBlank(s[0]) {
      assert (s + rest)[1..] == s[1..] + rest;
      SkipBlanksAppend(s[1..], rest);
    }
  }

  lemma {:induction false} SkipIdentAppend(s: string, rest: string)
    requires rest == "" || !IdentChar(rest[0])
    ensures SkipIdent(s + rest) == SkipIdent(s) + rest
  {
    if s == "" {
      assert s + rest == rest;
    } else if IdentChar(s[0]) {
      assert (s + rest)[1..] == s[1..] + rest;
      SkipIdentAppend(s[1..], rest);
    }
  }

  lemma QuotedAppend(s: string, rest: string)
    requires rest == "" || IsTerminator(rest[0])
    ensures Quoted(s + rest) == Quoted(s)
  {
    if s == "" {
      assert s + rest == rest;
    } else {
      assert (s + rest)[1..] == s[1..] + rest;
      SkipBlanksAppend(s[1..], rest);
    }
  }

  /** The pattern never reads past the end of its line. */
  lemma DeclaresAppend(line: string, rest: string)
    requires rest == "" || IsTerminator(rest[0])
    ensures Declares(line + rest) == Declares(line)
  {
    SkipBlanksAppend(line, rest);
    var t := SkipBlanks(line);
    if t != "" {
      SkipIdentAppend(t, rest);
      QuotedAppend(SkipIdent(t), rest);
    }
  }

  lemma {:induction false} CountLine(line: string, rest: string, atStart: bool)
    requires OneLine(line) && (rest == "" || IsTerminator(rest[0]))
    ensures CountFrom(line + rest, atStart) == (if atStart && Declares(line) then 1 else 0) + CountFrom(rest, false)
  {
    DeclaresAppend(line, rest);
    if line == "" {
      assert line + rest == rest;
    } else {
      assert (line + rest)[1..] == line[1..] + rest;
      assert line[0] in line;
      CountLine(line[1..], rest, false);
    }
  }

  function Declaring(lines: seq<string>): nat {
    if lines == [] then 0 else (if Declares(lines[0]) then 1 else 0) + Declaring(lines[1..])
  }

  lemma {:induction false} DeclaringAppend(a: seq<string>, b: seq<string>)
    ensures Declaring(a + b) == Declaring(a) + Declaring(b)
  {
    if a == [] {
      assert a + b == b;
    } else {
      assert (a + b)[1..] == a[1..] + b;
      DeclaringAppend(a[1..], b);
    }
  }

  lemma {:induction false} CountJoin(lines: seq<string>)
    requires forall l | l in lines :: OneLine(l)
    ensures CountNodes(Join(lines, "\n")) == Declaring(lines)
  {
    if lines == [] {
    } else {
      assert lines[0] in lines;
      if |lines| == 1 {
        assert lines[0] + "" == lines[0];
        CountLine(lines[0], "", true);
      } else {
        var rest := "\n" + Join(lines[1..], "\n");
        assert lines[0] + rest == Join(lines, "\n") && rest[1..] == Join(lines[1..], "\n");
        CountLine(lines[0], rest, true);
        CountJoin(lines[1..]);
      }
    }
  }

  // ─── Counting item by item ──────────────────────────────────────────────────

  lemma {:induction false} SkipAllBlanks(s: string)
    requires Blanks(s)
    ensures SkipBlanks(s) == ""
  {
    if s != "" { assert s[0] in s; SkipAllBlanks(s[1..]); }
  }

  lemma {:induction false} SkipAllIdent(s: string)
    requires forall c | c in s :: IdentChar(c)
    ensures SkipIdent(s) == ""
  {
    if s != "" { assert s[0] in s; SkipAllIdent(s[1..]); }
  }

  /** A line that starts with an identifier declares exactly when what follows it is quoted. */
  lemma DeclaresAfterIdent(indent: string, id: string, rest: string)
    requires Blanks(indent) && IsIdent(id) && (rest == "" || !IdentChar(rest[0]))
    ensures Declares(indent + id + rest) == Quoted(rest)
  {
    SkipAllBlanks(indent);
    SkipBlanksAppend(indent, id + rest);
    assert indent + id + rest == indent + (id + rest);
    assert "" + (id + rest) == id + rest;
    SkipAllIdent(id);
    SkipIdentAppend(id, rest);
    assert "" + rest == rest;
  }

  lemma QuotedText(text: string)
    ensures Quoted(": \"" + text)
  {
    var s := ": \"" + text;
    assert s[1..][1..] == "\"" + text;
    assert SkipBlanks(s[1..]) == s[1..][1..];
  }

  lemma OneLineBoth(a: string, b: string)
    ensures OneLine(a + b) <==> OneLine(a) && OneLine(b)
  {
    assert forall c :: c in a + b <==> c in a || c in b;
  }

  lemma QuotableBoth(a: string, b: string)
    ensures Quotable(a + b) <==> Quotable(a) && Quotable(b)
  {
    OneLineBoth(a, b);
    assert forall c :: c in a + b <==> c in a || c in b;
  }

  lemma IdentOneLine(id: string)
    requires IsIdent(id)
    ensures OneLine(id)
  {
  }

  lemma OneDeclares(line: string, indent: string, id: string, rest: string)
    requires line == indent + id + rest && Blanks(indent) && IsIdent(id) && OneLine(rest)
    requires rest == "" || !IdentChar(rest[0])
    ensures Declares(line) == Quoted(rest) && OneLine(line)
    ensures Declaring([line]) == if Quoted(rest) then 1 else 0
  {
    DeclaresAfterIdent(indent, id, rest);
    assert [line][1..] == [];
  }

  lemma ArrowOneLine(to: string, tail: string)
    requires IsIdent(to) && OneLine(tail)
    ensures OneLine(" -> " + (to + tail))
  {
    IdentOneLine(to);
    OneLineBoth(to, tail);
    OneLineBoth(" -> ", to + tail);
  }

  lemma ArrowCounts(from: string, to: string, tail: string)
    requires IsIdent(from) && IsIdent(to) && OneLine(tail)
    ensures OneLine(from + " -> " + to + tail) && Declaring([from + " -> " + to + tail]) == 0
  {
    ArrowOneLine(to, tail);
    var line := from + " -> " + to + tail;
    assert line == "" + from + (" -> " + (to + tail));
    OneDeclares(line, "", from, " -> " + (to + tail));
  }

  lemma EdgeCounts(from: string, to: string, caption: string)
    requires IsIdent(from) && IsIdent(to)
    ensures OneLine(Lines(Edge(from, to, caption))[0]) && Declaring(Lines(Edge(from, to, caption))) == 0
  {
    var tail := if caption == "" then "" else ": \"" + Label(caption) + "\"";
    OneLineBoth(": \"" + Label(caption), "\"");
    OneLineBoth(": \"", Label(caption));
    ArrowCounts(from, to, tail);
  }

  lemma BackCounts(from: string, to: string, caption: string)
    requires IsIdent(from) && IsIdent(to) && OneLine(caption)
    ensures OneLine(Lines(Back(from, to, caption))[0]) && Declaring(Lines(Back(from, to, caption))) == 0
  {
    OneLineBoth(": \"" + caption, DASHED);
    OneLineBoth(": \"", caption);
    ArrowCounts(from, to, ": \"" + caption + DASHED);
  }

  lemma OpenCounts(id: string, title: string)
    requires Lexical(Open(id, title))
    ensures OneLine(Lines(Open(id, title))[0]) && Declaring(Lines(Open(id, title))) == 1
  {
    var rest := ": \"" + (title + "\" {");
    QuotedText(title + "\" {");
    assert Lines(Open(id, title))[0] == "" + id + rest;
    OneDeclares(Lines(Open(id, title))[0], "", id, rest);
  }

  /** An item declares one node if it is a node or a container, and none otherwise; its lines are lines. */
  lemma ItemCounts(item: Item)
    requires Lexical(item)
    ensures forall l | l in Lines(item) :: OneLine(l)
    ensures Declaring(Lines(item)) == if item.Node? || item.Open? then 1 else 0
  {
    match item
    case Node(nested, id, caption, None) => PlainNodeCounts(nested, id, caption);
    case Node(nested, id, caption, Some(tone)) => StyledNodeCounts(nested, id, caption, tone);
    case Open(id, title) => OpenCounts(id, title);
    case Close =>
    case Edge(from, to, caption) => EdgeCounts(from, to, caption);
    case Back(from, to, caption) => BackCounts(from, to, caption);
    case Fixed(line) => FixedCounts(line);
  }

  lemma FixedCounts(line: FixedLine)
    ensures OneLine(Lines(Fixed(line))[0]) && Declaring(Lines(Fixed(line))) == 0
  {
    var (indent, word, rest) := FixedText(line);
    FixedIs(line);
    OneDeclares(indent + word + rest, indent, word, rest);
  }

  /** After its first word, a fixed line does not go on like a declaration. */
  lemma FixedIs(line: FixedLine)
    ensures var (indent, word, rest) := FixedText(line);
            && Blanks(indent) && IsIdent(word) && OneLine(rest)
            && rest != "" && !IdentChar(rest[0]) && !Quoted(rest)
  {
    FixedWord(line);
    match line
    case DirectionRight => Unquoted("right");
    case DirectionDown => Unquoted("down");
    case SequenceShape => Unquoted("sequence_diagram");
    case GridColumns =>
    case BoxStroke =>
    case BoxDash =>
  }

  lemma FixedWord(line: FixedLine)
    ensures Blanks(FixedText(line).0) && IsIdent(FixedText(line).1)
  {
  }

  lemma Unquoted(value: string)
    requires OneLine(value) && value != "" && !IsBlank(value[0]) && value[0] != '"'
    ensures OneLine(": " + value) && !Quoted(": " + value) && (": " + value)[0] == ':'
  {
    var rest := ": " + value;
    OneLineBoth(": ", value);
    assert rest[1..] == " " + value && (" " + value)[1..] == value;
    assert SkipBlanks(rest[1..]) == value;
  }

  lemma PlainNodeCounts(nested: bool, id: string, caption: string)
    requires IsIdent(id)
    ensures OneLine(Lines(Node(nested, id, caption, None))[0]) && Declaring(Lines(Node(nested, id, caption, None))) == 1
  {
    var rest := ": \"" + (Label(caption) + "\"");
    QuotedText(Label(caption) + "\"");
    assert Lines(Node(nested, id, caption, None))[0] == Indent(nested) + id + rest;
    OneDeclares(Lines(Node(nested, id, caption, None))[0], Indent(nested), id, rest);
  }

  lemma StyledNodeCounts(nested: bool, id: string, caption: string, tone: Tone)
    requires IsIdent(id)
    ensures forall l | l in Lines(Node(nested, id, caption, Some(tone))) :: OneLine(l)
    ensures Declaring(Lines(Node(nested, id, caption, Some(tone)))) == 1
  {
    var head := Indent(nested) + id + ": \"" + Label(caption) + "\" {";
    var rest := ": \"" + (Label(caption) + "\" {");
    QuotedText(Label(caption) + "\" {");
    OneLineBoth(Label(caption), "\" {");
    OneLineBoth(": \"", Label(caption) + "\" {");
    assert head == Indent(nested) + id + rest;
    OneDeclares(head, Indent(nested), id, rest);
    PaletteOneLine(tone);
    StyleBlockQuiet(Indent(nested), Palette(tone));
    DeclaringAppend([head], StyleBlock(Indent(nested), Palette(tone)));
  }

  lemma PaletteOneLine(tone: Tone)
    ensures OneLine(Palette(tone).fill) && OneLine(Palette(tone).text) && OneLine(Palette(tone).stroke)
  {
    match tone
    case Entry => assert OneLine("#0072B2") && OneLine("#FFFFFF") && OneLine("#00538A");
    case Root => assert OneLine("#0B4F6C") && OneLine("#FFFFFF") && OneLine("#073649");
    case Critical => assert OneLine("#A63603") && OneLine("#FFFFFF") && OneLine("#7A2802");
    case Warning => assert OneLine("#E69F00") && OneLine("#1A1A1A") && OneLine("#B37B00");
    case Ok => assert OneLine("#006D5B") && OneLine("#FFFFFF") && OneLine("#00473B");
    case Muted => assert OneLine("#767676") && OneLine("#FFFFFF") && OneLine("#5A5A5A");
  }

  lemma StyleBlockQuiet(indent: string, style: Style)
    requires Blanks(indent) && OneLine(style.fill) && OneLine(style.text) && OneLine(style.stroke)
    ensures forall l | l in StyleBlock(indent, style) :: OneLine(l)
    ensures Declaring(StyleBlock(indent, style)) == 0
  {
    StyleQuiet(indent, ".fill", style.fill);
    StyleQuiet(indent, ".font-color", style.text);
    StyleQuiet(indent, ".stroke", style.stroke);
    WidthQuiet(indent);
    CloseQuiet(indent);
    NoneDeclares(StyleBlock(indent, style));
  }

  lemma {:induction false} NoneDeclares(lines: seq<string>)
    requires forall l | l in lines :: !Declares(l)
    ensures Declaring(lines) == 0
  {
    if lines != [] { NoneDeclares(lines[1..]); }
  }

  lemma WidthQuiet(indent: string)
    requires Blanks(indent)
    ensures OneLine(indent + "  style.stroke-width: 2") && !Declares(indent + "  style.stroke-width: 2")
  {
    var line := indent + "  style.stroke-width: 2";
    assert line == indent + "  " + "style" + ".stroke-width: 2";
    OneDeclares(line, indent + "  ", "style", ".stroke-width: 2");
  }

  lemma StyleQuiet(indent: string, property: string, value: string)
    requires Blanks(indent) && OneLine(property) && OneLine(value)
    requires property != "" && property[0] == '.'
    ensures OneLine(StyleLine(indent, property, value)) && !Declares(StyleLine(indent, property, value))
  {
    var rest := property + ": \"" + value + "\"";
    assert StyleLine(indent, property, value) == indent + "  " + "style" + rest;
    OneDeclares(StyleLine(indent, property, value), indent + "  ", "style", rest);
  }

  lemma CloseQuiet(indent: string)
    requires Blanks(indent)
    ensures !Declares(indent + "}") && OneLine(indent + "}")
  {
    SkipAllBlanks(indent);
    SkipBlanksAppend(indent, "}");
  }

  function Declarations(items: seq<Item>): seq<string> {
    if items == [] then []
    else (if items[0].Node? || items[0].Open? then [items[0].id] else []) + Declarations(items[1..])
  }

  /** The counter reads back from the printed source exactly the nodes and containers that were
      declared, whatever their labels: never a property, a directive, an edge or a closing brace. */
  lemma {:induction false} CounterReadsDeclarations(items: seq<Item>)
    requires forall item | item in items :: Lexical(item)
    ensures CountNodes(Print(items)) == |Declarations(items)|
  {
    LinesCount(items);
    CountJoin(AllLines(items));
  }

  lemma {:induction false} LinesCount(items: seq<Item>)
    requires forall item | item in items :: Lexical(item)
    ensures forall l | l in AllLines(items) :: OneLine(l)
    ensures Declaring(AllLines(items)) == |Declarations(items)|
  {
    if items != [] {
      ItemCounts(items[0]);
      LinesCount(items[1..]);
      DeclaringAppend(Lines(items[0]), AllLines(items[1..]));
    }
  }
}
