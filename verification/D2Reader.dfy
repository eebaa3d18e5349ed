/**
 A reader of D2 source: from the text alone, what each line declares, connects or sets. What a
 diagram prints is read back whole: every declaration at its depth with its label, every arrow
 with its ends and caption, and every property, in order.
 */
module D2Reader {
  import opened Common
  import opened Seqs
  import opened Words
  import opened D2Text

  /** What one line says. `depth`: how many braces are open around it. */
  datatype Statement =
    | Declared(depth: int, id: string, caption: string)
    | Arrow(from: string, to: string, caption: string, dashed: bool)
    | Setting(depth: int, word: string, rest: string)

  // ─── The reader ─────────────────────────────────────────────────────────────

  function TakeIdent(s: string): string {
    if s != "" && IdentChar(s[0]) then [s[0]] + TakeIdent(s[1..]) else ""
  }

  const ARROW := " -> "
  const QUOTE := ": \""

  /** What is quoted behind a colon, if anything. */
  function Caption(s: string): string { if QUOTE <= s then Untilled(s[3..], '"') else "" }

  /** What a line says, given the depth it is at. */
  function ReadLine(line: string, depth: int): seq<Statement> {
    var text := SkipBlanks(line);
    var word, rest := TakeIdent(text), SkipIdent(text);
    if word == "" then []
    else if ARROW <= rest then
      var to, tail := TakeIdent(rest[4..]), SkipIdent(rest[4..]);
      [Arrow(word, to, Caption(tail), QUOTE <= tail && Behind(tail[3..], '"') != "")]
    else if QUOTE <= rest then [Declared(depth, word, Caption(rest))]
    else [Setting(depth, word, rest)]
  }

  /** The depth behind a line. */
  function DepthBehind(line: string, depth: int): int {
    if SkipBlanks(line) == "}" then depth - 1
    else if line != "" && line[|line| - 1] == '{' then depth + 1
    else depth
  }

  function ReadLines(lines: seq<string>, depth: int): seq<Statement> {
    if lines == [] then [] else ReadLine(lines[0], depth) + ReadLines(lines[1..], DepthBehind(lines[0], depth))
  }

  function Read(source: string): seq<Statement> { ReadLines(SplitLines(source), 0) }

  // ─── What a diagram means ───────────────────────────────────────────────────

  function StyleSays(property: string, value: string): string { property + ": \"" + value + "\"" }

  /** The properties of a styled node. */
  function Settings(depth: int, style: Style): seq<Statement> {
    [Setting(depth, "style", StyleSays(".fill", style.fill)), Setting(depth, "style", StyleSays(".font-color", style.text)),
     Setting(depth, "style", StyleSays(".stroke", style.stroke)), Setting(depth, "style", ".stroke-width: 2")]
  }

  function FixedSays(f: FixedLine, depth: int): Statement {
    match f
    case DirectionRight => Setting(depth, "direction", ": right")
    case DirectionDown => Setting(depth, "direction", ": down")
    case SequenceShape => Setting(depth, "shape", ": sequence_diagram")
    case GridColumns => Setting(depth, "grid", "-columns: 3")
    case BoxStroke => Setting(depth, "style", ".stroke: \"#A63603\"")
    case BoxDash => Setting(depth, "style", ".stroke-dash: 3")
  }

  function Says(item: Item, depth: int): seq<Statement> {
    match item
    case Node(_, id, caption, tone) =>
      [Declared(depth, id, Label(caption))] + (if tone.Some? then Settings(depth + 1, Palette(tone.value)) else [])
    case Open(id, title) => [Declared(depth, id, title)]
    case Close => []
    case Edge(from, to, caption) => [Arrow(from, to, if caption == "" then "" else Label(caption), false)]
    case Back(from, to, caption) => [Arrow(from, to, caption, true)]
    case Fixed(line) => [FixedSays(line, depth)]
  }

  /** The depth behind an item: a container is open until it is closed. */
  function DepthAfter(item: Item, depth: int): int {
    if item.Open? then depth + 1 else if item.Close? then depth - 1 else depth
  }

  function Meaning(items: seq<Item>, depth: int): seq<Statement> {
    if items == [] then [] else Says(items[0], depth) + Meaning(items[1..], DepthAfter(items[0], depth))
  }

  // ─── Lines ──────────────────────────────────────────────────────────────────

  function DepthBehindAll(lines: seq<string>, depth: int): int {
    if lines == [] then depth else DepthBehindAll(lines[1..], DepthBehind(lines[0], depth))
  }

  /** Lines behind other lines. */
  lemma {:induction false} Then(a: seq<string>, b: seq<string>, depth: int)
    ensures ReadLines(a + b, depth) == ReadLines(a, depth) + ReadLines(b, DepthBehindAll(a, depth))
    ensures DepthBehindAll(a + b, depth) == DepthBehindAll(b, DepthBehindAll(a, depth))
  {
    if a == [] {
      assert a + b == b;
    } else {
      assert (a + b)[0] == a[0] && (a + b)[1..] == a[1..] + b;
      var first := ReadLine(a[0], depth);
      Then(a[1..], b, DepthBehind(a[0], depth));
      Regroup(first, ReadLines(a[1..], DepthBehind(a[0], depth)), ReadLines(b, DepthBehindAll(a, depth)));
    }
  }

  // ─── Parts of a line ────────────────────────────────────────────────────────

  lemma {:induction false} WordTaken(word: string, rest: string)
    requires forall c | c in word :: IdentChar(c)
    requires rest == "" || !IdentChar(rest[0])
    ensures TakeIdent(word + rest) == word && SkipIdent(word + rest) == rest
  {
    if word == "" {
      assert word + rest == rest;
    } else {
      assert word[0] in word;
      assert (word + rest)[1..] == word[1..] + rest;
      WordTaken(word[1..], rest);
    }
  }

  lemma CaptionTaken(text: string, rest: string)
    requires '"' !in text
    ensures var s := QUOTE + text + "\"" + rest;
            QUOTE <= s && Caption(s) == text && Behind(s[3..], '"') == rest
  {
    var s := QUOTE + text + "\"" + rest;
    assert s[3..] == text + "\"" + rest;
    UpTo(text, '"', rest);
  }

  lemma IndentSkipped(indent: string, text: string)
    requires Blanks(indent) && (text == "" || !IsBlank(text[0]))
    ensures SkipBlanks(indent + text) == text
  {
    SkipAllBlanks(indent);
    SkipBlanksAppend(indent, text);
    assert "" + text == text;
  }

  /** A line that starts with a word. */
  lemma WordLine(indent: string, word: string, rest: string)
    requires Blanks(indent) && IsIdent(word) && (rest == "" || !IdentChar(rest[0]))
    ensures var text := SkipBlanks(indent + (word + rest));
            text == word + rest && TakeIdent(text) == word && SkipIdent(text) == rest && word + rest != "}"
  {
    IndentSkipped(indent, word + rest);
    WordTaken(word, rest);
  }

  /** Only the last character tells whether a line opens a brace. */
  lemma Deepens(line: string, head: string, tail: string, depth: int)
    requires line == head + tail && tail != "" && SkipBlanks(line) != "}"
    ensures DepthBehind(line, depth) == if tail[|tail| - 1] == '{' then depth + 1 else depth
  {
    assert line[|line| - 1] == tail[|tail| - 1];
  }

  lemma DeclarationRead(indent: string, id: string, caption: string, tail: string, depth: int)
    requires Blanks(indent) && IsIdent(id) && '"' !in caption
    ensures var line := indent + (id + (QUOTE + caption + "\"" + tail));
            && ReadLine(line, depth) == [Declared(depth, id, caption)]
            && DepthBehind(line, depth) == if tail != "" && tail[|tail| - 1] == '{' then depth + 1 else depth
  {
    var rest := QUOTE + caption + "\"" + tail;
    WordLine(indent, id, rest);
    CaptionTaken(caption, tail);
    assert !(ARROW <= rest) by { assert rest[0] == ':'; }
    var end := "\"" + tail;
    var line := indent + (id + rest);
    assert line == indent + id + QUOTE + caption + end;
    Deepens(line, indent + id + QUOTE + caption, end, depth);
  }

  lemma ArrowRead(from: string, to: string, tail: string, depth: int)
    requires IsIdent(from) && IsIdent(to) && (tail == "" || !IdentChar(tail[0]))
    ensures var line := from + (ARROW + (to + tail));
            ReadLine(line, depth) == [Arrow(from, to, Caption(tail), QUOTE <= tail && Behind(tail[3..], '"') != "")]
  {
    var rest := ARROW + (to + tail);
    WordLine("", from, rest);
    WordTaken(to, tail);
    assert "" + (from + rest) == from + rest;
    assert rest[4..] == to + tail;
  }

  /** A line that starts with a word and does not end in a brace stays where it is. */
  lemma WordStays(word: string, rest: string, depth: int)
    requires IsIdent(word) && rest != "" && !IdentChar(rest[0]) && rest[|rest| - 1] != '{'
    ensures DepthBehind(word + rest, depth) == depth
  {
    WordLine("", word, rest);
    assert "" + (word + rest) == word + rest;
    Deepens(word + rest, word, rest, depth);
  }

  lemma ArrowDepth(from: string, to: string, tail: string, depth: int)
    requires IsIdent(from) && IsIdent(to) && (tail == "" || tail[|tail| - 1] != '{')
    ensures DepthBehind(from + (ARROW + (to + tail)), depth) == depth
  {
    var ends := to + tail;
    assert to[|to| - 1] in to;
    assert ends[|ends| - 1] != '{';
    WordStays(from, ARROW + ends, depth);
  }

  lemma SettingRead(indent: string, word: string, rest: string, depth: int)
    requires Blanks(indent) && IsIdent(word) && rest != "" && !IdentChar(rest[0]) && rest[|rest| - 1] != '{'
    requires rest[0] != ' ' && !Quoted(rest)
    ensures ReadLine(indent + (word + rest), depth) == [Setting(depth, word, rest)]
    ensures DepthBehind(indent + (word + rest), depth) == depth
  {
    WordLine(indent, word, rest);
    if QUOTE <= rest {
      assert rest == QUOTE + rest[3..];
      QuotedText(rest[3..]);
    }
    Deepens(indent + (word + rest), indent + word, rest, depth);
  }

  // ─── Item by item ───────────────────────────────────────────────────────────

  lemma OneRead(line: string, depth: int)
    ensures ReadLines([line], depth) == ReadLine(line, depth)
    ensures DepthBehindAll([line], depth) == DepthBehind(line, depth)
  {
    assert [line][1..] == [];
  }

  /** Lines that say one thing each and open nothing. */
  lemma {:induction false} PlainLines(lines: seq<string>, says: seq<Statement>, depth: int)
    requires |lines| == |says|
    requires forall i | 0 <= i < |lines| :: ReadLine(lines[i], depth) == [says[i]] && DepthBehind(lines[i], depth) == depth
    ensures ReadLines(lines, depth) == says && DepthBehindAll(lines, depth) == depth
  {
    if lines != [] { PlainLines(lines[1..], says[1..], depth); }
  }

  lemma StyleRead(indent: string, property: string, value: string, depth: int)
    requires Blanks(indent) && property != "" && property[0] == '.'
    ensures var line := StyleLine(indent, property, value);
            ReadLine(line, depth) == [Setting(depth, "style", StyleSays(property, value))] && DepthBehind(line, depth) == depth
  {
    var rest := property + ": \"" + value + "\"";
    assert StyleLine(indent, property, value) == indent + "  " + ("style" + rest);
    assert rest[|rest| - 1] == '"';
    SettingRead(indent + "  ", "style", rest, depth);
  }

  lemma WidthRead(indent: string, depth: int)
    requires Blanks(indent)
    ensures var line := indent + "  style.stroke-width: 2";
            ReadLine(line, depth) == [Setting(depth, "style", ".stroke-width: 2")] && DepthBehind(line, depth) == depth
  {
    var rest := ".stroke-width: 2";
    assert indent + "  style.stroke-width: 2" == indent + "  " + ("style" + rest);
    SettingRead(indent + "  ", "style", rest, depth);
  }

  lemma CloseRead(indent: string, depth: int)
    requires Blanks(indent)
    ensures ReadLine(indent + "}", depth) == [] && DepthBehind(indent + "}", depth) == depth - 1
  {
    IndentSkipped(indent, "}");
  }

  lemma PropertiesRead(indent: string, style: Style, depth: int)
    requires Blanks(indent)
    ensures ReadLines(StyleBlock(indent, style)[..4], depth) == Settings(depth, style)
    ensures DepthBehindAll(StyleBlock(indent, style)[..4], depth) == depth
  {
    StyleRead(indent, ".fill", style.fill, depth);
    StyleRead(indent, ".font-color", style.text, depth);
    StyleRead(indent, ".stroke", style.stroke, depth);
    WidthRead(indent, depth);
    PlainLines(StyleBlock(indent, style)[..4], Settings(depth, style), depth);
  }

  lemma StyleBlockRead(indent: string, style: Style, depth: int)
    requires Blanks(indent)
    ensures ReadLines(StyleBlock(indent, style), depth) == Settings(depth, style)
    ensures DepthBehindAll(StyleBlock(indent, style), depth) == depth - 1
  {
    var inside, close := StyleBlock(indent, style)[..4], indent + "}";
    PropertiesRead(indent, style, depth);
    CloseRead(indent, depth);
    assert StyleBlock(indent, style) == inside + [close];
    Then(inside, [close], depth);
    OneRead(close, depth);
  }

  lemma PlainNodeRead(nested: bool, id: string, caption: string, depth: int)
    requires IsIdent(id)
    ensures ReadLines(Lines(Node(nested, id, caption, None)), depth) == [Declared(depth, id, Label(caption))]
    ensures DepthBehindAll(Lines(Node(nested, id, caption, None)), depth) == depth
  {
    PlainRead(Indent(nested), id, Label(caption), depth);
  }

  lemma PlainRead(indent: string, id: string, caption: string, depth: int)
    requires Blanks(indent) && IsIdent(id) && '"' !in caption
    ensures var lines := [indent + id + ": \"" + caption + "\""];
            ReadLines(lines, depth) == [Declared(depth, id, caption)] && DepthBehindAll(lines, depth) == depth
  {
    var line := indent + id + ": \"" + caption + "\"";
    DeclarationRead(indent, id, caption, "", depth);
    assert line == indent + (id + (QUOTE + caption + "\"" + ""));
    OneRead(line, depth);
  }

  lemma HeadRead(indent: string, id: string, caption: string, depth: int)
    requires Blanks(indent) && IsIdent(id) && '"' !in caption
    ensures var lines := [indent + id + ": \"" + caption + "\" {"];
            ReadLines(lines, depth) == [Declared(depth, id, caption)] && DepthBehindAll(lines, depth) == depth + 1
  {
    var line := indent + id + ": \"" + caption + "\" {";
    DeclarationRead(indent, id, caption, " {", depth);
    assert line == indent + (id + (QUOTE + caption + "\"" + " {"));
    OneRead(line, depth);
  }

  lemma StyledNodeRead(nested: bool, id: string, caption: string, tone: Tone, depth: int)
    requires IsIdent(id)
    ensures ReadLines(Lines(Node(nested, id, caption, Some(tone))), depth)
            == [Declared(depth, id, Label(caption))] + Settings(depth + 1, Palette(tone))
    ensures DepthBehindAll(Lines(Node(nested, id, caption, Some(tone))), depth) == depth
  {
    HeadRead(Indent(nested), id, Label(caption), depth);
    StyleBlockRead(Indent(nested), Palette(tone), depth + 1);
    Then([Indent(nested) + id + ": \"" + Label(caption) + "\" {"], StyleBlock(Indent(nested), Palette(tone)), depth);
  }

  lemma OpenRead(id: string, title: string, depth: int)
    requires Lexical(Open(id, title))
    ensures ReadLines(Lines(Open(id, title)), depth) == Says(Open(id, title), depth)
    ensures DepthBehindAll(Lines(Open(id, title)), depth) == depth + 1
  {
    HeadRead("", id, title, depth);
    assert "" + id == id;
  }

  /** An arrow with or without something behind its ends. */
  lemma ArrowLineRead(from: string, to: string, tail: string, depth: int)
    requires IsIdent(from) && IsIdent(to) && (tail == "" || (!IdentChar(tail[0]) && tail[|tail| - 1] != '{'))
    ensures var lines := [from + " -> " + to + tail];
            && ReadLines(lines, depth) == [Arrow(from, to, Caption(tail), QUOTE <= tail && Behind(tail[3..], '"') != "")]
            && DepthBehindAll(lines, depth) == depth
  {
    assert from + " -> " + to + tail == from + (ARROW + (to + tail));
    ArrowRead(from, to, tail, depth);
    ArrowDepth(from, to, tail, depth);
    OneRead(from + " -> " + to + tail, depth);
  }

  lemma EdgeRead(from: string, to: string, caption: string, depth: int)
    requires IsIdent(from) && IsIdent(to)
    ensures ReadLines(Lines(Edge(from, to, caption)), depth) == Says(Edge(from, to, caption), depth)
    ensures DepthBehindAll(Lines(Edge(from, to, caption)), depth) == depth
  {
    if caption == "" {
      ArrowLineRead(from, to, "", depth);
    } else {
      var tail := ": \"" + Label(caption) + "\"";
      CaptionTaken(Label(caption), "");
      assert tail == QUOTE + Label(caption) + "\"" + "";
      ArrowLineRead(from, to, tail, depth);
    }
  }

  /** A caption and what follows it, behind the ends of an arrow. */
  lemma CaptionedRead(from: string, to: string, caption: string, behind: string, tail: string, depth: int)
    requires IsIdent(from) && IsIdent(to) && '"' !in caption && behind != "" && behind[|behind| - 1] != '{'
    requires tail == QUOTE + caption + "\"" + behind
    ensures ReadLines([from + " -> " + to + tail], depth) == [Arrow(from, to, caption, true)]
    ensures DepthBehindAll([from + " -> " + to + tail], depth) == depth
  {
    CaptionTaken(caption, behind);
    assert tail[|tail| - 1] == behind[|behind| - 1] && tail[0] == ':';
    ArrowLineRead(from, to, tail, depth);
  }

  lemma BackRead(from: string, to: string, caption: string, depth: int)
    requires Lexical(Back(from, to, caption))
    ensures ReadLines(Lines(Back(from, to, caption)), depth) == Says(Back(from, to, caption), depth)
    ensures DepthBehindAll(Lines(Back(from, to, caption)), depth) == depth
  {
    var behind := " { style.stroke-dash: 3 }";
    assert DASHED == "\"" + behind;
    assert ": \"" + caption + DASHED == QUOTE + caption + "\"" + behind;
    CaptionedRead(from, to, caption, behind, ": \"" + caption + DASHED, depth);
  }

  lemma FixedRead(line: FixedLine, depth: int)
    ensures ReadLines(Lines(Fixed(line)), depth) == [FixedSays(line, depth)]
    ensures DepthBehindAll(Lines(Fixed(line)), depth) == depth
  {
    FixedIs(line);
    FixedSaid(line, depth);
    FixedEnds(line);
    WordRead(FixedText(line).0, FixedText(line).1, FixedText(line).2, depth);
  }

  lemma WordRead(indent: string, word: string, rest: string, depth: int)
    requires Blanks(indent) && IsIdent(word) && rest != "" && !IdentChar(rest[0]) && rest[|rest| - 1] != '{'
    requires rest[0] != ' ' && !Quoted(rest)
    ensures ReadLines([indent + word + rest], depth) == [Setting(depth, word, rest)]
    ensures DepthBehindAll([indent + word + rest], depth) == depth
  {
    assert indent + word + rest == indent + (word + rest);
    SettingRead(indent, word, rest, depth);
    OneRead(indent + word + rest, depth);
  }

  lemma FixedEnds(line: FixedLine)
    ensures var rest := FixedText(line).2; rest != "" && rest[0] != ' ' && rest[|rest| - 1] != '{'
  {
  }

  lemma FixedSaid(line: FixedLine, depth: int)
    ensures Setting(depth, FixedText(line).1, FixedText(line).2) == FixedSays(line, depth)
  {
    assert ": " + "right" == ": right" && ": " + "down" == ": down" && ": " + "sequence_diagram" == ": sequence_diagram";
  }

  lemma CloseItemRead(depth: int)
    ensures ReadLines(Lines(Close), depth) == [] && DepthBehindAll(Lines(Close), depth) == depth - 1
  {
    CloseRead("", depth);
    assert "" + "}" == "}";
    OneRead("}", depth);
  }

  lemma ItemRead(item: Item, depth: int)
    requires Lexical(item)
    ensures ReadLines(Lines(item), depth) == Says(item, depth)
    ensures DepthBehindAll(Lines(item), depth) == DepthAfter(item, depth)
  {
    match item
    case Node(nested, id, caption, None) => PlainNodeRead(nested, id, caption, depth);
    case Node(nested, id, caption, Some(tone)) => StyledNodeRead(nested, id, caption, tone, depth);
    case Open(id, title) => OpenRead(id, title, depth);
    case Close => CloseItemRead(depth);
    case Edge(from, to, caption) => EdgeRead(from, to, caption, depth);
    case Back(from, to, caption) => BackRead(from, to, caption, depth);
    case Fixed(line) => FixedRead(line, depth);
  }

  lemma {:induction false} LinesRead(items: seq<Item>, depth: int)
    requires forall item | item in items :: Lexical(item)
    ensures ReadLines(AllLines(items), depth) == Meaning(items, depth)
  {
    if items != [] {
      ItemRead(items[0], depth);
      LinesRead(items[1..], DepthAfter(items[0], depth));
      Then(Lines(items[0]), AllLines(items[1..]), depth);
    }
  }

  /** The printed source says what the items mean, no more and no less, whatever the labels. */
  lemma PrintedIsMeant(items: seq<Item>)
    requires forall item | item in items :: Lexical(item)
    ensures Read(Print(items)) == Meaning(items, 0)
  {
    LinesCount(items);
    LinesRead(items, 0);
    if items == [] {
      assert SplitLines("") == [""];
      OneRead("", 0);
    } else {
      assert forall l | l in AllLines(items) :: '\n' !in l;
      SplitJoin(AllLines(items));
    }
  }

  // ─── What holds of the text ─────────────────────────────────────────────────

  function DeclaredIds(says: seq<Statement>): seq<string> {
    if says == [] then [] else (if says[0].Declared? then [says[0].id] else []) + DeclaredIds(says[1..])
  }

  lemma {:induction false} DeclaredBoth(a: seq<Statement>, b: seq<Statement>)
    ensures DeclaredIds(a + b) == DeclaredIds(a) + DeclaredIds(b)
  {
    if a == [] {
      assert a + b == b;
    } else {
      var first := if a[0].Declared? then [a[0].id] else [];
      assert (a + b)[0] == a[0] && (a + b)[1..] == a[1..] + b;
      DeclaredBoth(a[1..], b);
      Regroup(first, DeclaredIds(a[1..]), DeclaredIds(b));
    }
  }

  lemma {:induction false} NoneDeclared(says: seq<Statement>)
    requires forall s | s in says :: !s.Declared?
    ensures DeclaredIds(says) == []
  {
    if says != [] { NoneDeclared(says[1..]); }
  }

  lemma SaysDeclared(item: Item, depth: int)
    ensures DeclaredIds(Says(item, depth)) == if item.Node? || item.Open? then [item.id] else []
  {
    var says := Says(item, depth);
    if item.Node? || item.Open? {
      NoneDeclared(says[1..]);
    } else {
      NoneDeclared(says);
    }
  }

  lemma {:induction false} MeaningDeclared(items: seq<Item>, depth: int)
    ensures DeclaredIds(Meaning(items, depth)) == Declarations(items)
  {
    if items != [] {
      var after := DepthAfter(items[0], depth);
      SaysDeclared(items[0], depth);
      MeaningDeclared(items[1..], after);
      DeclaredBoth(Says(items[0], depth), Meaning(items[1..], after));
    }
  }

  /** The pattern that counts nodes and the reader of whole lines find the same declarations. */
  lemma ReadersAgree(items: seq<Item>)
    requires forall item | item in items :: Lexical(item)
    ensures DeclaredIds(Read(Print(items))) == Declarations(items)
    ensures CountNodes(Print(items)) == |DeclaredIds(Read(Print(items)))|
  {
    PrintedIsMeant(items);
    MeaningDeclared(items, 0);
    CounterReadsDeclarations(items);
  }

  /** No arrow of a text ends at something the text does not declare. */
  predicate ArrowsJoin(says: seq<Statement>) {
    forall s | s in says && s.Arrow? :: s.from in DeclaredIds(says) && s.to in DeclaredIds(says)
  }

  lemma {:induction false} MeantArrow(items: seq<Item>, depth: int, s: Statement) returns (item: Item)
    requires s in Meaning(items, depth) && s.Arrow?
    ensures item in items && (item.Edge? || item.Back?) && item.from == s.from && item.to == s.to
  {
    if s in Says(items[0], depth) {
      item := items[0];
    } else {
      item := MeantArrow(items[1..], DepthAfter(items[0], depth), s);
    }
  }

  // ─── Boxes and arrows ───────────────────────────────────────────────────────

  /** A node or container of a text: how deep it is nested, what it shows, and its colour. */
  datatype Box = Box(depth: int, id: string, caption: string, fill: Option<string>)

  const FILL := ".fill: \""

  /** The colour set right behind a declaration. */
  function FillSet(says: seq<Statement>): Option<string> {
    if says != [] && says[0].Setting? && says[0].word == "style" && FILL <= says[0].rest
    then Some(Untilled(says[0].rest[8..], '"')) else None
  }

  function Boxes(says: seq<Statement>): seq<Box> {
    if says == [] then []
    else
      (if says[0].Declared? then [Box(says[0].depth, says[0].id, says[0].caption, FillSet(says[1..]))] else [])
      + Boxes(says[1..])
  }

  predicate IsArrow(s: Statement) { s.Arrow? }

  function ArrowsIn(says: seq<Statement>): seq<Statement> { Filter(says, IsArrow) }

  function FillOf(tone: Option<Tone>): Option<string> { if tone.Some? then Some(Palette(tone.value).fill) else None }

  function BoxesOf(items: seq<Item>, depth: int): seq<Box> {
    if items == [] then [] else BoxOf(items[0], depth) + BoxesOf(items[1..], DepthAfter(items[0], depth))
  }

  function BoxOf(item: Item, depth: int): seq<Box> {
    match item
    case Node(_, id, caption, tone) => [Box(depth, id, Label(caption), FillOf(tone))]
    case Open(id, title) => [Box(depth, id, title, None)]
    case _ => []
  }

  function ArrowOf(item: Item): seq<Statement> {
    match item
    case Edge(from, to, caption) => [Arrow(from, to, if caption == "" then "" else Label(caption), false)]
    case Back(from, to, caption) => [Arrow(from, to, caption, true)]
    case _ => []
  }

  function ArrowsOf(items: seq<Item>): seq<Statement> {
    if items == [] then [] else ArrowOf(items[0]) + ArrowsOf(items[1..])
  }

  lemma {:induction false} ArrowsMeant(items: seq<Item>, depth: int)
    ensures ArrowsIn(Meaning(items, depth)) == ArrowsOf(items)
  {
    if items != [] {
      var after := DepthAfter(items[0], depth);
      SaysArrow(items[0], depth);
      ArrowsMeant(items[1..], after);
      FilterBoth(Says(items[0], depth), Meaning(items[1..], after), IsArrow);
    }
  }

  lemma SaysArrow(item: Item, depth: int)
    ensures ArrowsIn(Says(item, depth)) == ArrowOf(item)
  {
    var says := Says(item, depth);
    if item.Edge? || item.Back? {
      FilterAll(says, IsArrow);
    } else {
      NoArrows(says);
    }
  }

  lemma {:induction false} NoArrows(says: seq<Statement>)
    requires forall s | s in says :: !s.Arrow?
    ensures ArrowsIn(says) == []
  {
    if says != [] { NoArrows(says[..|says| - 1]); }
  }

  /** No text begins with the colour of a declaration that is not its own. */
  lemma NoFillFirst(items: seq<Item>, depth: int)
    ensures FillSet(Meaning(items, depth)) == None
    decreases |items|
  {
    if items != [] {
      var says := Says(items[0], depth);
      if says == [] {
        NoFillFirst(items[1..], DepthAfter(items[0], depth));
      } else {
        FirstSaid(items[0], depth);
        assert Meaning(items, depth)[0] == says[0];
      }
    }
  }

  lemma FirstSaid(item: Item, depth: int)
    requires Says(item, depth) != []
    ensures FillSet(Says(item, depth)) == None
  {
    if item.Fixed? { FixedNoFill(item.line); }
  }

  lemma FixedNoFill(line: FixedLine)
    ensures !(FILL <= FixedSays(line, 0).rest)
  {
    match line
    case DirectionRight => assert ": right"[0] == ':';
    case DirectionDown => assert ": down"[0] == ':';
    case SequenceShape => assert ": sequence_diagram"[0] == ':';
    case GridColumns => assert "-columns: 3"[0] == '-';
    case BoxStroke => assert ".stroke: \"#A63603\""[1] == 's';
    case BoxDash => assert ".stroke-dash: 3"[1] == 's';
  }

  lemma {:induction false} BoxesBehind(quiet: seq<Statement>, says: seq<Statement>)
    requires forall s | s in quiet :: !s.Declared?
    ensures Boxes(quiet + says) == Boxes(says)
  {
    if quiet == [] {
      assert quiet + says == says;
    } else {
      assert (quiet + says)[0] == quiet[0] && (quiet + says)[1..] == quiet[1..] + says;
      BoxesBehind(quiet[1..], says);
    }
  }

  lemma FillRead(fill: string, rest: seq<Statement>, depth: int)
    requires '"' !in fill
    ensures FillSet([Setting(depth, "style", StyleSays(".fill", fill))] + rest) == Some(fill)
  {
    var text := StyleSays(".fill", fill);
    assert text == FILL + fill + "\"";
    assert text[8..] == fill + "\"" + "";
    UpTo(fill, '"', "");
  }

  lemma PaletteQuotable(tone: Tone)
    ensures '"' !in Palette(tone).fill
  {
    match tone
    case Entry => assert '"' !in "#0072B2";
    case Root => assert '"' !in "#0B4F6C";
    case Critical => assert '"' !in "#A63603";
    case Warning => assert '"' !in "#E69F00";
    case Ok => assert '"' !in "#006D5B";
    case Muted => assert '"' !in "#767676";
  }

  lemma NodeBoxed(id: string, caption: string, tone: Option<Tone>, depth: int, rest: seq<Statement>)
    requires FillSet(rest) == None
    ensures Boxes(Says(Node(false, id, caption, tone), depth) + rest) == [Box(depth, id, Label(caption), FillOf(tone))] + Boxes(rest)
  {
    var head := Declared(depth, id, Label(caption));
    match tone
    case None =>
      assert Says(Node(false, id, caption, tone), depth) == [head];
      PlainBoxed(head, rest);
    case Some(fill) =>
      PaletteQuotable(fill);
      StyledBoxed(head, Palette(fill), depth, rest);
  }

  lemma PlainBoxed(head: Statement, rest: seq<Statement>)
    requires head.Declared? && FillSet(rest) == None
    ensures Boxes([head] + rest) == [Box(head.depth, head.id, head.caption, None)] + Boxes(rest)
  {
    assert ([head] + rest)[1..] == rest;
  }

  lemma StyledBoxed(head: Statement, style: Style, depth: int, rest: seq<Statement>)
    requires head.Declared? && '"' !in style.fill
    ensures Boxes([head] + Settings(depth + 1, style) + rest) == [Box(head.depth, head.id, head.caption, Some(style.fill))] + Boxes(rest)
  {
    var settings := Settings(depth + 1, style);
    FillRead(style.fill, settings[1..] + rest, depth + 1);
    assert settings + rest == [settings[0]] + (settings[1..] + rest);
    assert ([head] + settings + rest)[1..] == settings + rest;
    BoxesBehind(settings, rest);
  }

  lemma {:induction false} BoxesMeant(items: seq<Item>, depth: int)
    ensures Boxes(Meaning(items, depth)) == BoxesOf(items, depth)
  {
    if items != [] {
      var item, after := items[0], DepthAfter(items[0], depth);
      var rest := Meaning(items[1..], after);
      BoxesMeant(items[1..], after);
      NoFillFirst(items[1..], after);
      match item
      case Node(nested, id, caption, tone) => NodeBoxed(id, caption, tone, depth, rest);
      case Open(id, title) =>
        assert ([Declared(depth, id, title)] + rest)[1..] == rest;
      case _ => BoxesBehind(Says(item, depth), rest);
    }
  }

  /** The boxes and arrows a text shows are those of the items it was printed from. */
  lemma PrintedShows(items: seq<Item>)
    requires forall item | item in items :: Lexical(item)
    ensures Boxes(Read(Print(items))) == BoxesOf(items, 0) && ArrowsIn(Read(Print(items))) == ArrowsOf(items)
  {
    PrintedIsMeant(items);
    BoxesMeant(items, 0);
    ArrowsMeant(items, 0);
  }

  function DepthAfterAll(items: seq<Item>, depth: int): int {
    if items == [] then depth else DepthAfterAll(items[1..], DepthAfter(items[0], depth))
  }

  lemma OneShown(item: Item, depth: int)
    ensures BoxesOf([item], depth) == BoxOf(item, depth) && ArrowsOf([item]) == ArrowOf(item)
    ensures DepthAfterAll([item], depth) == DepthAfter(item, depth)
  {
    assert [item][1..] == [];
  }

  lemma {:induction false} ShownBoth(a: seq<Item>, b: seq<Item>, depth: int)
    ensures BoxesOf(a + b, depth) == BoxesOf(a, depth) + BoxesOf(b, DepthAfterAll(a, depth))
    ensures ArrowsOf(a + b) == ArrowsOf(a) + ArrowsOf(b)
    ensures DepthAfterAll(a + b, depth) == DepthAfterAll(b, DepthAfterAll(a, depth))
  {
    if a == [] {
      assert a + b == b;
    } else {
      var after := DepthAfter(a[0], depth);
      assert (a + b)[0] == a[0] && (a + b)[1..] == a[1..] + b;
      ShownBoth(a[1..], b, after);
      Regroup(BoxOf(a[0], depth), BoxesOf(a[1..], after), BoxesOf(b, DepthAfterAll(a, depth)));
      Regroup(ArrowOf(a[0]), ArrowsOf(a[1..]), ArrowsOf(b));
    }
  }

  function NodeBox(node: Item, depth: int): Box
    requires node.Node?
  {
    Box(depth, node.id, Label(node.caption), FillOf(node.tone))
  }

  /** Nodes show one box each, and nothing else. */
  lemma {:induction false} NodesShown(items: seq<Item>, depth: int)
    requires forall item | item in items :: item.Node?
    ensures |BoxesOf(items, depth)| == |items| && ArrowsOf(items) == [] && DepthAfterAll(items, depth) == depth
    ensures forall k | 0 <= k < |items| :: BoxesOf(items, depth)[k] == NodeBox(items[k], depth)
  {
    if items != [] {
      var first, rest := NodeBox(items[0], depth), BoxesOf(items[1..], depth);
      NodesShown(items[1..], depth);
      assert items[0] in items;
      assert BoxesOf(items, depth) == [first] + rest;
      forall k | 0 <= k < |items| ensures ([first] + rest)[k] == NodeBox(items[k], depth) {
        if k > 0 { assert items[1..][k - 1] == items[k]; }
      }
    }
  }

  /** Edges show one arrow each, and nothing else. */
  lemma {:induction false} EdgesShown(items: seq<Item>, depth: int)
    requires forall item | item in items :: item.Edge? || item.Back?
    ensures |ArrowsOf(items)| == |items| && BoxesOf(items, depth) == [] && DepthAfterAll(items, depth) == depth
    ensures forall k | 0 <= k < |items| :: ArrowOf(items[k]) == [ArrowsOf(items)[k]]
  {
    if items != [] {
      var first, rest := ArrowOf(items[0]), ArrowsOf(items[1..]);
      EdgesShown(items[1..], depth);
      assert items[0] in items && |first| == 1;
      assert ArrowsOf(items) == first + rest;
      forall k | 0 <= k < |items| ensures ArrowOf(items[k]) == [(first + rest)[k]] {
        if k > 0 { assert items[1..][k - 1] == items[k]; }
      }
    }
  }

  /** A directive, nodes and edges. */
  lemma PlainShown(line: FixedLine, nodes: seq<Item>, edges: seq<Item>)
    requires (forall item | item in nodes :: item.Node?) && forall item | item in edges :: item.Edge? || item.Back?
    ensures var items := [Fixed(line)] + nodes + edges;
            BoxesOf(items, 0) == BoxesOf(nodes, 0) && ArrowsOf(items) == ArrowsOf(edges)
  {
    OneShown(Fixed(line), 0);
    NodesShown(nodes, 0);
    EdgesShown(edges, 0);
    ShownBoth([Fixed(line)], nodes, 0);
    ShownBoth([Fixed(line)] + nodes, edges, 0);
  }
}
