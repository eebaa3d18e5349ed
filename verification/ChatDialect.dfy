/**
 The conversation of an agent in content-block form, its cache marker, and its translation
 to the chat-completions dialect.
 */
module ChatDialect {
  import opened Common
  import opened Seqs
  import opened Json

  /** A block's cache_control: absent, present but undefined, or set. */
  datatype CacheMark = Unmarked | Cleared | Ephemeral

  datatype ResultPart = TextPart(text: string) | OtherPart

  datatype ResultContent = Plain(text: string) | Parts(parts: seq<ResultPart>) | Absent

  datatype Block =
    | Text(text: string, cache: CacheMark)
    | ToolUse(id: string, name: string, input: Json, cache: CacheMark)
    | ToolResult(toolUseId: string, content: ResultContent, isError: bool, cache: CacheMark)
    | Thinking(cache: CacheMark)

  datatype Content = Str(s: string) | Blocks(blocks: seq<Block>)

  datatype Role = User | Assistant

  datatype Message = Message(role: Role, content: Content)

  // ─── The rolling cache marker ───────────────────────────────────────────────

  function StripMark(b: Block): Block { if b.cache.Unmarked? then b else b.(cache := Cleared) }

  function StripBlocks(blocks: seq<Block>): seq<Block> {
    if blocks == [] then [] else [StripMark(blocks[0])] + StripBlocks(blocks[1..])
  }

  function Strip(m: Message): Message {
    if m.content.Str? then m else m.(content := Blocks(StripBlocks(m.content.blocks)))
  }

  function StripAll(ms: seq<Message>): seq<Message> {
    if ms == [] then [] else [Strip(ms[0])] + StripAll(ms[1..])
  }

  function MarkTail(blocks: seq<Block>): seq<Block> {
    if blocks == [] then [] else blocks[|blocks| - 1 := blocks[|blocks| - 1].(cache := Ephemeral)]
  }

  /** A string cannot carry a marker, so it becomes a text block. */
  function Promote(c: Content): seq<Block> {
    if c.Str? then [Text(c.s, Unmarked)] else c.blocks
  }

  /** A message promoted to blocks, its last block marked. */
  function Marked(m: Message): Message { m.(content := Blocks(MarkTail(Promote(m.content)))) }

  function WithRollingCache(ms: seq<Message>): seq<Message> {
    var stripped := StripAll(ms);
    if stripped == [] then stripped
    else
      var last := stripped[|stripped| - 1];
      stripped[..|stripped| - 1] + [Marked(last)]
  }

  // ─── The chat-completions dialect ───────────────────────────────────────────

  datatype ToolCall = ToolCall(id: string, name: string, arguments: Json)

  datatype ChatMessage =
    | SystemMessage(text: string)
    | UserMessage(text: string)
    | AssistantMessage(text: string, calls: seq<ToolCall>)
    | ToolMessage(callId: string, text: string)

  function PartTexts(parts: seq<ResultPart>): seq<string> {
    if parts == [] then []
    else [if parts[0].TextPart? then parts[0].text else ""] + PartTexts(parts[1..])
  }

  function ResultText(b: Block): string
    requires b.ToolResult?
  {
    var raw := match b.content
      case Plain(text) => text
      case Parts(parts) => Join(PartTexts(parts), "\n")
      case Absent => "";
    if b.isError then "ERROR: " + raw else raw
  }

  /** `input ?? {}` */
  function Arguments(input: Json): Json { if input.JNull? then JObj(map[]) else input }

  // What each kind of block contributes.

  function Texts(blocks: seq<Block>): seq<string> {
    if blocks == [] then []
    else (if blocks[0].Text? then [blocks[0].text] else []) + Texts(blocks[1..])
  }

  function Results(blocks: seq<Block>): seq<ChatMessage> {
    if blocks == [] then []
    else
      (if blocks[0].ToolResult? then [ToolMessage(blocks[0].toolUseId, ResultText(blocks[0]))] else []) +
      Results(blocks[1..])
  }

  function Calls(blocks: seq<Block>): seq<ToolCall> {
    if blocks == [] then []
    else
      (if blocks[0].ToolUse? then [ToolCall(blocks[0].id, blocks[0].name, Arguments(blocks[0].input))] else []) +
      Calls(blocks[1..])
  }

  /** One message: results first, then any text of a user turn; an assistant turn is one
      message whatever its blocks. */
  function TranslateOne(m: Message): seq<ChatMessage> {
    match m.role
    case User =>
      if m.content.Str? then [UserMessage(m.content.s)]
      else
        Results(m.content.blocks) +
        (if Texts(m.content.blocks) == [] then [] else [UserMessage(Join(Texts(m.content.blocks), "\n"))])
    case Assistant =>
      var blocks := Promote(m.content);
      [AssistantMessage(Join(Texts(blocks), "\n"), Calls(blocks))]
  }

  function TranslateAll(ms: seq<Message>): seq<ChatMessage> {
    if ms == [] then [] else TranslateOne(ms[0]) + TranslateAll(ms[1..])
  }

  function Translate(system: string, ms: seq<Message>): seq<ChatMessage> {
    [SystemMessage(system)] + TranslateAll(ms)
  }

  // ─── What a translation must say ────────────────────────────────────────────

  datatype Kind = Said | Called | Answer | Dropped

  function KindOf(b: Block): Kind {
    match b
    case Text(_, _) => Said
    case ToolUse(_, _, _, _) => Called
    case ToolResult(_, _, _, _) => Answer
    case Thinking(_) => Dropped
  }

  /** How many of the blocks are of a kind: of the blocks before one, its position among its kind. */
  function CountOf(blocks: seq<Block>, kind: Kind): nat {
    if blocks == [] then 0 else (if KindOf(blocks[0]) == kind then 1 else 0) + CountOf(blocks[1..], kind)
  }

  /** The texts are those of the text blocks, in order. */
  ghost predicate Quotes(blocks: seq<Block>, texts: seq<string>) {
    && |texts| == CountOf(blocks, Said)
    && forall j {:trigger blocks[j]} | 0 <= j < |blocks| && blocks[j].Text? ::
         var k := CountOf(blocks[..j], Said);
         k < |texts| && texts[k] == blocks[j].text
  }

  /** The text is that of the text blocks, one after the other on lines of their own. */
  ghost predicate Speaks(blocks: seq<Block>, text: string) {
    exists texts :: Quotes(blocks, texts) && text == Join(texts, "\n")
  }

  ghost predicate Reads(parts: seq<ResultPart>, texts: seq<string>) {
    |texts| == |parts| && forall i | 0 <= i < |parts| :: texts[i] == if parts[i].TextPart? then parts[i].text else ""
  }

  /** What a result says. */
  ghost predicate RawText(content: ResultContent, raw: string) {
    match content
    case Plain(text) => raw == text
    case Parts(parts) => exists texts :: Reads(parts, texts) && raw == Join(texts, "\n")
    case Absent => raw == ""
  }

  /** The message answers the same call with the same words, marked if and only if they are an error. */
  ghost predicate Carries(b: Block, message: ChatMessage)
    requires b.ToolResult?
  {
    && message.ToolMessage? && message.callId == b.toolUseId
    && exists raw :: RawText(b.content, raw) && message.text == if b.isError then "ERROR: " + raw else raw
  }

  /** One tool message for each result block, in order. */
  ghost predicate ResultsCarried(blocks: seq<Block>, out: seq<ChatMessage>) {
    && |out| == CountOf(blocks, Answer)
    && forall j {:trigger blocks[j]} | 0 <= j < |blocks| && blocks[j].ToolResult? ::
         var k := CountOf(blocks[..j], Answer);
         k < |out| && Carries(blocks[j], out[k])
  }

  /** One call for each call block, in order, with its id, name and input. */
  ghost predicate CallsCarried(blocks: seq<Block>, calls: seq<ToolCall>) {
    && |calls| == CountOf(blocks, Called)
    && forall j {:trigger blocks[j]} | 0 <= j < |blocks| && blocks[j].ToolUse? ::
         var k := CountOf(blocks[..j], Called);
         && k < |calls| && calls[k].id == blocks[j].id && calls[k].name == blocks[j].name
         && calls[k].arguments == if blocks[j].input == JNull then JObj(map[]) else blocks[j].input
  }

  /** A user turn of blocks: its results, then its texts as one message if it has any. */
  ghost predicate UserCarried(blocks: seq<Block>, out: seq<ChatMessage>) {
    var n := CountOf(blocks, Answer);
    && |out| == n + (if CountOf(blocks, Said) == 0 then 0 else 1)
    && ResultsCarried(blocks, out[..n])
    && (CountOf(blocks, Said) != 0 ==> out[n].UserMessage? && Speaks(blocks, out[n].text))
  }

  ghost predicate AssistantCarried(blocks: seq<Block>, message: ChatMessage) {
    message.AssistantMessage? && Speaks(blocks, message.text) && CallsCarried(blocks, message.calls)
  }

  ghost predicate Carried(m: Message, out: seq<ChatMessage>) {
    match m
    case Message(User, Str(text)) => out == [UserMessage(text)]
    case Message(User, Blocks(blocks)) => UserCarried(blocks, out)
    case Message(Assistant, Str(text)) => out == [AssistantMessage(text, [])]
    case Message(Assistant, Blocks(blocks)) => |out| == 1 && AssistantCarried(blocks, out[0])
  }

  /** The output from one position to the next says what the i-th message does. */
  ghost predicate Stretch(ms: seq<Message>, out: seq<ChatMessage>, at: seq<nat>, i: nat)
    requires i < |ms| && |at| == |ms| + 1
  {
    at[i] <= at[i + 1] <= |out| && Carried(ms[i], out[at[i]..at[i + 1]])
  }

  /** The conversation: the system prompt, then a stretch for each message, in order, with
      nothing before, between or behind them. `at` says where the stretches begin. */
  ghost predicate Conversation(system: string, ms: seq<Message>, out: seq<ChatMessage>, at: seq<nat>) {
    && |at| == |ms| + 1 && at[0] == 1 && at[|ms|] == |out|
    && out != [] && out[0] == SystemMessage(system)
    && forall i | 0 <= i < |ms| :: Stretch(ms, out, at, i)
  }

  lemma {:induction false} CountedKinds(blocks: seq<Block>)
    ensures |Texts(blocks)| == CountOf(blocks, Said)
    ensures |Results(blocks)| == CountOf(blocks, Answer)
    ensures |Calls(blocks)| == CountOf(blocks, Called)
  {
    if blocks != [] { CountedKinds(blocks[1..]); }
  }

  lemma CountNext(blocks: seq<Block>, j: nat, kind: Kind)
    requires 0 < j < |blocks|
    ensures CountOf(blocks[..j], kind) == (if KindOf(blocks[0]) == kind then 1 else 0) + CountOf(blocks[1..][..j - 1], kind)
  {
    assert blocks[..j][1..] == blocks[1..][..j - 1];
  }

  lemma {:induction false} TextAt(blocks: seq<Block>, j: nat)
    requires j < |blocks| && blocks[j].Text?
    ensures var k := CountOf(blocks[..j], Said);
            k < |Texts(blocks)| && Texts(blocks)[k] == blocks[j].text
  {
    if j > 0 {
      TextAt(blocks[1..], j - 1);
      CountNext(blocks, j, Said);
    }
  }

  lemma {:induction false} PartTextsRead(parts: seq<ResultPart>)
    ensures Reads(parts, PartTexts(parts))
  {
    if parts != [] { PartTextsRead(parts[1..]); }
  }

  lemma ResultCarried(b: Block)
    requires b.ToolResult?
    ensures Carries(b, ToolMessage(b.toolUseId, ResultText(b)))
  {
    if b.content.Parts? {
      PartTextsRead(b.content.parts);
      assert RawText(b.content, Join(PartTexts(b.content.parts), "\n"));
    }
    var raw := match b.content
      case Plain(text) => text
      case Parts(parts) => Join(PartTexts(parts), "\n")
      case Absent => "";
    assert RawText(b.content, raw);
  }

  lemma {:induction false} ResultAt(blocks: seq<Block>, j: nat)
    requires j < |blocks| && blocks[j].ToolResult?
    ensures var k := CountOf(blocks[..j], Answer);
            k < |Results(blocks)| && Carries(blocks[j], Results(blocks)[k])
  {
    if j == 0 {
      ResultCarried(blocks[0]);
    } else {
      ResultAt(blocks[1..], j - 1);
      CountNext(blocks, j, Answer);
    }
  }

  lemma {:induction false} CallAt(blocks: seq<Block>, j: nat)
    requires j < |blocks| && blocks[j].ToolUse?
    ensures var k := CountOf(blocks[..j], Called);
            k < |Calls(blocks)| && Calls(blocks)[k] == ToolCall(blocks[j].id, blocks[j].name, Arguments(blocks[j].input))
  {
    if j > 0 {
      CallAt(blocks[1..], j - 1);
      CountNext(blocks, j, Called);
    }
  }

  lemma TextsSpeak(blocks: seq<Block>)
    ensures Speaks(blocks, Join(Texts(blocks), "\n"))
  {
    CountedKinds(blocks);
    forall j | 0 <= j < |blocks| && blocks[j].Text?
      ensures var k := CountOf(blocks[..j], Said); k < |Texts(blocks)| && Texts(blocks)[k] == blocks[j].text
    {
      TextAt(blocks, j);
    }
    assert Quotes(blocks, Texts(blocks));
  }

  lemma UserIsCarried(blocks: seq<Block>)
    ensures UserCarried(blocks, TranslateOne(Message(User, Blocks(blocks))))
  {
    CountedKinds(blocks);
    TextsSpeak(blocks);
    forall j | 0 <= j < |blocks| && blocks[j].ToolResult?
      ensures var k := CountOf(blocks[..j], Answer); k < |Results(blocks)| && Carries(blocks[j], Results(blocks)[k])
    {
      ResultAt(blocks, j);
    }
    assert TranslateOne(Message(User, Blocks(blocks)))[..|Results(blocks)|] == Results(blocks);
  }

  lemma AssistantIsCarried(blocks: seq<Block>)
    ensures AssistantCarried(blocks, AssistantMessage(Join(Texts(blocks), "\n"), Calls(blocks)))
  {
    CountedKinds(blocks);
    TextsSpeak(blocks);
    forall j | 0 <= j < |blocks| && blocks[j].ToolUse?
      ensures var k := CountOf(blocks[..j], Called);
              k < |Calls(blocks)| && Calls(blocks)[k] == ToolCall(blocks[j].id, blocks[j].name, Arguments(blocks[j].input))
    {
      CallAt(blocks, j);
    }
  }

  lemma OneIsCarried(m: Message)
    ensures Carried(m, TranslateOne(m))
  {
    match m
    case Message(User, Str(_)) =>
    case Message(User, Blocks(blocks)) => UserIsCarried(blocks);
    case Message(Assistant, Str(text)) =>
      var blocks := [Text(text, Unmarked)];
      assert blocks[1..] == [];
      assert Texts(blocks) == [text] + Texts([]) && Calls(blocks) == [] + Calls([]);
      assert Join([text], "\n") == text;
    case Message(Assistant, Blocks(blocks)) => AssistantIsCarried(blocks);
  }

  lemma {:induction false} TranslateAppend(a: seq<Message>, b: seq<Message>)
    ensures TranslateAll(a + b) == TranslateAll(a) + TranslateAll(b)
  {
    if a == [] {
      assert a + b == b;
    } else {
      assert (a + b)[1..] == a[1..] + b;
      TranslateAppend(a[1..], b);
    }
  }

  /** One more message extends the conversation by its stretch. */
  lemma Converse(system: string, ms: seq<Message>, m: Message, out: seq<ChatMessage>, at: seq<nat>)
    requires Conversation(system, ms, out, at)
    ensures Conversation(system, ms + [m], out + TranslateOne(m), at + [|out| + |TranslateOne(m)|])
  {
    var all, more, ends := ms + [m], out + TranslateOne(m), at + [|out| + |TranslateOne(m)|];
    forall i | 0 <= i < |all| ensures Stretch(all, more, ends, i) {
      if i < |ms| {
        assert Stretch(ms, out, at, i);
        assert more[ends[i]..ends[i + 1]] == out[at[i]..at[i + 1]];
      } else {
        assert more[ends[i]..ends[i + 1]] == TranslateOne(m);
        OneIsCarried(m);
      }
    }
  }

  lemma TranslateSnoc(system: string, ms: seq<Message>, m: Message)
    ensures Translate(system, ms + [m]) == Translate(system, ms) + TranslateOne(m)
  {
    TranslateAppend(ms, [m]);
    assert [m][1..] == [];
  }

  lemma {:induction false} TranslationIsConversation(system: string, ms: seq<Message>) returns (at: seq<nat>)
    ensures Conversation(system, ms, Translate(system, ms), at)
  {
    if ms == [] {
      at := [1];
    } else {
      var n := |ms| - 1;
      var front := TranslationIsConversation(system, ms[..n]);
      TranslateSnoc(system, ms[..n], ms[n]);
      Snoc(ms, n);
      Converse(system, ms[..n], ms[n], Translate(system, ms[..n]), front);
      at := front + [|Translate(system, ms)|];
    }
  }

  // ─── The translation as the client runs it ──────────────────────────────────

  /** A user turn of blocks: results as they come, the texts gathered behind them. */
  method TranslateUserBlocks(blocks: seq<Block>) returns (out: seq<ChatMessage>)
    ensures UserCarried(blocks, out)
    ensures out == TranslateOne(Message(User, Blocks(blocks)))
  {
    out := [];
    var textParts: seq<string> := [];
    for j := 0 to |blocks|
      invariant out + Results(blocks[j..]) == Results(blocks)
      invariant textParts + Texts(blocks[j..]) == Texts(blocks)
    {
      assert blocks[j..][1..] == blocks[j + 1..];
      if blocks[j].ToolResult? {
        out := out + [ToolMessage(blocks[j].toolUseId, ResultText(blocks[j]))];
      } else if blocks[j].Text? {
        textParts := textParts + [blocks[j].text];
      }
    }
    assert out == Results(blocks) && textParts == Texts(blocks);
    if textParts != [] {
      out := out + [UserMessage(Join(textParts, "\n"))];
    }
    UserIsCarried(blocks);
  }

  method TranslateAssistant(content: Content) returns (message: ChatMessage)
    ensures AssistantCarried(Promote(content), message)
    ensures [message] == TranslateOne(Message(Assistant, content))
  {
    var textParts: seq<string>, toolCalls: seq<ToolCall> := [], [];
    var blocks := Promote(content);
    for j := 0 to |blocks|
      invariant textParts + Texts(blocks[j..]) == Texts(blocks)
      invariant toolCalls + Calls(blocks[j..]) == Calls(blocks)
    {
      assert blocks[j..][1..] == blocks[j + 1..];
      if blocks[j].Text? {
        textParts := textParts + [blocks[j].text];
      } else if blocks[j].ToolUse? {
        toolCalls := toolCalls + [ToolCall(blocks[j].id, blocks[j].name, Arguments(blocks[j].input))];
      }
    }
    assert textParts == Texts(blocks) && toolCalls == Calls(blocks);
    message := AssistantMessage(Join(textParts, "\n"), toolCalls);
    AssistantIsCarried(blocks);
  }

  lemma TranslateNext(out: seq<ChatMessage>, messages: seq<Message>, i: nat)
    requires i < |messages|
    ensures out + TranslateAll(messages[i..]) == out + TranslateOne(messages[i]) + TranslateAll(messages[i + 1..])
  {
    assert messages[i..][1..] == messages[i + 1..];
  }

  /** Nothing is lost, added or reordered: the conversation has a stretch for each message. */
  method ToMistralMessages(system: string, messages: seq<Message>) returns (out: seq<ChatMessage>, ghost at: seq<nat>)
    ensures Conversation(system, messages, out, at)
    ensures out == Translate(system, messages)
  {
    out := [SystemMessage(system)];
    for i := 0 to |messages|
      invariant out + TranslateAll(messages[i..]) == Translate(system, messages)
    {
      var m := messages[i];
      TranslateNext(out, messages, i);
      if m.role.User? && m.content.Str? {
        out := out + [UserMessage(m.content.s)];
      } else if m.role.User? {
        var translated := TranslateUserBlocks(m.content.blocks);
        out := out + translated;
      } else {
        var message := TranslateAssistant(m.content);
        out := out + [message];
      }
    }
    assert out == Translate(system, messages);
    at := TranslationIsConversation(system, messages);
  }

  // ─── The marker is where it should be, and invisible to the translation ─────

  /** The set markers of a history, as (message, block) positions. */
  ghost predicate MarkedAt(ms: seq<Message>, i: int, j: int) {
    && 0 <= i < |ms| && ms[i].content.Blocks? && 0 <= j < |ms[i].content.blocks|
    && ms[i].content.blocks[j].cache.Ephemeral?
  }

  lemma {:induction false} StripBlocksAt(blocks: seq<Block>)
    ensures |StripBlocks(blocks)| == |blocks|
    ensures forall j | 0 <= j < |blocks| :: StripBlocks(blocks)[j] == StripMark(blocks[j])
  {
    if blocks != [] { StripBlocksAt(blocks[1..]); }
  }

  lemma {:induction false} StripAllAt(ms: seq<Message>)
    ensures |StripAll(ms)| == |ms|
    ensures forall i | 0 <= i < |ms| :: StripAll(ms)[i] == Strip(ms[i])
  {
    if ms != [] { StripAllAt(ms[1..]); }
  }

  lemma StrippedUnmarked(m: Message, j: int)
    requires Strip(m).content.Blocks? && 0 <= j < |Strip(m).content.blocks|
    ensures !Strip(m).content.blocks[j].cache.Ephemeral?
  {
    StripBlocksAt(m.content.blocks);
  }

  /** Whatever markers the history carried, exactly one is left, on the last block of the
      last message; there is none only if that message has no block to carry it. */
  lemma OneMarkerAtTheTail(ms: seq<Message>, i: int, j: int)
    ensures MarkedAt(WithRollingCache(ms), i, j) <==>
              ms != [] && i == |ms| - 1 && j == |Promote(ms[i].content)| - 1 && j >= 0
  {
    StripAllAt(ms);
    if ms != [] && 0 <= i < |ms| {
      var out := WithRollingCache(ms);
      if i < |ms| - 1 {
        assert out[i] == Strip(ms[i]);
        if MarkedAt(out, i, j) { StrippedUnmarked(ms[i], j); }
      } else {
        var last := Strip(ms[i]);
        if ms[i].content.Blocks? { StripBlocksAt(ms[i].content.blocks); }
        assert |Promote(last.content)| == |Promote(ms[i].content)|;
        assert out[i].content == Blocks(MarkTail(Promote(last.content)));
        if MarkedAt(out, i, j) && j < |Promote(last.content)| - 1 && ms[i].content.Blocks? {
          StrippedUnmarked(ms[i], j);
        }
      }
    }
  }

  /** The block without any marker. */
  function Bare(b: Block): Block { b.(cache := Unmarked) }

  /** Same blocks up to markers. */
  ghost predicate SameButMarks(a: seq<Block>, b: seq<Block>) {
    |a| == |b| && forall j | 0 <= j < |a| :: Bare(a[j]) == Bare(b[j])
  }

  lemma {:induction false} MarksUntranslated(a: seq<Block>, b: seq<Block>)
    requires SameButMarks(a, b)
    ensures Texts(a) == Texts(b) && Results(a) == Results(b) && Calls(a) == Calls(b)
  {
    if a == [] {
    } else {
      assert Bare(a[0]) == Bare(b[0]);
      MarksUntranslated(a[1..], b[1..]);
    }
  }

  lemma {:induction false} StripUntranslated(ms: seq<Message>)
    ensures TranslateAll(StripAll(ms)) == TranslateAll(ms)
  {
    if ms == [] {
    } else {
      StripUntranslated(ms[1..]);
      StripOneUntranslated(ms[0]);
    }
  }

  lemma StripOneUntranslated(m: Message)
    ensures TranslateOne(Strip(m)) == TranslateOne(m)
  {
    if m.content.Blocks? {
      StripBlocksAt(m.content.blocks);
      MarksUntranslated(StripBlocks(m.content.blocks), m.content.blocks);
    }
  }

  /** Promoting the last message and marking its tail changes nothing either. */
  lemma MarkUntranslated(m: Message)
    ensures TranslateOne(Marked(m)) == TranslateOne(m)
  {
    var blocks := Promote(m.content);
    MarksUntranslated(MarkTail(blocks), blocks);
    if m.content.Str? {
      assert Texts(blocks) == [m.content.s] + Texts([]) && Results(blocks) == [] + Results([]);
    }
  }

  /** The marker, and the promotion of a string to a block, never reach the other dialect. */
  lemma CacheInvisible(system: string, ms: seq<Message>)
    ensures Translate(system, WithRollingCache(ms)) == Translate(system, ms)
  {
    StripUntranslated(ms);
    StripAllAt(ms);
    if ms != [] {
      LastReplaced(StripAll(ms));
    }
  }

  lemma StripKeeps(m: Message)
    ensures Strip(m).role == m.role && SameButMarks(Promote(Strip(m).content), Promote(m.content))
  {
    if m.content.Blocks? { StripBlocksAt(m.content.blocks); }
  }

  lemma MarkKeeps(m: Message)
    ensures Marked(m).role == m.role && SameButMarks(Promote(Marked(m).content), Promote(m.content))
  {
  }

  lemma SameTrans(a: seq<Block>, b: seq<Block>, c: seq<Block>)
    requires SameButMarks(a, b) && SameButMarks(b, c)
    ensures SameButMarks(a, c)
  {
  }

  /** The marker moves; roles, blocks and order stay. */
  lemma CacheKeepsContent(ms: seq<Message>, i: nat)
    requires i < |ms|
    ensures |WithRollingCache(ms)| == |ms| && WithRollingCache(ms)[i].role == ms[i].role
    ensures SameButMarks(Promote(WithRollingCache(ms)[i].content), Promote(ms[i].content))
  {
    StripAllAt(ms);
    StripKeeps(ms[i]);
    if i == |ms| - 1 {
      var stripped := Strip(ms[i]);
      MarkKeeps(stripped);
      SameTrans(Promote(Marked(stripped).content), Promote(stripped.content), Promote(ms[i].content));
    }
  }

  lemma LastReplaced(ms: seq<Message>)
    requires ms != []
    ensures var last := ms[|ms| - 1];
            TranslateAll(ms[..|ms| - 1] + [Marked(last)]) == TranslateAll(ms)
  {
    var front, last := ms[..|ms| - 1], ms[|ms| - 1];
    MarkUntranslated(last);
    SameLast(front, last, Marked(last));
    Snoc(ms, |ms| - 1);
  }

  lemma SameLast(front: seq<Message>, a: Message, b: Message)
    requires TranslateOne(a) == TranslateOne(b)
    ensures TranslateAll(front + [a]) == TranslateAll(front + [b])
  {
    TranslateAppend(front, [a]);
    TranslateAppend(front, [b]);
    assert [a][1..] == [] && [b][1..] == [];
  }

  // ─── Tool calls and their answers ───────────────────────────────────────────

  /** One round of the loop: the model's reply and the user message that answers it. */
  datatype Turn = Turn(reply: seq<Block>, answer: Content)

  function Rounds(turns: seq<Turn>): seq<Message> {
    if turns == [] then []
    else
      [Message(Assistant, Blocks(turns[0].reply)), Message(User, turns[0].answer)] + Rounds(turns[1..])
  }

  /** The history after those rounds. */
  function History(seed: string, turns: seq<Turn>): seq<Message> {
    [Message(User, Str(seed))] + Rounds(turns)
  }

  predicate Alternating(ms: seq<Message>) {
    |ms| % 2 == 1 && forall i | 0 <= i < |ms| :: ms[i].role == if i % 2 == 0 then User else Assistant
  }

  lemma {:induction false} RoundsAlternate(turns: seq<Turn>)
    ensures |Rounds(turns)| == 2 * |turns|
    ensures forall i | 0 <= i < |Rounds(turns)| :: Rounds(turns)[i].role == if i % 2 == 0 then Assistant else User
  {
    if turns != [] { RoundsAlternate(turns[1..]); }
  }

  /** Roles alternate, and the first and last messages are the user's. */
  lemma HistoryAlternates(seed: string, turns: seq<Turn>)
    ensures Alternating(History(seed, turns))
  {
    RoundsAlternate(turns);
  }

  lemma {:induction false} RoundsSnoc(turns: seq<Turn>, t: Turn)
    ensures Rounds(turns + [t]) == Rounds(turns) + [Message(Assistant, Blocks(t.reply)), Message(User, t.answer)]
  {
    if turns == [] {
      assert turns + [t] == [t] && [t][1..] == [];
    } else {
      assert (turns + [t])[1..] == turns[1..] + [t];
      RoundsSnoc(turns[1..], t);
    }
  }

  function UseIds(blocks: seq<Block>): seq<string> {
    if blocks == [] then [] else (if blocks[0].ToolUse? then [blocks[0].id] else []) + UseIds(blocks[1..])
  }

  function ResultIds(c: Content): seq<string> {
    if c.Str? then [] else BlockResultIds(c.blocks)
  }

  function BlockResultIds(blocks: seq<Block>): seq<string> {
    if blocks == [] then []
    else (if blocks[0].ToolResult? then [blocks[0].toolUseId] else []) + BlockResultIds(blocks[1..])
  }

  function CallIds(calls: seq<ToolCall>): seq<string> {
    if calls == [] then [] else [calls[0].id] + CallIds(calls[1..])
  }

  /** The call ids of the tool messages that open a translated conversation. */
  function ToolRun(out: seq<ChatMessage>): seq<string> {
    if out == [] || !out[0].ToolMessage? then [] else [out[0].callId] + ToolRun(out[1..])
  }

  /** Every assistant message with calls id1..idk is followed at once by exactly k tool
      messages, with those ids in that order. */
  predicate Answered(out: seq<ChatMessage>) {
    out == [] ||
    ((out[0].AssistantMessage? ==> ToolRun(out[1..]) == CallIds(out[0].calls)) && Answered(out[1..]))
  }

  lemma {:induction false} CallIdsAreUseIds(blocks: seq<Block>)
    ensures CallIds(Calls(blocks)) == UseIds(blocks)
  {
    if blocks == [] {
    } else {
      CallIdsAreUseIds(blocks[1..]);
      if blocks[0].ToolUse? { assert Calls(blocks)[1..] == Calls(blocks[1..]); }
      else { assert Calls(blocks) == Calls(blocks[1..]); }
    }
  }

  lemma ToolFirst(id: string, text: string, rest: seq<ChatMessage>)
    ensures ToolRun([ToolMessage(id, text)] + rest) == [id] + ToolRun(rest)
    ensures Answered([ToolMessage(id, text)] + rest) <==> Answered(rest)
  {
    assert ([ToolMessage(id, text)] + rest)[1..] == rest;
  }

  /** Result messages at the front are read off, then the run goes on with the rest. */
  lemma {:induction false} RunOfResults(blocks: seq<Block>, rest: seq<ChatMessage>)
    ensures ToolRun(Results(blocks) + rest) == BlockResultIds(blocks) + ToolRun(rest)
    ensures Answered(Results(blocks) + rest) <==> Answered(rest)
  {
    if blocks == [] {
      assert Results(blocks) + rest == rest;
    } else {
      RunOfResults(blocks[1..], rest);
      var tail := Results(blocks[1..]) + rest;
      if blocks[0].ToolResult? {
        var text := ResultText(blocks[0]);
        ToolFirst(blocks[0].toolUseId, text, tail);
        assert Results(blocks) == [ToolMessage(blocks[0].toolUseId, text)] + Results(blocks[1..]);
        assert Results(blocks) + rest == [ToolMessage(blocks[0].toolUseId, text)] + tail;
        assert BlockResultIds(blocks) == [blocks[0].toolUseId] + BlockResultIds(blocks[1..]);
        assert [blocks[0].toolUseId] + (BlockResultIds(blocks[1..]) + ToolRun(rest)) == BlockResultIds(blocks) + ToolRun(rest);
      } else {
        assert Results(blocks) == Results(blocks[1..]) && BlockResultIds(blocks) == BlockResultIds(blocks[1..]);
      }
    }
  }

  lemma AnswerTranslates(answer: Content, rest: seq<ChatMessage>)
    requires rest == [] || !rest[0].ToolMessage?
    ensures ToolRun(TranslateOne(Message(User, answer)) + rest) == ResultIds(answer)
    ensures Answered(TranslateOne(Message(User, answer)) + rest) <==> Answered(rest)
  {
    if answer.Str? {
      UserFirst(answer.s, rest);
    } else {
      UserShape(answer.blocks, rest);
      UserFirst(Join(Texts(answer.blocks), "\n"), rest);
      ResultsThen(answer.blocks, UserTail(answer.blocks, rest));
    }
  }

  /** What follows the results of a user message: its texts, gathered, if it has any. */
  function UserTail(blocks: seq<Block>, rest: seq<ChatMessage>): seq<ChatMessage> {
    if Texts(blocks) == [] then rest else [UserMessage(Join(Texts(blocks), "\n"))] + rest
  }

  lemma UserShape(blocks: seq<Block>, rest: seq<ChatMessage>)
    ensures TranslateOne(Message(User, Blocks(blocks))) + rest == Results(blocks) + UserTail(blocks, rest)
  {
    var said := if Texts(blocks) == [] then [] else [UserMessage(Join(Texts(blocks), "\n"))];
    assert UserTail(blocks, rest) == said + rest;
    assert Results(blocks) + said + rest == Results(blocks) + (said + rest);
  }

  lemma ResultsThen(blocks: seq<Block>, tail: seq<ChatMessage>)
    requires ToolRun(tail) == []
    ensures ToolRun(Results(blocks) + tail) == BlockResultIds(blocks)
    ensures Answered(Results(blocks) + tail) <==> Answered(tail)
  {
    RunOfResults(blocks, tail);
    assert BlockResultIds(blocks) + [] == BlockResultIds(blocks);
  }

  lemma UserFirst(text: string, rest: seq<ChatMessage>)
    ensures ToolRun([UserMessage(text)] + rest) == []
    ensures Answered([UserMessage(text)] + rest) <==> Answered(rest)
  {
    assert ([UserMessage(text)] + rest)[1..] == rest;
  }

  /** One round translates to its assistant message and what answers it. */
  lemma RoundTranslates(t: Turn, rest: seq<Message>)
    ensures TranslateAll([Message(Assistant, Blocks(t.reply)), Message(User, t.answer)] + rest)
            == [AssistantMessage(Join(Texts(t.reply), "\n"), Calls(t.reply))]
               + (TranslateOne(Message(User, t.answer)) + TranslateAll(rest))
  {
    var reply, answer := Message(Assistant, Blocks(t.reply)), Message(User, t.answer);
    var ms := [reply, answer] + rest;
    assert ms[1..] == [answer] + rest && ms[1..][1..] == rest;
  }

  predicate AnswersItsCalls(t: Turn) { UseIds(t.reply) == ResultIds(t.answer) }

  lemma {:induction false} RoundsAnswered(turns: seq<Turn>)
    ensures Answered(TranslateAll(Rounds(turns))) <==> forall k | 0 <= k < |turns| :: AnswersItsCalls(turns[k])
    ensures turns != [] ==> TranslateAll(Rounds(turns)) != [] && TranslateAll(Rounds(turns))[0].AssistantMessage?
  {
    if turns == [] {
    } else {
      RoundsAnswered(turns[1..]);
      RoundTranslates(turns[0], Rounds(turns[1..]));
      FirstRound(turns[0], TranslateAll(Rounds(turns[1..])));
      EachOrRest(turns);
    }
  }

  lemma FirstRound(t: Turn, rest: seq<ChatMessage>)
    requires rest == [] || !rest[0].ToolMessage?
    ensures Answered([AssistantMessage(Join(Texts(t.reply), "\n"), Calls(t.reply))] + (TranslateOne(Message(User, t.answer)) + rest))
            <==> AnswersItsCalls(t) && Answered(rest)
  {
    var head, tail := AssistantMessage(Join(Texts(t.reply), "\n"), Calls(t.reply)), TranslateOne(Message(User, t.answer)) + rest;
    assert ([head] + tail)[1..] == tail;
    AnswerTranslates(t.answer, rest);
    CallIdsAreUseIds(t.reply);
  }

  lemma EachOrRest(turns: seq<Turn>)
    requires turns != []
    ensures (forall k | 0 <= k < |turns| :: AnswersItsCalls(turns[k]))
            <==> AnswersItsCalls(turns[0]) && forall k | 0 <= k < |turns[1..]| :: AnswersItsCalls(turns[1..][k])
  {
    if forall k | 0 <= k < |turns[1..]| :: AnswersItsCalls(turns[1..][k]) {
      forall k | 1 <= k < |turns| ensures AnswersItsCalls(turns[k]) {
        assert turns[1..][k - 1] == turns[k];
      }
    }
  }

  /** A history translates to a conversation in which every call is answered at once and in
      order, exactly when each round answers the calls of its own reply. */
  lemma HistoryAnswered(system: string, seed: string, turns: seq<Turn>)
    ensures Answered(Translate(system, History(seed, turns))) <==>
              forall k | 0 <= k < |turns| :: AnswersItsCalls(turns[k])
  {
    RoundsAnswered(turns);
    var ms := History(seed, turns);
    assert ms[1..] == Rounds(turns);
    var out := Translate(system, ms);
    assert out[1..] == [UserMessage(seed)] + TranslateAll(Rounds(turns));
    assert out[1..][1..] == TranslateAll(Rounds(turns));
  }
}
