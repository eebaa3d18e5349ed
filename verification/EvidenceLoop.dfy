/** Token accounting: four classes, the cache ones optional. */
module TokenUsage {
  import opened Common

  datatype Usage = Usage(input: nat, output: nat, cacheCreation: Option<nat>, cacheRead: Option<nat>)

  const NO_TOKENS: Usage := Usage(0, 0, Some(0), Some(0))

  function TotalTokens(u: Usage): nat {
    u.input + u.output + u.cacheCreation.GetOr(0) + u.cacheRead.GetOr(0)
  }

  datatype TokenClass = InputTokens | OutputTokens | CacheWrites | CacheReads

  function TokensOf(u: Usage, c: TokenClass): nat {
    match c
    case InputTokens => u.input
    case OutputTokens => u.output
    case CacheWrites => u.cacheCreation.GetOr(0)
    case CacheReads => u.cacheRead.GetOr(0)
  }

  function AddTokens(a: Usage, b: Usage): Usage {
    Usage(a.input + b.input, a.output + b.output,
          Some(a.cacheCreation.GetOr(0) + b.cacheCreation.GetOr(0)),
          Some(a.cacheRead.GetOr(0) + b.cacheRead.GetOr(0)))
  }
}

/**
 BaseAgent.run: the bounded evidence loop. The model, the fence and the tools are
 arbitrary oracles; nothing is assumed about their answers.
 */
module EvidenceLoop {
  import opened Common
  import opened Seqs
  import opened Json
  import opened SchemaKit
  import opened ChatDialect
  import opened TokenUsage

  const RESERVE_TOKENS := 8_000
  const DEFAULT_AGENT_TOKEN_BUDGET := 200_000

  const EMIT_PREFIX := "emit_"

  /** An agent: the spec of its output, its turn cap, and how many turns of evidence are asked
      for (a fraction of the cap, rounded up). */
  datatype Agent = Agent(agentType: string, output: Spec, maxTurns: nat, wantedTurns: int) {

    /** The tool the agent calls to answer. */
    function EmitTool(): string { EMIT_PREFIX + agentType }

    /** The validator behind it. */
    function Check(input: Json): Validated { Validate(output, input, agentType) }
  }

  datatype Context = Context(hasTools: bool, seed: string, agentTokenBudget: Option<int>)

  datatype Reply = Reply(content: seq<Block>, usage: Usage) | CallFailed(error: string)

  datatype Liveness = Alive | Superseded | ReadFailed(error: string)

  datatype ToolOutcome = Output(text: string) | ToolError(text: string)

  datatype Failure = NoToolContext | NeverEmitted | InvalidOutput(errors: seq<Error>) | Thrown(error: string)

  datatype Result =
    | Success(output: Json, tokensUsed: Usage)
    | Failed(failure: Failure, tokensUsed: Usage)
    | Fenced

  /** How the loop disposed of one model call. */
  datatype Verdict =
    | Nudged       // prose, no tool call
    | SentToRepair // invalid emit, one extra turn granted
    | SentBack     // emit before the evidence floor
    | RanTools
    | Accepted     // emit taken as the answer, valid or not
    | Aborted      // the call threw, or an emit of null could not be sent to repair

  /** History of one call: what was spent before it, what was sent, what came back. */
  datatype Call = Call(spent: nat, forced: bool, sent: seq<Message>, reply: Reply, verdict: Verdict)

  function EvidenceFloor(a: Agent): int {
    Min(a.maxTurns - 1, a.wantedTurns)
  }

  function Cap(ctx: Context): int { ctx.agentTokenBudget.GetOr(DEFAULT_AGENT_TOKEN_BUDGET) }

  function ToolUses(content: seq<Block>): seq<Block> {
    if content == [] then [] else (if content[0].ToolUse? then [content[0]] else []) + ToolUses(content[1..])
  }

  predicate CallsTool(use: Block, tool: string) { use.ToolUse? && use.name == tool }

  /** The first call of the emit tool. */
  function FindEmit(uses: seq<Block>, emitTool: string): (emit: Option<Block>)
    ensures emit.None? <==> forall u | u in uses :: !CallsTool(u, emitTool)
    ensures emit.Some? ==>
              exists k | 0 <= k < |uses| ::
                uses[k] == emit.value && CallsTool(uses[k], emitTool) && forall j | 0 <= j < k :: !CallsTool(uses[j], emitTool)
  {
    if uses == [] then None
    else if CallsTool(uses[0], emitTool) then Some(uses[0])
    else
      assert forall u :: u in uses <==> u == uses[0] || u in uses[1..];
      FindEmit(uses[1..], emitTool)
  }

  /** The emit of a reply, if it has one. */
  function Emission(a: Agent, content: seq<Block>): Option<Block> { FindEmit(ToolUses(content), a.EmitTool()) }

  function Rejection(emit: Block, text: string): Content
    requires emit.ToolUse?
  {
    Blocks([ToolResult(emit.id, Plain(text), true, Unmarked)])
  }

  function ResultOf(use: Block, outcome: ToolOutcome): Block
    requires use.ToolUse?
  {
    ToolResult(use.id, Plain(outcome.text), outcome.ToolError?, Unmarked)
  }

  function MarkTruncated(output: Json, forced: bool): Json {
    if forced && output.JObj? then JObj(output.fields["truncated" := JBool(true)]) else output
  }

  // ─── What the calls add up to ───────────────────────────────────────────────

  /** Usage of the calls that completed. */
  function SumUsage(calls: seq<Call>): Usage {
    if calls == [] then NO_TOKENS
    else
      var before := SumUsage(calls[..|calls| - 1]);
      var reply := calls[|calls| - 1].reply;
      if reply.Reply? then AddTokens(before, reply.usage) else before
  }

  /** The tokens of one class, of the calls that completed. */
  function CostOf(calls: seq<Call>, c: TokenClass): nat {
    if calls == [] then 0
    else
      var reply := calls[|calls| - 1].reply;
      CostOf(calls[..|calls| - 1], c) + (if reply.Reply? then TokensOf(reply.usage, c) else 0)
  }

  /** All their tokens. */
  function Cost(calls: seq<Call>): nat {
    CostOf(calls, InputTokens) + CostOf(calls, OutputTokens) + CostOf(calls, CacheWrites) + CostOf(calls, CacheReads)
  }

  function Repairs(calls: seq<Call>): nat {
    if calls == [] then 0
    else Repairs(calls[..|calls| - 1]) + (if calls[|calls| - 1].verdict.SentToRepair? then 1 else 0)
  }

  predicate EmitsIn(a: Agent, content: seq<Block>) {
    Emission(a, content).Some?
  }

  predicate Emits(a: Agent, call: Call) {
    call.reply.Reply? && EmitsIn(a, call.reply.content)
  }

  /** The result of a call names it and holds what its tool put out, or its error, marked as one. */
  predicate Reports(use: Block, outcome: ToolOutcome, result: Block) {
    && use.ToolUse? && result.ToolResult? && result.toolUseId == use.id
    && match outcome
       case Output(text) => result.content == Plain(text) && !result.isError
       case ToolError(text) => result.content == Plain(text) && result.isError
  }

  /** Every requested tool was run, and the outcomes came back in order, in one message. */
  ghost predicate ToolsAnswer(uses: seq<Block>, answer: seq<Block>, runTool: Block -> ToolOutcome) {
    |answer| == |uses| && forall i | 0 <= i < |uses| :: Reports(uses[i], runTool(uses[i]), answer[i])
  }

  /** The emit, and it alone, comes back as an error, with a text that says why. */
  ghost predicate Rejects(emit: Option<Block>, answer: seq<Block>) {
    && emit.Some? && |answer| == 1
    && exists text :: Reports(emit.value, ToolError(text), answer[0])
  }

  lemma RejectionRejects(emit: Block, text: string)
    requires emit.ToolUse?
    ensures Rejects(Some(emit), Promote(Rejection(emit, text)))
  {
    assert Reports(emit, ToolError(text), Rejection(emit, text).blocks[0]);
  }

  /** A text that names the emit tool. */
  ghost predicate Reminds(a: Agent, answer: seq<Block>) {
    && |answer| == 1 && answer[0].Text?
    && exists before, after :: answer[0].text == before + a.EmitTool() + after
  }

  function Reminder(a: Agent): Content { Content.Str("Call " + a.EmitTool() + " with your findings now.") }

  lemma ReminderReminds(a: Agent)
    ensures Reminds(a, Promote(Reminder(a)))
  {
    assert Promote(Reminder(a))[0].text == "Call " + a.EmitTool() + " with your findings now.";
  }

  /** The blocks of the user message that answers a reply the loop goes on from. */
  ghost predicate Answers(a: Agent, runTool: Block -> ToolOutcome, content: seq<Block>, verdict: Verdict, answer: seq<Block>) {
    var uses := ToolUses(content);
    match verdict
    case Nudged => uses == [] && Reminds(a, answer)
    case SentToRepair => Rejects(FindEmit(uses, a.EmitTool()), answer)
    case SentBack => Rejects(FindEmit(uses, a.EmitTool()), answer)
    case RanTools => uses != [] && !EmitsIn(a, content) && ToolsAnswer(uses, answer, runTool)
    case _ => false
  }

  /** A call that does not end the loop is answered by one round of the history. */
  ghost predicate AnsweredBy(a: Agent, runTool: Block -> ToolOutcome, call: Call, turn: Turn) {
    && call.reply.Reply? && turn.reply == call.reply.content
    && Answers(a, runTool, call.reply.content, call.verdict, Promote(turn.answer))
  }

  /** An emit worth one extra turn: invalid, none granted yet, and the budget allows it. */
  predicate Repairable(a: Agent, input: Json, repairs: nat, remaining: int) {
    a.Check(input).Err? && repairs == 0 && remaining > RESERVE_TOKENS
  }

  /** Below the evidence floor, and not forced. */
  predicate TooEarly(a: Agent, turn: nat, forced: bool) { !forced && turn < EvidenceFloor(a) }

  /** Which verdict a reply gets, each exactly when. Sending an emit to repair lists the keys
      of its input for the log; null has none to list, and the run aborts. */
  ghost predicate Judged(a: Agent, content: seq<Block>, turn: nat, forced: bool, repairs: nat, remaining: int, verdict: Verdict) {
    var emit := Emission(a, content);
    && (verdict.Nudged? <==> ToolUses(content) == [])
    && (verdict.RanTools? <==> ToolUses(content) != [] && emit.None?)
    && (verdict.SentToRepair? <==>
          emit.Some? && Repairable(a, emit.value.input, repairs, remaining) && !emit.value.input.JNull?)
    && (verdict.Aborted? <==>
          emit.Some? && Repairable(a, emit.value.input, repairs, remaining) && emit.value.input.JNull?)
    && (verdict.SentBack? <==>
          emit.Some? && !Repairable(a, emit.value.input, repairs, remaining) && TooEarly(a, turn, forced))
    && (verdict.Accepted? <==>
          emit.Some? && !Repairable(a, emit.value.input, repairs, remaining) && !TooEarly(a, turn, forced))
  }

  /** What one call of the loop obeys, given the calls before it. */
  ghost predicate CallObeys(a: Agent, ctx: Context, before: seq<Call>, call: Call) {
    var remaining := Cap(ctx) - call.spent;
    && |before| < a.maxTurns + Repairs(before)
    && call.spent == TotalTokens(SumUsage(before))
    // forced on the last turn allowed or the last one affordable, and only then
    && (call.forced <==> |before| + 1 == a.maxTurns + Repairs(before) || remaining <= RESERVE_TOKENS)
    && (if call.reply.CallFailed? then call.verdict.Aborted?
        else Judged(a, call.reply.content, |before| + 1, call.forced, Repairs(before), remaining, call.verdict))
  }

  ghost predicate CallsObey(a: Agent, ctx: Context, calls: seq<Call>) {
    calls == [] || (CallsObey(a, ctx, calls[..|calls| - 1]) && CallObeys(a, ctx, calls[..|calls| - 1], calls[|calls| - 1]))
  }

  lemma {:induction false} ObeysAt(a: Agent, ctx: Context, calls: seq<Call>, k: nat)
    requires CallsObey(a, ctx, calls) && k < |calls|
    ensures CallObeys(a, ctx, calls[..k], calls[k])
    decreases calls
  {
    if k < |calls| - 1 {
      ObeysAt(a, ctx, calls[..|calls| - 1], k);
      assert calls[..|calls| - 1][..k] == calls[..k];
    }
  }

  /** Every call but possibly the last was answered by its round. */
  ghost predicate RoundsAnswer(a: Agent, runTool: Block -> ToolOutcome, calls: seq<Call>, turns: seq<Turn>) {
    |turns| <= |calls| && forall k {:trigger turns[k]} | 0 <= k < |turns| :: AnsweredBy(a, runTool, calls[k], turns[k])
  }

  ghost predicate SentAfter(seed: string, turns: seq<Turn>, call: Call) {
    call.sent == WithRollingCache(History(seed, turns))
  }

  /** Each call was sent the history before it. */
  ghost predicate HistorySent(seed: string, calls: seq<Call>, turns: seq<Turn>) {
    forall k {:trigger turns[..k]} | 0 <= k < |calls| && k <= |turns| :: SentAfter(seed, turns[..k], calls[k])
  }

  /** The rounds are the history, and each call was sent the history before it. */
  ghost predicate HistoryKept(a: Agent, runTool: Block -> ToolOutcome, seed: string, calls: seq<Call>, turns: seq<Turn>) {
    RoundsAnswer(a, runTool, calls, turns) && HistorySent(seed, calls, turns)
  }

  // ─── The loop ───────────────────────────────────────────────────────────────

  method RunTools(uses: seq<Block>, runTool: Block -> ToolOutcome) returns (results: seq<Block>)
    requires forall u | u in uses :: u.ToolUse?
    ensures ToolsAnswer(uses, results, runTool)
  {
    results := [];
    for i := 0 to |uses|
      invariant |results| == i && forall j | 0 <= j < i :: Reports(uses[j], runTool(uses[j]), results[j])
    {
      results := results + [ResultOf(uses[i], runTool(uses[i]))];
    }
  }

  lemma {:induction false} SameIds(uses: seq<Block>, results: seq<Block>)
    requires |uses| == |results|
    requires forall i | 0 <= i < |uses| :: uses[i].ToolUse? && results[i].ToolResult? && results[i].toolUseId == uses[i].id
    ensures BlockResultIds(results) == UseIds(uses)
  {
    if uses != [] { SameIds(uses[1..], results[1..]); }
  }

  lemma {:induction false} ToolUsesAre(content: seq<Block>)
    ensures forall u | u in ToolUses(content) :: u.ToolUse?
    ensures UseIds(ToolUses(content)) == UseIds(content)
    ensures |UseIds(content)| == |ToolUses(content)|
  {
    if content == [] {
    } else {
      ToolUsesAre(content[1..]);
      if content[0].ToolUse? {
        assert ToolUses(content)[1..] == ToolUses(content[1..]);
      } else {
        assert ToolUses(content) == ToolUses(content[1..]);
      }
    }
  }

  /** Extending the history by one obedient call. */
  lemma Obey(a: Agent, ctx: Context, calls: seq<Call>, call: Call)
    requires CallsObey(a, ctx, calls) && CallObeys(a, ctx, calls, call)
    ensures CallsObey(a, ctx, calls + [call])
  {
    assert (calls + [call])[..|calls|] == calls;
  }

  lemma Sums(calls: seq<Call>, call: Call)
    ensures Repairs(calls + [call]) == Repairs(calls) + (if call.verdict.SentToRepair? then 1 else 0)
    ensures SumUsage(calls + [call]) == if call.reply.Reply? then AddTokens(SumUsage(calls), call.reply.usage) else SumUsage(calls)
  {
    assert (calls + [call])[..|calls|] == calls;
  }

  lemma KeepRounds(a: Agent, runTool: Block -> ToolOutcome, calls: seq<Call>, turns: seq<Turn>, call: Call)
    requires RoundsAnswer(a, runTool, calls, turns)
    ensures RoundsAnswer(a, runTool, calls + [call], turns)
  {
  }

  lemma KeepSent(seed: string, calls: seq<Call>, turns: seq<Turn>, call: Call)
    requires HistorySent(seed, calls, turns) && |turns| == |calls| && SentAfter(seed, turns, call)
    ensures HistorySent(seed, calls + [call], turns)
  {
    forall k | 0 <= k <= |calls| ensures SentAfter(seed, turns[..k], (calls + [call])[k]) {
      if k == |calls| { assert turns[..k] == turns; }
    }
  }

  lemma AddRound(a: Agent, runTool: Block -> ToolOutcome, seed: string, calls: seq<Call>, turns: seq<Turn>, call: Call, turn: Turn)
    requires HistoryKept(a, runTool, seed, calls + [call], turns) && |turns| == |calls|
    requires AnsweredBy(a, runTool, call, turn)
    ensures HistoryKept(a, runTool, seed, calls + [call], turns + [turn])
  {
    var all := calls + [call];
    forall k | 0 <= k < |all| ensures SentAfter(seed, (turns + [turn])[..k], all[k]) {
      assert (turns + [turn])[..k] == turns[..k];
    }
  }

  /** A success: the last call's emit passed the validator, at or past the evidence floor or
      forced, and the output is the validated value, marked exactly when it was forced. */
  ghost predicate Earned(a: Agent, calls: seq<Call>, output: Json) {
    calls != [] &&
    var last := calls[|calls| - 1];
    && last.verdict.Accepted? && Emits(a, last)
    && (last.forced || |calls| >= EvidenceFloor(a))
    && var emit := Emission(a, last.reply.content).value;
       exists value :: a.Check(emit.input) == Ok(value) && output == MarkTruncated(value, last.forced)
  }

  /** An emit that failed validation for good: its one repair was spent, or there was no budget left for it. */
  ghost predicate Refused(a: Agent, ctx: Context, calls: seq<Call>, errors: seq<Error>) {
    calls != [] &&
    var last := calls[|calls| - 1];
    && last.verdict.Accepted? && Emits(a, last)
    && a.Check(Emission(a, last.reply.content).value.input) == Err(errors)
    && (Repairs(calls) == 1 || Cap(ctx) - last.spent <= RESERVE_TOKENS)
  }

  const NO_KEYS := "Cannot convert undefined or null to object"

  /** The model call failed, or an emit of null was to be repaired. */
  ghost predicate Broke(a: Agent, calls: seq<Call>, error: string) {
    calls != [] &&
    var last := calls[|calls| - 1];
    last.verdict.Aborted? && (last.reply == CallFailed(error) || (last.reply.Reply? && error == NO_KEYS))
  }

  /** The calls are done; what does the result say about them? */
  ghost predicate Explains(a: Agent, ctx: Context, alive: nat -> Liveness, calls: seq<Call>, turns: seq<Turn>, r: Result) {
    match r
    case Fenced => |calls| == |turns| && alive(|calls|).Superseded?
    case Success(output, used) => used == SumUsage(calls) && |calls| == |turns| + 1 && Earned(a, calls, output)
    case Failed(failure, used) =>
      && used == SumUsage(calls)
      && match failure
         case NoToolContext => !ctx.hasTools && calls == []
         case NeverEmitted => |calls| == |turns| == a.maxTurns + Repairs(calls)
         case InvalidOutput(errors) => |calls| == |turns| + 1 && Refused(a, ctx, calls, errors)
         case Thrown(error) =>
           if |calls| == |turns| then alive(|calls|) == ReadFailed(error) else Broke(a, calls, error)
  }

  /** What the loop does with a reply: go on with an answer, or stop. */
  datatype Disposal =
    | GoOn(verdict: Verdict, reply: seq<Block>, answer: Content)
    | Deliver(output: Json)
    | GiveUp(failure: Failure)

  function VerdictOf(d: Disposal): Verdict {
    match d
    case GoOn(verdict, _, _) => verdict
    case Deliver(_) => Accepted
    case GiveUp(failure) => if failure.Thrown? then Aborted else Accepted
  }

  /** The part of the loop body after the model has replied. */
  method Dispose(a: Agent, content: seq<Block>, turn: nat, mustFinish: bool, remaining: int, repairTurns: nat,
                 runTool: Block -> ToolOutcome)
    returns (d: Disposal)
    requires remaining <= RESERVE_TOKENS ==> mustFinish
    ensures Judged(a, content, turn, mustFinish, repairTurns, remaining, VerdictOf(d))
    ensures d.GoOn? ==> d.reply == content && Answers(a, runTool, content, d.verdict, Promote(d.answer))
    ensures
      var emit := Emission(a, content);
      && (d.Deliver? ==>
            && emit.Some? && a.Check(emit.value.input).Ok?
            && d.output == MarkTruncated(a.Check(emit.value.input).value, mustFinish))
      && (d.GiveUp? ==>
            && emit.Some? && a.Check(emit.value.input).Err?
            && d.failure == if emit.value.input.JNull? && Repairable(a, emit.value.input, repairTurns, remaining)
                            then Thrown(NO_KEYS) else InvalidOutput(a.Check(emit.value.input).errors))
  {
    var toolUses := ToolUses(content);
    ToolUsesAre(content);
    var emit := FindEmit(toolUses, a.EmitTool());
    if toolUses == [] {
      ReminderReminds(a);
      return GoOn(Nudged, content, Reminder(a));
    }
    if emit.Some? {
      var check := a.Check(emit.value.input);
      var canRepair := check.Err? && repairTurns == 0 && remaining > RESERVE_TOKENS;
      if canRepair {
        if emit.value.input.JNull? {
          return GiveUp(Thrown(NO_KEYS));
        }
        RejectionRejects(emit.value, "Rejected");
        return GoOn(SentToRepair, content, Rejection(emit.value, "Rejected"));
      }
      var tooEarly := !mustFinish && turn < EvidenceFloor(a) && remaining > RESERVE_TOKENS;
      if tooEarly {
        RejectionRejects(emit.value, "Not yet");
        return GoOn(SentBack, content, Rejection(emit.value, "Not yet"));
      }
      return if check.Ok? then Deliver(MarkTruncated(check.value, mustFinish)) else GiveUp(InvalidOutput(check.errors));
    }
    var results := RunTools(toolUses, runTool);
    return GoOn(RanTools, content, Blocks(results));
  }

  /** The surroundings of one run: the fence read of each turn, the model, and the tools. */
  datatype Oracles = Oracles(alive: nat -> Liveness, converse: (nat, seq<Message>) -> Reply, runTool: Block -> ToolOutcome)

  lemma HistorySnoc(seed: string, turns: seq<Turn>, turn: Turn)
    ensures History(seed, turns + [turn])
            == History(seed, turns) + [Message(Assistant, Blocks(turn.reply)), Message(User, turn.answer)]
  {
    RoundsSnoc(turns, turn);
  }

  /** Each call was made after a fence read that let it through, and got the model's reply to what it sent. */
  ghost predicate Called(o: Oracles, calls: seq<Call>) {
    forall k | 0 <= k < |calls| :: o.alive(k).Alive? && calls[k].reply == o.converse(k, calls[k].sent)
  }

  lemma CallMade(o: Oracles, calls: seq<Call>, call: Call)
    requires Called(o, calls)
    requires o.alive(|calls|).Alive? && call.reply == o.converse(|calls|, call.sent)
    ensures Called(o, calls + [call])
  {
  }

  lemma OneRepair(a: Agent, ctx: Context, calls: seq<Call>, call: Call)
    requires Repairs(calls) <= 1 && CallObeys(a, ctx, calls, call)
    ensures Repairs(calls + [call]) <= 1
  {
    Sums(calls, call);
  }

  /** The calls and rounds of a run so far, each call made with the fence open and sent what the history says. */
  ghost predicate Faithful(a: Agent, ctx: Context, o: Oracles, calls: seq<Call>, turns: seq<Turn>) {
    && Repairs(calls) <= 1
    && CallsObey(a, ctx, calls)
    && HistoryKept(a, o.runTool, ctx.seed, calls, turns)
    && Called(o, calls)
  }

  /** The next call, just made. */
  ghost predicate Next(a: Agent, ctx: Context, o: Oracles, calls: seq<Call>, turns: seq<Turn>, call: Call) {
    && |turns| == |calls|
    && CallObeys(a, ctx, calls, call)
    && call.sent == WithRollingCache(History(ctx.seed, turns))
    && call.reply == o.converse(|calls|, call.sent)
    && o.alive(|calls|).Alive?
  }

  lemma Finish(a: Agent, ctx: Context, o: Oracles, calls: seq<Call>, turns: seq<Turn>, call: Call)
    requires Faithful(a, ctx, o, calls, turns) && Next(a, ctx, o, calls, turns, call)
    ensures Faithful(a, ctx, o, calls + [call], turns)
    ensures Repairs(calls + [call]) == Repairs(calls) + (if call.verdict.SentToRepair? then 1 else 0)
    ensures SumUsage(calls + [call]) == if call.reply.Reply? then AddTokens(SumUsage(calls), call.reply.usage) else SumUsage(calls)
  {
    Obey(a, ctx, calls, call);
    Sums(calls, call);
    OneRepair(a, ctx, calls, call);
    KeepRounds(a, o.runTool, calls, turns, call);
    KeepSent(ctx.seed, calls, turns, call);
    CallMade(o, calls, call);
  }

  lemma Continue(a: Agent, ctx: Context, o: Oracles, calls: seq<Call>, turns: seq<Turn>, call: Call, turn: Turn)
    requires Faithful(a, ctx, o, calls, turns) && Next(a, ctx, o, calls, turns, call)
    requires AnsweredBy(a, o.runTool, call, turn)
    ensures Faithful(a, ctx, o, calls + [call], turns + [turn])
    ensures Repairs(calls + [call]) == Repairs(calls) + (if call.verdict.SentToRepair? then 1 else 0)
    ensures SumUsage(calls + [call]) == if call.reply.Reply? then AddTokens(SumUsage(calls), call.reply.usage) else SumUsage(calls)
  {
    Finish(a, ctx, o, calls, turns, call);
    AddRound(a, o.runTool, ctx.seed, calls, turns, call, turn);
  }

  /** What the last call says for a disposal that ends the loop. */
  ghost predicate Justified(a: Agent, ctx: Context, calls: seq<Call>, d: Disposal) {
    match d
    case GoOn(_, _, _) => true
    case Deliver(output) => Earned(a, calls, output)
    case GiveUp(InvalidOutput(errors)) => Refused(a, ctx, calls, errors)
    case GiveUp(Thrown(error)) => Broke(a, calls, error)
    case _ => false
  }

  function FinalResult(d: Disposal, used: Usage): Result
    requires !d.GoOn?
  {
    if d.Deliver? then Success(d.output, used) else Failed(d.failure, used)
  }

  /** One turn of the loop: decide whether to force, call the model, dispose of its reply. */
  method TakeTurn(a: Agent, ctx: Context, o: Oracles, turn: nat, repairTurns: nat, usage: Usage, messages: seq<Message>,
                  ghost calls: seq<Call>, ghost turns: seq<Turn>)
    returns (d: Disposal, spent: Usage, ghost call: Call)
    requires turn == |calls| + 1 == |turns| + 1 && repairTurns == Repairs(calls) <= 1
    requires usage == SumUsage(calls) && messages == History(ctx.seed, turns)
    requires turn <= a.maxTurns + repairTurns && o.alive(|calls|).Alive?
    ensures Next(a, ctx, o, calls, turns, call)
    ensures spent == SumUsage(calls + [call])
    ensures call.verdict == VerdictOf(d)
    ensures d.GoOn? ==> AnsweredBy(a, o.runTool, call, Turn(d.reply, d.answer))
    ensures Justified(a, ctx, calls + [call], d)
  {
    var remaining := Cap(ctx) - TotalTokens(usage);
    var mustFinish := turn == a.maxTurns + repairTurns || remaining <= RESERVE_TOKENS;
    var sent := WithRollingCache(messages);
    var reply := o.converse(turn - 1, sent);
    call := Call(TotalTokens(usage), mustFinish, sent, reply, Aborted);
    if reply.CallFailed? {
      Sums(calls, call);
      return GiveUp(Thrown(reply.error)), usage, call;
    }
    spent := AddTokens(usage, reply.usage);
    d := Dispose(a, reply.content, turn, mustFinish, remaining, repairTurns, o.runTool);
    call := call.(verdict := VerdictOf(d));
    Sums(calls, call);
  }

  /** The state of the loop between two turns. */
  ghost predicate Between(a: Agent, ctx: Context, o: Oracles, turn: nat, repairTurns: nat, usage: Usage, messages: seq<Message>,
                          calls: seq<Call>, turns: seq<Turn>)
  {
    && turn == |calls| + 1 == |turns| + 1 <= a.maxTurns + repairTurns + 1
    && repairTurns == Repairs(calls) <= 1
    && usage == SumUsage(calls)
    && messages == History(ctx.seed, turns)
    && Faithful(a, ctx, o, calls, turns)
  }

  /** A call the loop goes on from leads to the next turn. */
  lemma Onward(a: Agent, ctx: Context, o: Oracles, turn: nat, repairTurns: nat, usage: Usage, messages: seq<Message>,
               calls: seq<Call>, turns: seq<Turn>, call: Call, spent: Usage, answer: Content)
    requires Between(a, ctx, o, turn, repairTurns, usage, messages, calls, turns) && turn <= a.maxTurns + repairTurns
    requires Next(a, ctx, o, calls, turns, call) && spent == SumUsage(calls + [call]) && call.reply.Reply?
    requires AnsweredBy(a, o.runTool, call, Turn(call.reply.content, answer))
    ensures Between(a, ctx, o, turn + 1, if call.verdict.SentToRepair? then 1 else repairTurns, spent,
                    messages + [Message(Assistant, Blocks(call.reply.content)), Message(User, answer)],
                    calls + [call], turns + [Turn(call.reply.content, answer)])
  {
    var round := Turn(call.reply.content, answer);
    Continue(a, ctx, o, calls, turns, call, round);
    HistorySnoc(ctx.seed, turns, round);
  }

  /** A whole run: its calls, its rounds, and the result they justify. */
  ghost predicate RunOf(a: Agent, ctx: Context, o: Oracles, result: Result, calls: seq<Call>, turns: seq<Turn>) {
    && |calls| <= |turns| + 1 && |calls| <= a.maxTurns + Repairs(calls)
    && Faithful(a, ctx, o, calls, turns) && Explains(a, ctx, o.alive, calls, turns, result)
    && (result.Failed? && result.failure.NoToolContext? <==> !ctx.hasTools)
  }

  /** A call that ends the loop is reported with the usage of all calls. */
  lemma Ending(a: Agent, ctx: Context, o: Oracles, turn: nat, repairTurns: nat, usage: Usage, messages: seq<Message>,
               calls: seq<Call>, turns: seq<Turn>, call: Call, d: Disposal)
    requires Between(a, ctx, o, turn, repairTurns, usage, messages, calls, turns) && turn <= a.maxTurns + repairTurns
    requires Next(a, ctx, o, calls, turns, call) && ctx.hasTools && !d.GoOn? && Justified(a, ctx, calls + [call], d)
    ensures RunOf(a, ctx, o, FinalResult(d, SumUsage(calls + [call])), calls + [call], turns)
  {
    Finish(a, ctx, o, calls, turns, call);
  }

  /** So is a fence that lets no further call through, and a loop that has used up its turns. */
  lemma Stopping(a: Agent, ctx: Context, o: Oracles, turn: nat, repairTurns: nat, usage: Usage, messages: seq<Message>,
                 calls: seq<Call>, turns: seq<Turn>)
    requires Between(a, ctx, o, turn, repairTurns, usage, messages, calls, turns) && ctx.hasTools
    ensures o.alive(turn - 1).Superseded? ==> RunOf(a, ctx, o, Fenced, calls, turns)
    ensures o.alive(turn - 1).ReadFailed? ==> RunOf(a, ctx, o, Failed(Thrown(o.alive(turn - 1).error), usage), calls, turns)
    ensures turn > a.maxTurns + repairTurns ==> RunOf(a, ctx, o, Failed(NeverEmitted, usage), calls, turns)
  {
  }

  method Run(a: Agent, ctx: Context, o: Oracles) returns (result: Result, ghost calls: seq<Call>, ghost turns: seq<Turn>)
    ensures RunOf(a, ctx, o, result, calls, turns)
    ensures result.Fenced? ==> exists k: nat | k <= a.maxTurns :: o.alive(k).Superseded?
  {
    var usage := NO_TOKENS;
    calls, turns := [], [];
    if !ctx.hasTools {
      return Failed(NoToolContext, usage), calls, turns;
    }
    var messages := [Message(User, Content.Str(ctx.seed))];
    var repairTurns := 0;
    var turn := 1;
    assert messages == History(ctx.seed, turns);
    while turn <= a.maxTurns + repairTurns
      invariant Between(a, ctx, o, turn, repairTurns, usage, messages, calls, turns)
      decreases a.maxTurns + 2 - turn
    {
      Stopping(a, ctx, o, turn, repairTurns, usage, messages, calls, turns);
      var liveness := o.alive(turn - 1);
      if liveness.Superseded? {
        assert turn - 1 <= a.maxTurns;
        return Fenced, calls, turns;
      }
      if liveness.ReadFailed? {
        return Failed(Thrown(liveness.error), usage), calls, turns;
      }
      var d, spent;
      ghost var call;
      d, spent, call := TakeTurn(a, ctx, o, turn, repairTurns, usage, messages, calls, turns);
      if !d.GoOn? {
        Ending(a, ctx, o, turn, repairTurns, usage, messages, calls, turns, call, d);
        return FinalResult(d, spent), calls + [call], turns;
      }
      Onward(a, ctx, o, turn, repairTurns, usage, messages, calls, turns, call, spent, d.answer);
      repairTurns := if d.verdict.SentToRepair? then 1 else repairTurns;
      usage := spent;
      messages := messages + [Message(Assistant, Blocks(d.reply)), Message(User, d.answer)];
      calls, turns := calls + [call], turns + [Turn(d.reply, d.answer)];
      turn := turn + 1;
    }
    Stopping(a, ctx, o, turn, repairTurns, usage, messages, calls, turns);
    return Failed(NeverEmitted, usage), calls, turns;
  }

  // ─── What a run guarantees ──────────────────────────────────────────────────

  /** What is reported as input, output, cache writes and cache reads is what the completed
      calls used of each, a class a call does not mention counting for nothing. */
  lemma {:induction false} ClassesAreSummed(calls: seq<Call>)
    ensures SumUsage(calls) == Usage(CostOf(calls, InputTokens), CostOf(calls, OutputTokens),
                                     Some(CostOf(calls, CacheWrites)), Some(CostOf(calls, CacheReads)))
  {
    if calls != [] { ClassesAreSummed(calls[..|calls| - 1]); }
  }

  /** And the total that the budget is held against is all their tokens. */
  lemma TotalIsCost(calls: seq<Call>)
    ensures TotalTokens(SumUsage(calls)) == Cost(calls)
  {
    ClassesAreSummed(calls);
  }

  /** A forced call, when it completes, does call the emit tool. */
  ghost predicate ForcedEmits(a: Agent, calls: seq<Call>) {
    forall k | 0 <= k < |calls| && calls[k].forced && calls[k].reply.Reply? :: Emits(a, calls[k])
  }

  ghost predicate EachCosts(calls: seq<Call>, c: nat) {
    forall k | 0 <= k < |calls| && calls[k].reply.Reply? :: TotalTokens(calls[k].reply.usage) <= c
  }

  /** The k-th call of a run. */
  lemma KthCall(a: Agent, ctx: Context, o: Oracles, calls: seq<Call>, turns: seq<Turn>, k: nat)
    requires Faithful(a, ctx, o, calls, turns) && k < |calls| && k <= |turns|
    ensures CallObeys(a, ctx, calls[..k], calls[k])
    ensures k < |turns| ==> AnsweredBy(a, o.runTool, calls[k], turns[k])
    ensures calls[k].sent == WithRollingCache(History(ctx.seed, turns[..k]))
  {
    ObeysAt(a, ctx, calls, k);
    assert SentAfter(ctx.seed, turns[..k], calls[k]);
  }

  /** A call the loop goes on from was not forced by the budget, and is not the last one allowed. */
  lemma GoesOn(a: Agent, ctx: Context, runTool: Block -> ToolOutcome, before: seq<Call>, call: Call, turn: Turn)
    requires CallObeys(a, ctx, before, call) && AnsweredBy(a, runTool, call, turn)
    requires call.forced ==> Emits(a, call)
    ensures call.spent < Cap(ctx) - RESERVE_TOKENS
    ensures |before| + 1 != a.maxTurns + Repairs(before + [call])
  {
    Sums(before, call);
  }

  /** The total grows by what the last call cost. */
  lemma Spent(a: Agent, ctx: Context, before: seq<Call>, call: Call, c: nat)
    requires CallObeys(a, ctx, before, call) && (call.reply.Reply? ==> TotalTokens(call.reply.usage) <= c)
    ensures TotalTokens(SumUsage(before + [call])) <= call.spent + c
  {
    Sums(before, call);
  }

  lemma SpentBy(a: Agent, ctx: Context, calls: seq<Call>, n: nat, c: nat)
    requires CallsObey(a, ctx, calls) && EachCosts(calls, c) && 0 < n <= |calls|
    ensures TotalTokens(SumUsage(calls[..n])) <= calls[n - 1].spent + c
    ensures calls[n - 1].spent == TotalTokens(SumUsage(calls[..n - 1]))
  {
    ObeysAt(a, ctx, calls, n - 1);
    Spent(a, ctx, calls[..n - 1], calls[n - 1], c);
    Snoc(calls, n - 1);
  }

  lemma Overshoot(a: Agent, ctx: Context, calls: seq<Call>, limit: int, c: nat)
    requires CallsObey(a, ctx, calls) && EachCosts(calls, c)
    requires forall k | 0 <= k < |calls| - 1 :: calls[k].spent < limit
    ensures TotalTokens(SumUsage(calls)) <= if |calls| <= 1 then c else limit - 1 + 2 * c
  {
    if calls != [] {
      SpentBy(a, ctx, calls, |calls|, c);
      Whole(calls);
      if |calls| == 1 {
        FirstIsFree(a, ctx, calls);
      } else {
        LastTwo(a, ctx, calls, |calls|, c);
      }
    }
  }

  lemma FirstIsFree(a: Agent, ctx: Context, calls: seq<Call>)
    requires CallsObey(a, ctx, calls) && calls != []
    ensures calls[0].spent == 0
  {
    ObeysAt(a, ctx, calls, 0);
    NothingSpent(calls[..0]);
  }

  lemma NothingSpent(calls: seq<Call>)
    requires calls == []
    ensures TotalTokens(SumUsage(calls)) == 0
  {
  }

  lemma LastTwo(a: Agent, ctx: Context, calls: seq<Call>, n: nat, c: nat)
    requires CallsObey(a, ctx, calls) && EachCosts(calls, c) && 1 < n <= |calls|
    ensures TotalTokens(SumUsage(calls[..n])) <= calls[n - 2].spent + 2 * c
  {
    SpentBy(a, ctx, calls, n, c);
    SpentBy(a, ctx, calls, n - 1, c);
  }

  /** If forced calls emit and no call costs more than c, every call but the last starts with
      the reserve still untouched, so the whole run overshoots by less than two calls. */
  lemma {:induction false} BudgetBound(a: Agent, ctx: Context, o: Oracles, calls: seq<Call>, turns: seq<Turn>, c: nat)
    requires Faithful(a, ctx, o, calls, turns) && |calls| <= |turns| + 1
    requires ForcedEmits(a, calls) && EachCosts(calls, c)
    ensures forall k | 0 <= k < |calls| - 1 :: calls[k].spent < Cap(ctx) - RESERVE_TOKENS
    ensures TotalTokens(SumUsage(calls)) <= if |calls| <= 1 then c else Cap(ctx) - RESERVE_TOKENS - 1 + 2 * c
  {
    forall k | 0 <= k < |calls| - 1 ensures calls[k].spent < Cap(ctx) - RESERVE_TOKENS {
      KthCall(a, ctx, o, calls, turns, k);
      GoesOn(a, ctx, o.runTool, calls[..k], calls[k], turns[k]);
    }
    Overshoot(a, ctx, calls, Cap(ctx) - RESERVE_TOKENS, c);
  }

  /** If forced calls emit, no run with a turn to take ends without an emit. */
  lemma AlwaysEmits(a: Agent, ctx: Context, o: Oracles, calls: seq<Call>, turns: seq<Turn>, used: Usage)
    requires a.maxTurns > 0
    requires Faithful(a, ctx, o, calls, turns) && ForcedEmits(a, calls)
    ensures !Explains(a, ctx, o.alive, calls, turns, Failed(NeverEmitted, used))
  {
    if 0 < |calls| == |turns| {
      var n := |calls| - 1;
      KthCall(a, ctx, o, calls, turns, n);
      GoesOn(a, ctx, o.runTool, calls[..n], calls[n], turns[n]);
      Snoc(calls, n);
    }
  }

  // ─── When an invalid emit is repaired ───────────────────────────────────────

  /** Repairs so far and what is left of the budget, when call k is made. */
  ghost predicate MayRepair(ctx: Context, calls: seq<Call>, k: nat)
    requires k < |calls|
  {
    Repairs(calls[..k]) == 0 && Cap(ctx) - calls[k].spent > RESERVE_TOKENS
  }

  /** An invalid emit is sent to repair exactly when a repair is still to be had and its input
      is not null. */
  lemma InvalidEmitIsRepaired(a: Agent, ctx: Context, o: Oracles, calls: seq<Call>, turns: seq<Turn>, k: nat)
    requires Faithful(a, ctx, o, calls, turns) && k < |calls| && Emits(a, calls[k])
    requires a.Check(Emission(a, calls[k].reply.content).value.input).Err?
    ensures calls[k].verdict.SentToRepair? <==>
              MayRepair(ctx, calls, k) && !Emission(a, calls[k].reply.content).value.input.JNull?
  {
    ObeysAt(a, ctx, calls, k);
  }

  /** With a null input it ends the run, which fails although a repair was to be had. */
  lemma NullEmitFails(a: Agent, ctx: Context, o: Oracles, result: Result, calls: seq<Call>, turns: seq<Turn>, k: nat)
    requires RunOf(a, ctx, o, result, calls, turns) && k < |calls| && Emits(a, calls[k]) && MayRepair(ctx, calls, k)
    requires var input := Emission(a, calls[k].reply.content).value.input; input.JNull? && a.Check(input).Err?
    ensures k == |calls| - 1 && result == Failed(Thrown(NO_KEYS), SumUsage(calls))
  {
    NullEmitAborts(a, ctx, o, calls, turns, k);
    EndsAborted(a, ctx, o, result, calls, turns);
  }

  lemma NullEmitAborts(a: Agent, ctx: Context, o: Oracles, calls: seq<Call>, turns: seq<Turn>, k: nat)
    requires Faithful(a, ctx, o, calls, turns) && k < |calls| <= |turns| + 1 && Emits(a, calls[k]) && MayRepair(ctx, calls, k)
    requires var input := Emission(a, calls[k].reply.content).value.input; input.JNull? && a.Check(input).Err?
    ensures calls[k].verdict.Aborted? && k == |calls| - 1 == |turns|
  {
    ObeysAt(a, ctx, calls, k);
    if k < |turns| { KthCall(a, ctx, o, calls, turns, k); }
  }

  /** A reply on which the loop aborted ends the run with that error. */
  lemma EndsAborted(a: Agent, ctx: Context, o: Oracles, result: Result, calls: seq<Call>, turns: seq<Turn>)
    requires Explains(a, ctx, o.alive, calls, turns, result) && |calls| == |turns| + 1
    requires calls[|calls| - 1].verdict.Aborted? && calls[|calls| - 1].reply.Reply?
    ensures result == Failed(Thrown(NO_KEYS), SumUsage(calls))
  {
  }

  /** The answer of a success: accepted by the validator as it stands once the mark is taken off,
      and marked truncated exactly when its emit was forced. */
  lemma SuccessIsValid(a: Agent, calls: seq<Call>, output: Json)
    requires Earned(a, calls, output)
    requires WellFormed(a.output) && a.output.Obj? && !Names(a.output.shape, "truncated")
    ensures output.JObj? && ("truncated" in output.fields <==> calls[|calls| - 1].forced)
    ensures "truncated" in output.fields ==> output.fields["truncated"] == JBool(true)
    ensures a.Check(JObj(output.fields - {"truncated"})) == Ok(JObj(output.fields - {"truncated"}))
  {
    var last := calls[|calls| - 1];
    var emit := Emission(a, last.reply.content).value;
    var value :| a.Check(emit.input) == Ok(value) && output == MarkTruncated(value, last.forced);
    ValidatedUnmarked(a.output, emit.input, value, a.agentType);
    assert output.fields - {"truncated"} == value.fields;
  }

  lemma ValidatedUnmarked(s: Spec, input: Json, value: Json, path: string)
    requires WellFormed(s) && s.Obj? && !Names(s.shape, "truncated") && Validate(s, input, path) == Ok(value)
    ensures value.JObj? && "truncated" !in value.fields && Validate(s, value, path) == Ok(value)
  {
    ValidatorAccepts(s, input, path);
    SchemaAndValidatorAgree(s, input, path, path);
    PrunedFields(s, input.fields);
  }

  /** A round answers all the calls of its reply, in order, unless it rejects an emit
      that came together with other calls. */
  lemma RoundAnswers(a: Agent, runTool: Block -> ToolOutcome, call: Call, turn: Turn)
    requires AnsweredBy(a, runTool, call, turn)
    ensures AnswersItsCalls(turn) <==> Emits(a, call) ==> |ToolUses(turn.reply)| == 1
  {
    var uses := ToolUses(turn.reply);
    ToolUsesAre(turn.reply);
    PromotedIds(turn.answer);
    match call.verdict
    case Nudged =>
      assert Promote(turn.answer)[1..] == [];
    case RanTools =>
      SameIds(uses, Promote(turn.answer));
    case Accepted =>
    case Aborted =>
    case SentToRepair =>
      RejectionAnswers(uses, FindEmit(uses, a.EmitTool()).value, Promote(turn.answer));
    case SentBack =>
      RejectionAnswers(uses, FindEmit(uses, a.EmitTool()).value, Promote(turn.answer));
  }

  lemma PromotedIds(answer: Content)
    ensures BlockResultIds(Promote(answer)) == ResultIds(answer)
  {
    if answer.Str? { assert Promote(answer)[1..] == []; }
  }

  lemma RejectionAnswers(uses: seq<Block>, emit: Block, answer: seq<Block>)
    requires emit in uses && (forall u | u in uses :: u.ToolUse?) && Rejects(Some(emit), answer)
    ensures UseIds(uses) == BlockResultIds(answer) <==> |uses| == 1
    ensures |UseIds(uses)| == |uses|
  {
    AllUses(uses);
    assert BlockResultIds(answer) == [emit.id] + BlockResultIds(answer[1..]);
    if |uses| == 1 {
      assert uses == [emit];
      assert UseIds(uses) == [emit.id] + UseIds(uses[1..]);
    }
  }

  lemma {:induction false} AllUses(uses: seq<Block>)
    requires forall u | u in uses :: u.ToolUse?
    ensures |UseIds(uses)| == |uses|
  {
    if uses != [] { AllUses(uses[1..]); }
  }

  /** What the model is sent on every call: the roles alternate from user to user, and its
      translation answers every call at once and in order exactly when no emit among the
      rounds so far was rejected together with other calls. */
  lemma SentHistory(a: Agent, ctx: Context, o: Oracles, calls: seq<Call>, turns: seq<Turn>, k: nat, system: string)
    requires Faithful(a, ctx, o, calls, turns) && k < |calls| && k <= |turns|
    ensures Alternating(calls[k].sent)
    ensures Answered(Translate(system, calls[k].sent)) <==>
              forall i | 0 <= i < k && Emits(a, calls[i]) :: |ToolUses(calls[i].reply.content)| == 1
  {
    KthCall(a, ctx, o, calls, turns, k);
    CachedAlternates(ctx.seed, turns[..k]);
    CacheInvisible(system, History(ctx.seed, turns[..k]));
    HistoryAnswered(system, ctx.seed, turns[..k]);
    forall i | 0 <= i < k
      ensures AnswersItsCalls(turns[..k][i])
              <==> Emits(a, calls[i]) ==> |ToolUses(calls[i].reply.content)| == 1
    {
      KthCall(a, ctx, o, calls, turns, i);
      RoundAnswers(a, o.runTool, calls[i], turns[i]);
    }
  }

  lemma CachedAlternates(seed: string, turns: seq<Turn>)
    ensures Alternating(WithRollingCache(History(seed, turns)))
  {
    HistoryAlternates(seed, turns);
    CacheKeepsContent(History(seed, turns), 0);
    forall i | 0 <= i < |History(seed, turns)|
      ensures WithRollingCache(History(seed, turns))[i].role == History(seed, turns)[i].role
    {
      CacheKeepsContent(History(seed, turns), i);
    }
  }

  // ─── What the model gets to see ─────────────────────────────────────────────

  lemma {:induction false} RoundAt(turns: seq<Turn>, i: nat)
    requires i < |turns|
    ensures |Rounds(turns)| == 2 * |turns|
    ensures Rounds(turns)[2 * i] == Message(Assistant, Blocks(turns[i].reply))
    ensures Rounds(turns)[2 * i + 1] == Message(User, turns[i].answer)
  {
    RoundsAlternate(turns);
    if i > 0 { RoundAt(turns[1..], i - 1); }
  }

  /** The answer does not depend on cache marks. */
  lemma AnswersStay(a: Agent, runTool: Block -> ToolOutcome, content: seq<Block>, verdict: Verdict,
                    answer: seq<Block>, seen: seq<Block>)
    requires SameButMarks(seen, answer) && Answers(a, runTool, content, verdict, answer)
    ensures Answers(a, runTool, content, verdict, seen)
  {
    if verdict.RanTools? {
      ToolsAnswerStays(ToolUses(content), answer, seen, runTool);
    } else if verdict.Nudged? {
      assert Bare(answer[0]) == Bare(seen[0]);
    } else {
      RejectsStays(Emission(a, content), answer, seen);
    }
  }

  lemma ToolsAnswerStays(uses: seq<Block>, answer: seq<Block>, seen: seq<Block>, runTool: Block -> ToolOutcome)
    requires SameButMarks(seen, answer) && ToolsAnswer(uses, answer, runTool)
    ensures ToolsAnswer(uses, seen, runTool)
  {
    forall i | 0 <= i < |uses| ensures Reports(uses[i], runTool(uses[i]), seen[i]) {
      assert Reports(uses[i], runTool(uses[i]), answer[i]);
      assert Bare(answer[i]) == Bare(seen[i]);
    }
  }

  lemma RejectsStays(emit: Option<Block>, answer: seq<Block>, seen: seq<Block>)
    requires SameButMarks(seen, answer) && Rejects(emit, answer)
    ensures Rejects(emit, seen)
  {
    assert Bare(answer[0]) == Bare(seen[0]);
    var text :| Reports(emit.value, ToolError(text), answer[0]);
    assert Reports(emit.value, ToolError(text), seen[0]);
  }

  /** A round of the conversation, up to cache marks: what the model said, and what its call
      was answered with. */
  ghost predicate Shows(a: Agent, runTool: Block -> ToolOutcome, call: Call, said: Message, answer: Message) {
    && call.reply.Reply?
    && said.role.Assistant? && SameButMarks(Promote(said.content), call.reply.content)
    && answer.role.User? && Answers(a, runTool, call.reply.content, call.verdict, Promote(answer.content))
  }

  lemma HistoryAt(seed: string, turns: seq<Turn>, i: nat)
    requires i < |turns|
    ensures |History(seed, turns)| == 2 * |turns| + 1
    ensures History(seed, turns)[2 * i + 1] == Message(Assistant, Blocks(turns[i].reply))
    ensures History(seed, turns)[2 * i + 2] == Message(User, turns[i].answer)
  {
    RoundAt(turns, i);
  }

  lemma ShownAs(a: Agent, runTool: Block -> ToolOutcome, call: Call, turn: Turn, said: Message, answer: Message)
    requires AnsweredBy(a, runTool, call, turn) && said.role.Assistant? && answer.role.User?
    requires SameButMarks(Promote(said.content), turn.reply) && SameButMarks(Promote(answer.content), Promote(turn.answer))
    ensures Shows(a, runTool, call, said, answer)
  {
    AnswersStay(a, runTool, call.reply.content, call.verdict, Promote(turn.answer), Promote(answer.content));
  }

  lemma RoundShown(a: Agent, runTool: Block -> ToolOutcome, seed: string, turns: seq<Turn>, call: Call, i: nat)
    requires i < |turns| && AnsweredBy(a, runTool, call, turns[i])
    ensures |WithRollingCache(History(seed, turns))| == 2 * |turns| + 1
    ensures var sent := WithRollingCache(History(seed, turns));
            Shows(a, runTool, call, sent[2 * i + 1], sent[2 * i + 2])
  {
    var history := History(seed, turns);
    HistoryAt(seed, turns, i);
    CacheKeepsContent(history, 2 * i + 1);
    CacheKeepsContent(history, 2 * i + 2);
    var sent := WithRollingCache(history);
    ShownAs(a, runTool, call, turns[i], sent[2 * i + 1], sent[2 * i + 2]);
  }

  /** Every call of a run is sent the seed, and for each call before it, in order, the reply and
      its answer: the text each tool put out under the id it was called by, errors marked as
      such, or the emit alone marked as rejected, or the reminder; and nothing else. */
  lemma ModelSees(a: Agent, ctx: Context, o: Oracles, calls: seq<Call>, turns: seq<Turn>, k: nat)
    requires Faithful(a, ctx, o, calls, turns) && k < |calls| && k <= |turns|
    ensures |calls[k].sent| == 2 * k + 1
    ensures calls[k].sent[0].role.User? && SameButMarks(Promote(calls[k].sent[0].content), [Text(ctx.seed, Unmarked)])
    ensures forall i | 0 <= i < k :: Shows(a, o.runTool, calls[i], calls[k].sent[2 * i + 1], calls[k].sent[2 * i + 2])
  {
    KthCall(a, ctx, o, calls, turns, k);
    RoundsAlternate(turns[..k]);
    CacheKeepsContent(History(ctx.seed, turns[..k]), 0);
    forall i | 0 <= i < k ensures Shows(a, o.runTool, calls[i], calls[k].sent[2 * i + 1], calls[k].sent[2 * i + 2]) {
      KthCall(a, ctx, o, calls, turns, i);
      assert turns[..k][i] == turns[i];
      RoundShown(a, o.runTool, ctx.seed, turns[..k], calls[i], i);
    }
  }

  // ─── Replies that show it ───────────────────────────────────────────────────

  /** A run that gets as far as its first call: tools, budget, an agent that emits an object,
      and the model's first reply. */
  ghost predicate Receives(a: Agent, ctx: Context, o: Oracles, content: seq<Block>) {
    && ctx.hasTools && Cap(ctx) > RESERVE_TOKENS && a.maxTurns > 0 && a.output.Obj?
    && o.alive(0).Alive? && forall sent :: o.converse(0, sent).Reply? && o.converse(0, sent).content == content
  }

  lemma FirstCall(a: Agent, ctx: Context, o: Oracles, content: seq<Block>, result: Result, calls: seq<Call>, turns: seq<Turn>)
    requires RunOf(a, ctx, o, result, calls, turns) && Receives(a, ctx, o, content)
    ensures |calls| >= 1 && calls[0].reply.Reply? && calls[0].reply.content == content && MayRepair(ctx, calls, 0)
  {
    FirstIsFree(a, ctx, calls);
  }

  /** A call that emits null, which is as good a reply as any other the model may send. */
  function NullEmit(a: Agent): seq<Block> { [ToolUse("", a.EmitTool(), JNull, Unmarked)] }

  lemma NullEmits(a: Agent)
    requires a.output.Obj?
    ensures Emission(a, NullEmit(a)) == Some(NullEmit(a)[0]) && a.Check(JNull).Err?
  {
    assert NullEmit(a)[1..] == [];
    assert ToolUses(NullEmit(a)) == NullEmit(a);
  }

  /** Every run that receives it first fails at once, its repair unused. */
  lemma NullEmitReceived(a: Agent, ctx: Context, o: Oracles, result: Result, calls: seq<Call>, turns: seq<Turn>)
    requires RunOf(a, ctx, o, result, calls, turns) && Receives(a, ctx, o, NullEmit(a))
    ensures |calls| == 1 && result == Failed(Thrown(NO_KEYS), SumUsage(calls)) && Repairs(calls[..0]) == 0
  {
    FirstCall(a, ctx, o, NullEmit(a), result, calls, turns);
    NullEmits(a);
    NullEmitFails(a, ctx, o, result, calls, turns, 0);
  }

  /** Another call, and beside it an emit of a text where an object is due. */
  function Crowded(a: Agent, other: Block): seq<Block> { [other, ToolUse("", a.EmitTool(), JStr(""), Unmarked)] }

  lemma CrowdedEmits(a: Agent, other: Block)
    requires other.ToolUse? && other.name != a.EmitTool()
    ensures ToolUses(Crowded(a, other)) == Crowded(a, other) && Emission(a, Crowded(a, other)) == Some(Crowded(a, other)[1])
  {
    var last := Crowded(a, other)[1];
    assert Crowded(a, other)[1..] == [last] && [last][1..] == [];
    assert ToolUses([last]) == [last];
    assert FindEmit([last], a.EmitTool()) == Some(last);
  }

  /** Every run that receives it first, and has the fence open on its second turn, sends the
      emit to repair and leaves the other call without an answer: the second call is sent a
      history whose translation does not answer every call. */
  lemma CrowdedEmitReceived(a: Agent, ctx: Context, o: Oracles, other: Block, result: Result, calls: seq<Call>, turns: seq<Turn>,
                            system: string)
    requires RunOf(a, ctx, o, result, calls, turns) && Receives(a, ctx, o, Crowded(a, other)) && o.alive(1).Alive?
    requires other.ToolUse? && other.name != a.EmitTool()
    ensures |calls| >= 2 && calls[0].verdict.SentToRepair? && !Answered(Translate(system, calls[1].sent))
  {
    FirstCall(a, ctx, o, Crowded(a, other), result, calls, turns);
    CrowdedEmits(a, other);
    InvalidEmitIsRepaired(a, ctx, o, calls, turns, 0);
    RepairGoesOn(a, ctx, o, result, calls, turns);
    SentHistory(a, ctx, o, calls, turns, 1, system);
    assert Emits(a, calls[0]);
  }

  lemma FirstRepair(calls: seq<Call>)
    requires |calls| >= 1 && calls[0].verdict.SentToRepair?
    ensures Repairs(calls[..1]) == 1 && (|calls| == 1 ==> Repairs(calls) == 1)
  {
    assert calls[..1][..0] == [];
    if |calls| == 1 { assert calls[..1] == calls; }
  }

  lemma RepairGoesOn(a: Agent, ctx: Context, o: Oracles, result: Result, calls: seq<Call>, turns: seq<Turn>)
    requires RunOf(a, ctx, o, result, calls, turns) && ctx.hasTools && o.alive(1).Alive? && a.maxTurns > 0
    requires |calls| >= 1 && calls[0].verdict.SentToRepair?
    ensures |calls| >= 2
  {
    FirstRepair(calls);
  }
}
