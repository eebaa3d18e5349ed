/**
 assembleUserMessage: an agent's prompt template filled from the context and held under an
 input budget by cutting the tails of its optional inputs, in a fixed order of sacrifice.
 */
module PromptAssembly {
  import opened Common

  const MAX_INPUT_TOKENS := 20_000

  datatype Field = GraphContext | AdditionalContext | FileTree

  const SACRIFICE: seq<Field> := [GraphContext, AdditionalContext, FileTree]

  datatype Inputs = Inputs(graphContext: Option<string>, additionalContext: Option<string>, fileTree: Option<string>) {
    function Get(f: Field): Option<string> {
      match f
      case GraphContext => graphContext
      case AdditionalContext => additionalContext
      case FileTree => fileTree
    }

    function Set(f: Field, text: string): (r: Inputs)
      ensures r.Get(f) == Some(text)
      ensures forall g: Field | g != f :: r.Get(g) == Get(g)
    {
      match f
      case GraphContext => this.(graphContext := Some(text))
      case AdditionalContext => this.(additionalContext := Some(text))
      case FileTree => this.(fileTree := Some(text))
    }

    /** Every input that is there, emptied. */
    function Emptied(): Inputs {
      Inputs(if graphContext.Some? then Some("") else None,
             if additionalContext.Some? then Some("") else None,
             if fileTree.Some? then Some("") else None)
    }
  }

  /** A piece of a template: fixed text, an input (or a text standing in for an absent one),
      or a section that is left out when its input is absent or empty. */
  datatype Part =
    | Lit(text: string)
    | Slot(field: Field, absent: string)
    | Section(field: Field, before: string, after: string)

  function RenderPart(p: Part, inputs: Inputs): string {
    match p
    case Lit(text) => text
    case Slot(f, absent) => inputs.Get(f).GetOr(absent)
    case Section(f, before, after) =>
      var text := inputs.Get(f).GetOr("");
      if text == "" then "" else before + text + after
  }

  function Render(template: seq<Part>, inputs: Inputs): string {
    if template == [] then "" else RenderPart(template[0], inputs) + Render(template[1..], inputs)
  }

  function Assembled(facts: string, template: seq<Part>, inputs: Inputs): string {
    if facts == "" then Render(template, inputs) else facts + "\n" + Render(template, inputs)
  }

  /** How many times a template renders an input. */
  function Uses(template: seq<Part>, f: Field): nat {
    if template == [] then 0
    else (if Renders(template[0], f) then 1 else 0) + Uses(template[1..], f)
  }

  function Estimate(text: string): nat { (|text| + 3) / 4 }

  function BudgetChars(systemPrompt: string): int {
    (MAX_INPUT_TOKENS - Estimate(systemPrompt) - 500) * 4
  }

  // ─── The agents' templates (headings abbreviated) ──────────────────

  const ARCHITECTURE: seq<Part> := [Lit("Map:\n"), Slot(GraphContext, ""), Lit("\n\n"), Section(FileTree, "## Tree\n", "\n")]
  const DEPENDENCY: seq<Part> := [Lit("Deps:\n"), Slot(AdditionalContext, "none"), Lit("\n\n"), Slot(GraphContext, "")]
  const DOCS: seq<Part> := [Lit("Docs:\n"), Slot(AdditionalContext, "none"), Lit("\n\n"), Slot(GraphContext, "")]
  const QUALITY: seq<Part> := [Lit("Review:\n"), Slot(GraphContext, "")]
  const SECURITY: seq<Part> := [Lit("Audit:\n"), Slot(GraphContext, ""), Lit("\n\n"), Section(AdditionalContext, "## Notes\n", "\n")]

  /** Every agent renders each input at most once, and the graph context always. */
  lemma AgentsRenderOnce(template: seq<Part>, f: Field)
    requires template == ARCHITECTURE || template == DEPENDENCY || template == DOCS || template == QUALITY || template == SECURITY
    ensures Uses(template, f) <= 1 && Uses(template, GraphContext) == 1
  {
    var n := |template|;
    assert template[0..] == template;
    UsesFrom(template, f, 0);
    UsesFrom(template, f, 1);
    if n > 2 { UsesFrom(template, f, 2); UsesFrom(template, f, 3); }
  }

  lemma UsesFrom(template: seq<Part>, f: Field, k: nat)
    requires k < |template|
    ensures Uses(template[k..], f)
            == (if Renders(template[k], f) then 1 else 0)
               + (if k + 1 == |template| then 0 else Uses(template[k + 1..], f))
  {
    assert template[k..][1..] == template[k + 1..];
  }

  /** A message within the character budget keeps the whole request under the token ceiling. */
  lemma WithinCeiling(systemPrompt: string, message: string)
    requires |message| <= BudgetChars(systemPrompt)
    ensures Estimate(systemPrompt) + Estimate(message) + 500 <= MAX_INPUT_TOKENS
  {
  }

  // ─── What a message says ────────────────────────────────────────────────────

  /** A fixed text stands as it is; an input, or what stands in for it; and a section with its
      heading and its end around the input, if there is anything to put between them. */
  predicate SaysPart(p: Part, inputs: Inputs, text: string) {
    match p
    case Lit(words) => text == words
    case Slot(f, absent) => if inputs.Get(f) == None then text == absent else inputs.Get(f) == Some(text)
    case Section(f, before, after) =>
      if inputs.Get(f) == None || inputs.Get(f) == Some("") then text == "" else text == before + inputs.Get(f).value + after
  }

  /** Part by part, in order, and nothing else. */
  ghost predicate Says(template: seq<Part>, inputs: Inputs, text: string) {
    if template == [] then text == ""
    else exists n | 0 <= n <= |text| :: SaysPart(template[0], inputs, text[..n]) && Says(template[1..], inputs, text[n..])
  }

  lemma {:induction false} RenderSays(template: seq<Part>, inputs: Inputs)
    ensures Says(template, inputs, Render(template, inputs))
  {
    if template != [] {
      var first, rest := RenderPart(template[0], inputs), Render(template[1..], inputs);
      RenderSays(template[1..], inputs);
      assert (first + rest)[..|first|] == first && (first + rest)[|first|..] == rest;
    }
  }

  /** The facts come first and whole, then the template filled from the inputs. */
  ghost predicate Message(facts: string, template: seq<Part>, inputs: Inputs, message: string) {
    var opening := if facts == "" then "" else facts + "\n";
    opening <= message && Says(template, inputs, message[|opening|..])
  }

  lemma AssembledSays(facts: string, template: seq<Part>, inputs: Inputs)
    ensures Message(facts, template, inputs, Assembled(facts, template, inputs))
  {
    var opening := if facts == "" then "" else facts + "\n";
    var body := Render(template, inputs);
    RenderSays(template, inputs);
    assert Assembled(facts, template, inputs) == opening + body;
    assert (opening + body)[|opening|..] == body;
  }

  // ─── How a cut changes the message ──────────────────────────────────────────

  /** Cutting a non-empty input down to a non-empty one takes the cut off once per use. */
  lemma {:induction false} CutShortens(template: seq<Part>, inputs: Inputs, f: Field, text: string)
    requires inputs.Get(f).Some? && 0 < |text| <= |inputs.Get(f).value|
    ensures |Render(template, inputs.Set(f, text))|
            == |Render(template, inputs)| - Uses(template, f) * (|inputs.Get(f).value| - |text|)
  {
    if template != [] {
      CutShortens(template[1..], inputs, f, text);
      PartShortens(template[0], inputs, f, text);
      OneMoreUse(Uses(template[1..], f), |inputs.Get(f).value| - |text|);
    }
  }

  predicate Renders(p: Part, f: Field) { !p.Lit? && p.field == f }

  lemma PartShortens(p: Part, inputs: Inputs, f: Field, text: string)
    requires inputs.Get(f).Some? && 0 < |text| <= |inputs.Get(f).value|
    ensures |RenderPart(p, inputs.Set(f, text))|
            == |RenderPart(p, inputs)| - (if Renders(p, f) then |inputs.Get(f).value| - |text| else 0)
  {
  }

  lemma OneMoreUse(uses: nat, d: int)
    ensures (uses + 1) * d == uses * d + d
  {
  }

  /** Only the inputs a template renders matter to it. */
  lemma {:induction false} OnlyUsedMatter(template: seq<Part>, a: Inputs, b: Inputs)
    requires forall f: Field | Uses(template, f) > 0 :: a.Get(f) == b.Get(f)
    ensures Render(template, a) == Render(template, b)
  {
    if template != [] {
      forall f: Field | Uses(template[1..], f) > 0 ensures a.Get(f) == b.Get(f) {
        assert Uses(template, f) > 0;
      }
      OnlyUsedMatter(template[1..], a, b);
      if !template[0].Lit? { assert Uses(template, template[0].field) > 0; }
    }
  }

  // ─── What trimming keeps ────────────────────────────────────────────────────

  /** Every input is a prefix of what it was, and none appears or disappears. */
  ghost predicate Prefixes(trimmed: Inputs, inputs: Inputs) {
    forall f: Field ::
      && (trimmed.Get(f).Some? <==> inputs.Get(f).Some?)
      && (inputs.Get(f).Some? ==> trimmed.Get(f).value <= inputs.Get(f).value)
  }

  predicate Spent(template: seq<Part>, trimmed: Inputs, f: Field) {
    Uses(template, f) > 0 ==> trimmed.Get(f).GetOr("") == ""
  }

  /** An input is cut only when every rendered input before it in the order of sacrifice is spent. */
  ghost predicate InOrder(template: seq<Part>, trimmed: Inputs, inputs: Inputs) {
    forall i, j | 0 <= i < j < |SACRIFICE| && trimmed.Get(SACRIFICE[j]) != inputs.Get(SACRIFICE[j]) ::
      Spent(template, trimmed, SACRIFICE[i])
  }

  /** An input rendered once and cut only partly leaves the message exactly at the budget. */
  ghost predicate NoMoreThanNeeded(facts: string, template: seq<Part>, trimmed: Inputs, inputs: Inputs, budget: int) {
    forall f: Field | Uses(template, f) == 1 && trimmed.Get(f) != inputs.Get(f) && trimmed.Get(f).GetOr("") != "" ::
      |Assembled(facts, template, trimmed)| == budget
  }

  /** All rendered inputs spent: nothing more can be taken off. */
  lemma AllSpent(facts: string, template: seq<Part>, trimmed: Inputs, inputs: Inputs)
    requires Prefixes(trimmed, inputs) && forall f: Field :: Spent(template, trimmed, f)
    ensures Assembled(facts, template, trimmed) == Assembled(facts, template, inputs.Emptied())
  {
    forall f: Field | Uses(template, f) > 0 ensures trimmed.Get(f) == inputs.Emptied().Get(f) {
      assert Spent(template, trimmed, f);
      match f
      case GraphContext =>
      case AdditionalContext =>
      case FileTree =>
    }
    OnlyUsedMatter(template, trimmed, inputs.Emptied());
  }

  /** Where the loop stands before it looks at the i-th input. */
  ghost predicate Trimming(facts: string, template: seq<Part>, current: Inputs, inputs: Inputs, budget: int, i: nat)
    requires i <= |SACRIFICE|
  {
    && Prefixes(current, inputs)
    && (forall j | i <= j < |SACRIFICE| :: current.Get(SACRIFICE[j]) == inputs.Get(SACRIFICE[j]))
    && (|Assembled(facts, template, current)| <= budget || forall j | 0 <= j < i :: Spent(template, current, SACRIFICE[j]))
    && InOrder(template, current, inputs)
    && NoMoreThanNeeded(facts, template, current, inputs, budget)
    && (|Assembled(facts, template, inputs)| <= budget ==> current == inputs)
  }

  /** The text an input keeps when the message is over budget by excess. */
  function Kept(text: string, excess: nat): string {
    text[..if |text| > excess then |text| - excess else 0]
  }

  lemma InputUntouched(current: Inputs, f: Field, text: string)
    ensures forall g: Field | g != f :: current.Set(f, text).Get(g) == current.Get(g)
    ensures forall template, g: Field | g != f :: Spent(template, current.Set(f, text), g) == Spent(template, current, g)
  {
  }

  /** A partial cut of a rendered input brings the message under budget, exactly to it if it is rendered once. */
  lemma CutFits(facts: string, template: seq<Part>, current: Inputs, budget: int, f: Field)
    requires current.Get(f).Some?
    requires |Assembled(facts, template, current)| > budget
    requires Kept(current.Get(f).value, |Assembled(facts, template, current)| - budget) != ""
    ensures
      var next := current.Set(f, Kept(current.Get(f).value, |Assembled(facts, template, current)| - budget));
      && (Uses(template, f) > 0 ==> |Assembled(facts, template, next)| <= budget)
      && (Uses(template, f) == 1 ==> |Assembled(facts, template, next)| == budget)
  {
    var excess := |Assembled(facts, template, current)| - budget;
    var kept := Kept(current.Get(f).value, excess);
    var uses, cut := Uses(template, f), |current.Get(f).value| - |kept|;
    CutShortens(template, current, f, kept);
    AssembledLength(facts, template, current);
    AssembledLength(facts, template, current.Set(f, kept));
    assert cut == excess;
    AtLeastOnce(uses, cut);
  }

  lemma AssembledLength(facts: string, template: seq<Part>, inputs: Inputs)
    ensures |Assembled(facts, template, inputs)| == |Render(template, inputs)| + (if facts == "" then 0 else |facts| + 1)
  {
  }

  lemma AtLeastOnce(uses: nat, cut: nat)
    ensures uses > 0 ==> uses * cut >= cut
    ensures uses == 1 ==> uses * cut == cut
  {
  }

  lemma CutStep(facts: string, template: seq<Part>, current: Inputs, inputs: Inputs, budget: int, i: nat)
    requires i < |SACRIFICE| && Trimming(facts, template, current, inputs, budget, i)
    requires |Assembled(facts, template, current)| > budget && current.Get(SACRIFICE[i]).GetOr("") != ""
    ensures
      var f := SACRIFICE[i];
      var next := current.Set(f, Kept(current.Get(f).value, |Assembled(facts, template, current)| - budget));
      Trimming(facts, template, next, inputs, budget, i + 1)
  {
    var f := SACRIFICE[i];
    var kept := Kept(current.Get(f).value, |Assembled(facts, template, current)| - budget);
    var next := current.Set(f, kept);
    InputUntouched(current, f, kept);
    if kept != "" { CutFits(facts, template, current, budget, f); }
    assert forall g: Field | g != f && Uses(template, g) == 1 :: current.Get(g) == inputs.Get(g) || current.Get(g).GetOr("") == "";
    forall g: Field | Uses(template, g) == 1 && next.Get(g) != inputs.Get(g) && next.Get(g).GetOr("") != ""
      ensures |Assembled(facts, template, next)| == budget
    {
      assert g == f;
    }
  }

  /** After the last input the message fits, or nothing is left to take off. */
  lemma NothingLeft(facts: string, template: seq<Part>, current: Inputs, inputs: Inputs, budget: int)
    requires Trimming(facts, template, current, inputs, budget, |SACRIFICE|)
    ensures |Assembled(facts, template, current)| <= budget
            || Assembled(facts, template, current) == Assembled(facts, template, inputs.Emptied())
  {
    if |Assembled(facts, template, current)| > budget {
      forall f: Field ensures Spent(template, current, f) {
        assert f == SACRIFICE[0] || f == SACRIFICE[1] || f == SACRIFICE[2];
      }
      AllSpent(facts, template, current, inputs);
    }
  }

  method AssembleUserMessage(facts: string, template: seq<Part>, inputs: Inputs, budgetChars: int)
    returns (message: string, ghost trimmed: Inputs)
    ensures message == Assembled(facts, template, trimmed) && Message(facts, template, trimmed, message)
    ensures Prefixes(trimmed, inputs)
    ensures |Assembled(facts, template, inputs)| <= budgetChars ==> trimmed == inputs
    ensures |message| <= budgetChars || message == Assembled(facts, template, inputs.Emptied())
    ensures InOrder(template, trimmed, inputs)
    ensures NoMoreThanNeeded(facts, template, trimmed, inputs, budgetChars)
  {
    var current := inputs;
    for i := 0 to |SACRIFICE|
      invariant Trimming(facts, template, current, inputs, budgetChars, i)
    {
      var assembled := Assembled(facts, template, current);
      AssembledSays(facts, template, current);
      if |assembled| <= budgetChars {
        return assembled, current;
      }
      var field := SACRIFICE[i];
      if current.Get(field).GetOr("") != "" {
        CutStep(facts, template, current, inputs, budgetChars, i);
        current := current.Set(field, Kept(current.Get(field).value, |assembled| - budgetChars));
      }
    }
    NothingLeft(facts, template, current, inputs, budgetChars);
    AssembledSays(facts, template, current);
    return Assembled(facts, template, current), current;
  }
}
