/**
 * The planner of src/planners/simplePlanner.ts: it builds its tool map
 * inline (with no early return when it is empty), prompts with the
 * pretty-printed context when there is one, always calls the model and
 * returns a single-step plan from the first tool result.
 */
module InlinePlanner {
  import opened Options
  import opened Strings
  import opened JsValue
  import opened AgentTypes
  import J = Json
  import X = Xml
  import Text
  import Tools

  const Closing: string := "Only"
    + " make a single tool call to achieve the goal."

  /** The `<context>` block around a serialised context, before trimming. */
  function Block(json: string): string
  {
    "\n<context>\n" + json + "\n</context>"
  }

  /** Trimming the block removes only the leading newline: the tags stay, around the text on lines of its own. */
  lemma BlockTrimmed(json: string)
    ensures Trim(Block(json)) == X.WrapInXml("context", "\n" + json + "\n")
    ensures var b := Trim(Block(json)); |b| > 0 && b[0] == '<' && b[|b| - 1] == '>'
  {
    var body := X.WrapInXml("context", "\n" + json + "\n");
    BlockIsWrapped(json);
    assert body[0] == '<' && body[|body| - 1] == '>';
    TrimPadded("\n", body, "");
    assert "\n" + body + "" == "\n" + body;
  }

  /** The block is a newline followed by the `<context>` element. */
  lemma BlockIsWrapped(json: string)
    ensures Block(json) == "\n" + X.WrapInXml("context", "\n" + json + "\n")
  {
    assert "<" + "context" + ">" + "\n" == "<context>\n";
    assert "\n" + "</" + "context" + ">" == "\n</context>";
  }

  /** The context block: the context as indented JSON between tags, or nothing when the context is falsy. */
  function ContextBlock(context: Value): (r: string)
    ensures !Truthy(context) ==> r == ""
    ensures Truthy(context) ==> r == X.WrapInXml("context", "\n" + J.StringifyPretty(context).value + "\n")
  {
    if Truthy(context) then
      BlockTrimmed(J.StringifyPretty(context).value);
      Trim(Block(J.StringifyPretty(context).value))
    else ""
  }

  /** The prompt: the context block, the goal and the closing instruction, blank lines apart, trimmed. */
  function Prompt(context: Value, goal: string): string
  {
    Trim("\n" + ContextBlock(context) + "\n\n" + goal + "\n\n" + Closing + "\n      ")
  }

  lemma ClosingTrimmed()
    ensures |Closing| > 0 && !IsWhitespace(Closing[0]) && !IsWhitespace(Closing[|Closing| - 1])
  {
    assert "Only"[0] == 'O';
  }

  lemma FramedPrompt(head: string, goal: string)
    requires |head| > 0 && !IsWhitespace(head[0]) && !IsWhitespace(head[|head| - 1])
    ensures Trim("\n" + head + "\n\n" + goal + "\n\n" + Closing + "\n      ") == head + "\n\n" + goal + "\n\n" + Closing
  {
    var tail := goal + "\n\n" + Closing;
    ClosingTrimmed();
    assert "\n" + head + "\n\n" + tail == "\n" + head + "\n\n" + goal + "\n\n" + Closing;
    TrimFramed("\n", head, tail, "\n      ");
    TrimEndAppend(goal + "\n\n", Closing);
    assert TrimEnd(Closing) == Closing;
    assert head + "\n\n" + tail == head + "\n\n" + goal + "\n\n" + Closing;
  }

  /** With a truthy context the block comes first, then the goal, then the instruction, nothing trimmed between. */
  lemma PromptWithContext(context: Value, goal: string)
    requires Truthy(context)
    ensures Prompt(context, goal) == ContextBlock(context) + "\n\n" + goal + "\n\n" + Closing
  {
    BlockTrimmed(J.StringifyPretty(context).value);
    FramedPrompt(ContextBlock(context), goal);
  }

  /** A goal followed by a blank line and a text with non-white-space ends: only the goal's leading white space goes. */
  lemma GoalThen(goal: string, c: string)
    requires |c| > 0 && !IsWhitespace(c[0]) && !IsWhitespace(c[|c| - 1])
    ensures Trim(goal + "\n\n" + c) == if TrimStart(goal) == "" then c else TrimStart(goal) + "\n\n" + c
  {
    var rest := "\n\n" + c;
    assert goal + "\n\n" + c == goal + rest;
    TrimStartAppend(goal, rest);
    assert TrimEnd(c) == c;
    if TrimStart(goal) == "" {
      BlankThen(c);
    } else {
      var g := TrimStart(goal);
      assert g + rest == (g + "\n\n") + c;
      TrimEndAppend(g + "\n\n", c);
    }
  }

  lemma BlankThen(c: string)
    requires |c| > 0 && !IsWhitespace(c[0]) && !IsWhitespace(c[|c| - 1])
    ensures TrimStart("\n\n" + c) == c && TrimEnd(c) == c
  {
    assert AllWhitespace("\n\n");
    TrimStartSkips("\n\n", c);
  }

  lemma UnframedPrompt(goal: string)
    ensures Trim("\n" + "" + "\n\n" + goal + "\n\n" + Closing + "\n      ") == if TrimStart(goal) == "" then Closing else TrimStart(goal) + "\n\n" + Closing
  {
    ClosingTrimmed();
    var tail := goal + "\n\n" + Closing;
    assert "\n" + "" + "\n\n" + goal + "\n\n" + Closing + "\n      " == "\n" + "\n\n" + tail + "\n      ";
    TrimBlankHead("\n", tail, "\n      ");
    GoalThen(goal, Closing);
  }

  /** With a falsy context the prompt is the goal, stripped of leading white space, and the instruction. */
  lemma PromptWithoutContext(context: Value, goal: string)
    requires !Truthy(context)
    ensures Prompt(context, goal) == if TrimStart(goal) == "" then Closing else TrimStart(goal) + "\n\n" + Closing
  {
    UnframedPrompt(goal);
  }

  /** The plan this planner returns: goal, state, one step without an expected state, and the next event. */
  datatype SingleStepPlan = SingleStepPlan(goal: string, state: ObservedState, steps: seq<Step>, nextEvent: Value)

  /** The model call: the prompt as the only message, the tool map, and the caller's system prompt and tool choice. */
  function PlannerCall(input: StrategyInput, toolMap: ToolMap): (c: ModelCall)
    ensures c.messages == [Text.UserMessage(Prompt(input.state.context, input.goal))]
    ensures c.tools == Some(toolMap) && c.system == input.system && c.toolChoice == input.toolChoice
  {
    ModelCall(input.system, [Text.UserMessage(Prompt(input.state.context, input.goal))], Some(toolMap), input.toolChoice)
  }

  /** `simplePlanner` from src/planners/simplePlanner.ts. */
  method Plan(env: Env, input: StrategyInput, generate: ModelCall -> GenerateResult)
    returns (r: Option<SingleStepPlan>, call: ModelCall)
    ensures call == PlannerCall(input, Tools.ToolMapOf(Tools.ToolTransitions(
      Tools.CandidateTransitions(env, input.state, input.machine, input.events), input.events), input.events))
    ensures r.Some? <==> |generate(call).toolResults| > 0
    ensures r.Some? ==>
      r.value.goal == input.goal && r.value.state == input.state
      && r.value.steps == [Step(generate(call).toolResults[0].result, None)]
      && r.value.nextEvent == r.value.steps[0].event
  {
    var toolMap := Tools.PlannerToolMap(env, input.state, input.machine, input.events);
    call := PlannerCall(input, toolMap);
    var result := generate(call);
    if |result.toolResults| == 0 {
      return None, call;
    }
    var event := result.toolResults[0].result;
    r := Some(SingleStepPlan(input.goal, input.state, [Step(event, None)], event));
  }
}
