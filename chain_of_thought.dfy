/**
 * The chain-of-thought strategy (src/strategies/chainOfThought.ts): ask the
 * model, without tools, how it would reach the goal, then run the simple
 * strategy with that reasoning appended to the conversation.
 */
module ChainOfThought {
  import opened Options
  import opened Strings
  import opened JsValue
  import opened AgentTypes
  import X = Xml
  import A = Agents
  import Text
  import S = SimpleStrategy

  const Question: string := "How would you achieve the goal? Think step-by-step."

  /** The reasoning prompt: the context and the goal as tags, a blank line, the question, trimmed. */
  function Prompt(input: StrategyInput): string
  {
    Trim("\n" + X.ConvertToXml(Obj([("context", input.state.context), ("goal", Str(input.goal))])) + "\n\n" + Question + "\n")
  }

  /** The reasoning prompt is the context, the goal and the question, with nothing trimmed away. */
  lemma PromptShape(input: StrategyInput)
    ensures Prompt(input) == X.Element("context", input.state.context) + X.WrapInXml("goal", input.goal) + "\n\n" + Question
  {
    var data := Obj([("context", input.state.context), ("goal", Str(input.goal))]);
    X.ConvertToXmlDelimited(data);
    X.ConvertPair("context", input.state.context, "goal", Str(input.goal));
    assert TrimEnd(Question) == Question;
    TrimFramed("\n", X.ConvertToXml(data), Question, "\n");
  }

  /** The reasoning call: the history and the prompt, `system ?? description`, no tools. */
  function ReasoningCall(input: StrategyInput, description: Option<string>): (c: ModelCall)
    ensures c.tools.None? && c.toolChoice.None?
    ensures c.messages == Text.HistoryOf(input.messages) + [Text.UserMessage(Prompt(input))]
    ensures c.system == (if input.system.Some? then input.system else description)
  {
    ModelCall(input.system.OrElse(description), Text.GetMessages(input.messages, Prompt(input)), None, None)
  }

  /** The core messages of the model's response. */
  function Cores(ms: seq<MessageInput>): (r: seq<CoreMessage>)
    ensures |r| == |ms| && forall i :: 0 <= i < |ms| ==> r[i] == ms[i].core
  {
    seq(|ms|, i requires 0 <= i < |ms| => ms[i].core)
  }

  /** The input handed on to the simple strategy: the same, with the reasoning conversation as its history. */
  function FollowUp(input: StrategyInput, reasoning: ModelCall, response: GenerateResult): (next: StrategyInput)
    ensures next.messages == GivenHistory(reasoning.messages + Cores(response.responseMessages))
    ensures next.(messages := input.messages) == input
  {
    input.(messages := GivenHistory(reasoning.messages + Cores(response.responseMessages)))
  }

  /**
   * `chainOfThoughtStrategy`. The reasoning response is not recorded in
   * memory; only the simple strategy's response is.
   */
  method Decide(agent: A.Agent, env: Env, input: StrategyInput, generate: ModelCall -> GenerateResult,
                freshIds: nat -> string, clock: nat -> int, decisionId: string, now: int)
    returns (r: Option<Decision>, reasoning: ModelCall, call: Option<ModelCall>)
    modifies agent`observations, agent`messages, agent`decisions, agent`feedback, agent`delivered
    ensures reasoning == ReasoningCall(input, agent.description)
    ensures S.ToolMapFor(env, input) == [] ==> r.None? && call.None? && agent.Memory() == old(agent.Memory()) && agent.delivered == old(agent.delivered)
    ensures S.ToolMapFor(env, input) != [] ==>
      call.Some? &&
      call.value.messages == reasoning.messages + Cores(generate(reasoning).responseMessages)
                             + [Text.UserMessage(S.PromptTemplate(S.PromptData(input)))]
    ensures call.Some? ==>
      var result := generate(call.value);
      agent.messages == old(agent.messages) + S.Built(S.Restamped(result.responseMessages, freshIds, clock), agent.episodeId, freshIds, clock)
      && (r.Some? <==> |result.toolResults| > 0)
      && (r.Some? ==> r == Some(S.SimpleDecision(env, input, result.toolResults[0].result, agent.episodeId, decisionId, now)))
    ensures call.Some? ==>
      agent.delivered == old(agent.delivered)
        + S.MessageDeliveries(agent.listeners, S.Built(S.Restamped(generate(call.value).responseMessages, freshIds, clock), agent.episodeId, freshIds, clock))
    ensures agent.observations == old(agent.observations) && agent.decisions == old(agent.decisions) && agent.feedback == old(agent.feedback)
  {
    reasoning := ReasoningCall(input, agent.description);
    var response := generate(reasoning);
    var next := FollowUp(input, reasoning, response);
    assert S.ToolMapFor(env, next) == S.ToolMapFor(env, input);
    assert S.PromptData(next) == S.PromptData(input);
    r, call := S.Decide(agent, env, next, generate, freshIds, clock, decisionId, now);
    if r.Some? {
      assert S.SimpleDecision(env, next, generate(call.value).toolResults[0].result, agent.episodeId, decisionId, now)
          == S.SimpleDecision(env, input, generate(call.value).toolResults[0].result, agent.episodeId, decisionId, now);
    }
  }
}
