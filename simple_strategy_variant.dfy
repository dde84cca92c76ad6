/**
 * The second copy of the simple strategy (src/strategies/simpleStrategy.ts).
 * It differs from the first in three places: the prompt shows the state
 * value, the context (`input.context ?? state.context`) and the goal; the
 * response messages are recorded as they come; and the decision's episode
 * is the caller's when given.
 */
module SimpleStrategyVariant {
  import opened Options
  import opened JsValue
  import opened AgentTypes
  import X = Xml
  import A = Agents
  import Text
  import Tools
  import S = SimpleStrategy

  /** The prompt data `{stateValue, context, goal}`. */
  function PromptData(input: StrategyInput): Value
  {
    Obj([("stateValue", input.state.value), ("context", Coalesce(input.context, input.state.context)), ("goal", Str(input.goal))])
  }

  /** The prompt shows the state value, then the context (the caller's unless it is nullish), then the goal. */
  lemma PromptOrder(input: StrategyInput)
    ensures S.PromptTemplate(PromptData(input)) ==
      X.Element("stateValue", input.state.value)
      + X.Element("context", if input.context.Undef? || input.context.Null? then input.state.context else input.context)
      + X.WrapInXml("goal", input.goal) + "\n\n" + S.Instruction
  {
    S.PromptShape(PromptData(input));
    X.ConvertTriple("stateValue", input.state.value, "context", Coalesce(input.context, input.state.context), "goal", Str(input.goal));
  }

  /** `simpleStrategy` from src/strategies/simpleStrategy.ts. */
  method Decide(agent: A.Agent, env: Env, input: StrategyInput, generate: ModelCall -> GenerateResult,
                freshIds: nat -> string, clock: nat -> int, decisionId: string, now: int)
    returns (r: Option<Decision>, call: Option<ModelCall>)
    modifies agent`observations, agent`messages, agent`decisions, agent`feedback, agent`delivered
    ensures S.ToolMapFor(env, input) == [] ==> r.None? && call.None? && agent.Memory() == old(agent.Memory()) && agent.delivered == old(agent.delivered)
    ensures S.ToolMapFor(env, input) != [] ==>
      call == Some(S.SimpleCall(input, agent.description, Text.GetMessages(input.messages, S.PromptTemplate(PromptData(input))), S.ToolMapFor(env, input)))
    ensures call.Some? ==>
      var result := generate(call.value);
      agent.messages == old(agent.messages) + S.Built(result.responseMessages, agent.episodeId, freshIds, clock)
      && (r.Some? <==> |result.toolResults| > 0)
      && (r.Some? ==> r == Some(S.SimpleDecision(env, input, result.toolResults[0].result,
                                                 if input.episodeId.Some? then input.episodeId.value else agent.episodeId, decisionId, now)))
    ensures call.Some? ==>
      agent.delivered == old(agent.delivered)
        + S.MessageDeliveries(agent.listeners, S.Built(generate(call.value).responseMessages, agent.episodeId, freshIds, clock))
    ensures agent.observations == old(agent.observations) && agent.decisions == old(agent.decisions) && agent.feedback == old(agent.feedback)
  {
    var toolMap := Tools.GetToolMap(env, input);
    if toolMap.None? {
      return None, None;
    }
    var messages := Text.GetMessages(input.messages, S.PromptTemplate(PromptData(input)));
    var c := S.SimpleCall(input, agent.description, messages, toolMap.value);
    call := Some(c);
    var result := generate(c);
    S.RecordMessages(agent, result.responseMessages, freshIds, clock);
    if |result.toolResults| == 0 {
      return None, call;
    }
    r := Some(S.SimpleDecision(env, input, result.toolResults[0].result, input.episodeId.GetOr(agent.episodeId), decisionId, now));
  }

  /** A message that already carries an id and a timestamp is recorded with them. */
  lemma KeepsGivenStamps(ms: seq<MessageInput>, episodeId: string, freshIds: nat -> string, clock: nat -> int, i: nat)
    requires i < |ms| && ms[i].id.Some? && ms[i].timestamp.Some?
    ensures S.Built(ms, episodeId, freshIds, clock)[i].id == ms[i].id.value
    ensures S.Built(ms, episodeId, freshIds, clock)[i].timestamp == ms[i].timestamp.value
  {
  }
}
