/**
 * Plans, and the simple planner (src/planners/simple.ts): the simple
 * strategy's control flow, with the default text template as prompt and a
 * plan as result.
 */
module Planners {
  import opened Options
  import opened Strings
  import opened JsValue
  import opened AgentTypes
  import A = Agents
  import Text
  import Templates
  import Tools
  import S = SimpleStrategy

  /** A plan: the planner's name, the goal, where it leads, the first event and the paths. */
  datatype Plan = Plan(
    planner: string,
    goal: string,
    goalState: Option<ObservedState>,
    nextEvent: Option<Value>,
    paths: seq<Path>,
    episodeId: string,
    timestamp: int)

  /** The prompt: the default text template for the context and goal, a blank line, the instruction, trimmed. */
  function Prompt(context: Value, goal: string): string
  {
    Trim("\n" + Templates.DefaultTextTemplate(Undef, context, goal) + "\n\n" + S.Instruction + "\n  ")
  }

  /** The instruction always closes the prompt, a blank line after the template unless the template is empty. */
  lemma PromptShape(context: Value, goal: string)
    ensures var t := Templates.DefaultTextTemplate(Undef, context, goal);
      Prompt(context, goal) == if t == "" then S.Instruction else t + "\n\n" + S.Instruction
  {
    S.InstructionTrimmed();
    TrimAfterTrimmed("\n" + Templates.Preamble(Undef, context) + "\n\n" + goal + "\n  ", S.Instruction, "\n", "\n  ");
  }

  /** With a falsy context the prompt is just the trimmed goal and the instruction. */
  lemma PromptWithoutContext(context: Value, goal: string)
    requires !Truthy(context)
    ensures Prompt(context, goal) == if Trim(goal) == "" then S.Instruction else Trim(goal) + "\n\n" + S.Instruction
  {
    PromptShape(context, goal);
    Templates.TemplateWithoutPreamble(Undef, context, goal);
  }

  /** The single-step plan from the first tool result; the machine state is resolved from the state as given. */
  function SimplePlan(env: Env, input: StrategyInput, event: Value, episodeId: string, now: int): (p: Plan)
    ensures p.planner == "simple" && p.goal == input.goal && p.goalState == Some(input.state)
    ensures p.nextEvent == Some(event) && p.episodeId == episodeId
    ensures |p.paths| == 1 && p.paths[0].state.None? && |p.paths[0].steps| == 1
    ensures p.paths[0].steps[0].event == event
    ensures p.paths[0].steps[0].state.Some? <==> input.machine.Some?
    ensures input.machine.Some? ==> p.paths[0].steps[0].state == Some(env.nextState(input.machine.value, input.state, event))
  {
    var stepState := if input.machine.Some? then Some(env.nextState(input.machine.value, input.state, event)) else None;
    Plan("simple", input.goal, Some(input.state), Some(event), [Path(None, [Step(event, stepState)], None)], episodeId, now)
  }

  /** `simplePlanner` from src/planners/simple.ts. */
  method SimplePlanner(agent: A.Agent, env: Env, input: StrategyInput, generate: ModelCall -> GenerateResult,
                       freshIds: nat -> string, clock: nat -> int, now: int)
    returns (r: Option<Plan>, call: Option<ModelCall>)
    modifies agent`observations, agent`messages, agent`decisions, agent`feedback, agent`delivered
    ensures S.ToolMapFor(env, input) == [] ==> r.None? && call.None? && agent.Memory() == old(agent.Memory()) && agent.delivered == old(agent.delivered)
    ensures S.ToolMapFor(env, input) != [] ==>
      call == Some(S.SimpleCall(input, agent.description, Text.GetMessages(input.messages, Prompt(input.state.context, input.goal)), S.ToolMapFor(env, input)))
    ensures call.Some? ==>
      var result := generate(call.value);
      agent.messages == old(agent.messages) + S.Built(S.Restamped(result.responseMessages, freshIds, clock), agent.episodeId, freshIds, clock)
      && (r.Some? <==> |result.toolResults| > 0)
      && (r.Some? ==> r == Some(SimplePlan(env, input, result.toolResults[0].result, agent.episodeId, now)))
    ensures call.Some? ==>
      agent.delivered == old(agent.delivered)
        + S.MessageDeliveries(agent.listeners, S.Built(S.Restamped(generate(call.value).responseMessages, freshIds, clock), agent.episodeId, freshIds, clock))
    ensures agent.observations == old(agent.observations) && agent.decisions == old(agent.decisions) && agent.feedback == old(agent.feedback)
  {
    var toolMap := Tools.GetToolMap(env, input);
    if toolMap.None? {
      return None, None;
    }
    var messages := Text.GetMessages(input.messages, Prompt(input.state.context, input.goal));
    var c := S.SimpleCall(input, agent.description, messages, toolMap.value);
    call := Some(c);
    var result := generate(c);
    S.RecordMessages(agent, S.Restamped(result.responseMessages, freshIds, clock), freshIds, clock);
    if |result.toolResults| == 0 {
      return None, call;
    }
    r := Some(SimplePlan(env, input, result.toolResults[0].result, agent.episodeId, now));
  }
}
