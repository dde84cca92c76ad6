/**
 * The simple strategy (src/strategies/simple.ts): offer the available
 * transitions as tools, ask the model for at most one tool call, record the
 * model's response messages, and package the first tool result as a
 * single-step decision.
 */
module SimpleStrategy {
  import opened Options
  import opened Strings
  import opened JsValue
  import opened AgentTypes
  import X = Xml
  import A = Agents
  import Tools
  import Text

  const Instruction: string := "Make"
    + " at most one tool call to achieve the above goal. If the goal cannot be achieved with any tool calls, do not make any tool call."

  /** The prompt template: the data rendered as tags, a blank line, the instruction, trimmed. */
  function PromptTemplate(data: Value): string
    requires IsObject(data)
  {
    Trim("\n" + X.ConvertToXml(data) + "\n\n" + Instruction + "\n  ")
  }

  lemma InstructionTrimmed()
    ensures |Instruction| > 0 && !IsWhitespace(Instruction[0]) && !IsWhitespace(Instruction[|Instruction| - 1])
    ensures TrimEnd(Instruction) == Instruction
  {
    assert "Make"[0] == 'M';
  }

  /** For non-empty data the prompt is exactly the rendering, a blank line and the instruction. */
  lemma PromptShape(data: Value)
    requires data.Obj? && |data.entries| > 0
    ensures PromptTemplate(data) == X.ConvertToXml(data) + "\n\n" + Instruction
  {
    X.ConvertToXmlDelimited(data);
    InstructionTrimmed();
    TrimFramed("\n", X.ConvertToXml(data), Instruction, "\n  ");
  }

  /** The prompt data `{state, goal}`. */
  function PromptData(input: StrategyInput): Value
  {
    Obj([("state", StateObject(input.state)), ("goal", Str(input.goal))])
  }

  /** The state comes before the goal, each in its own tag, then the instruction. */
  lemma PromptOrder(input: StrategyInput)
    ensures PromptTemplate(PromptData(input)) ==
      X.WrapInXml("state", X.ConvertToXml(StateObject(input.state))) + X.WrapInXml("goal", input.goal) + "\n\n" + Instruction
  {
    PromptShape(PromptData(input));
    X.ConvertPair("state", StateObject(input.state), "goal", Str(input.goal));
  }

  /** Every response message, given a fresh id and timestamp, in response order. */
  function Restamped(ms: seq<MessageInput>, freshIds: nat -> string, clock: nat -> int): (r: seq<MessageInput>)
    ensures |r| == |ms|
    ensures forall i :: 0 <= i < |ms| ==> r[i] == ms[i].(id := Some(freshIds(i)), timestamp := Some(clock(i)))
  {
    seq(|ms|, i requires 0 <= i < |ms| => ms[i].(id := Some(freshIds(i)), timestamp := Some(clock(i))))
  }

  /** The records `addMessage` builds for a list of inputs. */
  function Built(ms: seq<MessageInput>, episodeId: string, freshIds: nat -> string, clock: nat -> int): (r: seq<Message>)
    ensures |r| == |ms|
    ensures forall i :: 0 <= i < |ms| ==> r[i] == A.BuildMessage(ms[i], episodeId, freshIds(i), clock(i))
  {
    seq(|ms|, i requires 0 <= i < |ms| => A.BuildMessage(ms[i], episodeId, freshIds(i), clock(i)))
  }

  lemma BuiltSnoc(ms: seq<MessageInput>, episodeId: string, freshIds: nat -> string, clock: nat -> int, i: nat)
    requires i < |ms|
    ensures Built(ms[..i + 1], episodeId, freshIds, clock) == Built(ms[..i], episodeId, freshIds, clock) + [A.BuildMessage(ms[i], episodeId, freshIds(i), clock(i))]
  {
  }

  /** The listener calls caused by recording some messages, in order. */
  function MessageDeliveries(listeners: seq<A.Listener>, ms: seq<Message>): seq<A.Delivery>
  {
    if |ms| == 0 then [] else MessageDeliveries(listeners, ms[..|ms| - 1]) + A.Deliveries(listeners, EmittedMessage(ms[|ms| - 1]))
  }

  lemma MessageDeliveriesSnoc(listeners: seq<A.Listener>, ms: seq<Message>, m: Message)
    ensures MessageDeliveries(listeners, ms + [m]) == MessageDeliveries(listeners, ms) + A.Deliveries(listeners, EmittedMessage(m))
  {
    assert (ms + [m])[..|ms|] == ms;
  }

  /** One more message recorded extends both the messages log and the listener calls by that message. */
  lemma RecordStep(ms: seq<MessageInput>, episodeId: string, freshIds: nat -> string, clock: nat -> int, i: nat, m: Message,
                   messages: seq<Message>, delivered: seq<A.Delivery>, listeners: seq<A.Listener>)
    requires i < |ms| && m == A.BuildMessage(ms[i], episodeId, freshIds(i), clock(i))
    ensures messages + Built(ms[..i], episodeId, freshIds, clock) + [m] == messages + Built(ms[..i + 1], episodeId, freshIds, clock)
    ensures delivered + MessageDeliveries(listeners, Built(ms[..i], episodeId, freshIds, clock)) + A.Deliveries(listeners, EmittedMessage(m))
      == delivered + MessageDeliveries(listeners, Built(ms[..i + 1], episodeId, freshIds, clock))
  {
    var before := Built(ms[..i], episodeId, freshIds, clock);
    var after := Built(ms[..i + 1], episodeId, freshIds, clock);
    BuiltSnoc(ms, episodeId, freshIds, clock, i);
    assert after == before + [m];
    MessageDeliveriesSnoc(listeners, before, m);
    assert messages + before + [m] == messages + (before + [m]);
    var d := MessageDeliveries(listeners, before);
    var e := A.Deliveries(listeners, EmittedMessage(m));
    assert delivered + d + e == delivered + (d + e);
  }

  /** The `forEach` that hands every response message to `addMessage`, in order. */
  method RecordMessages(agent: A.Agent, ms: seq<MessageInput>, freshIds: nat -> string, clock: nat -> int)
    modifies agent`observations, agent`messages, agent`decisions, agent`feedback, agent`delivered
    ensures agent.messages == old(agent.messages) + Built(ms, agent.episodeId, freshIds, clock)
    ensures agent.observations == old(agent.observations) && agent.decisions == old(agent.decisions)
      && agent.feedback == old(agent.feedback)
    ensures agent.delivered == old(agent.delivered) + MessageDeliveries(agent.listeners, Built(ms, agent.episodeId, freshIds, clock))
  {
    var i := 0;
    while i < |ms|
      invariant 0 <= i <= |ms|
      invariant agent.messages == old(agent.messages) + Built(ms[..i], agent.episodeId, freshIds, clock)
      invariant agent.observations == old(agent.observations) && agent.decisions == old(agent.decisions)
        && agent.feedback == old(agent.feedback)
      invariant agent.delivered == old(agent.delivered) + MessageDeliveries(agent.listeners, Built(ms[..i], agent.episodeId, freshIds, clock))
    {
      ghost var mem := agent.Memory();
      var m := agent.AddMessage(ms[i], freshIds(i), clock(i));
      assert agent.Memory() == mem.(messages := mem.messages + [m]);
      RecordStep(ms, agent.episodeId, freshIds, clock, i, m, old(agent.messages), old(agent.delivered), agent.listeners);
      i := i + 1;
    }
    assert ms[..i] == ms;
  }

  /** The state the machine is resolved to: the observed state with `context ?? {}`. */
  function MachineState(s: ObservedState): ObservedState
  {
    ObservedState(s.value, Coalesce(s.context, Obj([])))
  }

  /** The model call: history and prompt, the tools, `system ?? description`, `toolChoice ?? 'required'`. */
  function SimpleCall(input: StrategyInput, description: Option<string>, messages: seq<CoreMessage>, toolMap: ToolMap): (c: ModelCall)
    ensures c.tools == Some(toolMap) && c.messages == messages
    ensures c.toolChoice == Some(if input.toolChoice.Some? then input.toolChoice.value else "required")
    ensures c.system == (if input.system.Some? then input.system else description)
  {
    ModelCall(input.system.OrElse(description), messages, Some(toolMap), Some(input.toolChoice.GetOr("required")))
  }

  /** The single-step decision built from the first tool result. */
  function SimpleDecision(env: Env, input: StrategyInput, event: Value, episodeId: string, id: string, now: int): (d: Decision)
    ensures d.strategy == "simple" && d.goal == input.goal && d.goalState == Some(input.state)
    ensures d.nextEvent == Some(event) && d.episodeId == episodeId
    ensures |d.paths| == 1 && d.paths[0].state.None? && |d.paths[0].steps| == 1
    ensures d.paths[0].steps[0].event == event
    ensures d.paths[0].steps[0].state.Some? <==> input.machine.Some?
    ensures input.machine.Some? ==> d.paths[0].steps[0].state == Some(env.nextState(input.machine.value, MachineState(input.state), event))
  {
    var stepState := if input.machine.Some? then Some(env.nextState(input.machine.value, MachineState(input.state), event)) else None;
    Decision(id, "simple", input.goal, Some(input.state), Some(event), [Path(None, [Step(event, stepState)], None)], episodeId, now)
  }

  /** The tool map this strategy offers, as `getToolMap` computes it. */
  function ToolMapFor(env: Env, input: StrategyInput): ToolMap
  {
    Tools.ToolMapOf(Tools.ToolTransitions(Tools.CandidateTransitions(env, input.state, input.machine, input.events), input.events), input.events)
  }

  /**
   * `simpleStrategy`. The model is an oracle from the call to its result;
   * `call` is the call made, if any. Ids and timestamps are parameters.
   */
  method Decide(agent: A.Agent, env: Env, input: StrategyInput, generate: ModelCall -> GenerateResult,
                freshIds: nat -> string, clock: nat -> int, decisionId: string, now: int)
    returns (r: Option<Decision>, call: Option<ModelCall>)
    modifies agent`observations, agent`messages, agent`decisions, agent`feedback, agent`delivered
    ensures ToolMapFor(env, input) == [] ==> r.None? && call.None? && agent.Memory() == old(agent.Memory()) && agent.delivered == old(agent.delivered)
    ensures ToolMapFor(env, input) != [] ==>
      call == Some(SimpleCall(input, agent.description, Text.GetMessages(input.messages, PromptTemplate(PromptData(input))), ToolMapFor(env, input)))
    ensures call.Some? ==>
      var result := generate(call.value);
      agent.messages == old(agent.messages) + Built(Restamped(result.responseMessages, freshIds, clock), agent.episodeId, freshIds, clock)
      && (r.Some? <==> |result.toolResults| > 0)
      && (r.Some? ==> r == Some(SimpleDecision(env, input, result.toolResults[0].result, agent.episodeId, decisionId, now)))
    ensures call.Some? ==>
      agent.delivered == old(agent.delivered)
        + MessageDeliveries(agent.listeners, Built(Restamped(generate(call.value).responseMessages, freshIds, clock), agent.episodeId, freshIds, clock))
    ensures agent.observations == old(agent.observations) && agent.decisions == old(agent.decisions) && agent.feedback == old(agent.feedback)
  {
    var toolMap := Tools.GetToolMap(env, input);
    if toolMap.None? {
      return None, None;
    }
    var prompt := PromptTemplate(PromptData(input));
    var messages := Text.GetMessages(input.messages, prompt);
    var c := SimpleCall(input, agent.description, messages, toolMap.value);
    call := Some(c);
    var result := generate(c);
    RecordMessages(agent, Restamped(result.responseMessages, freshIds, clock), freshIds, clock);
    if |result.toolResults| == 0 {
      return None, call;
    }
    r := Some(SimpleDecision(env, input, result.toolResults[0].result, agent.episodeId, decisionId, now));
  }

  /** Each recorded response message keeps its content and gets the fresh id and timestamp and the agent's episode. */
  lemma RestampedRecords(ms: seq<MessageInput>, episodeId: string, freshIds: nat -> string, clock: nat -> int, i: nat)
    requires i < |ms|
    ensures var m := Built(Restamped(ms, freshIds, clock), episodeId, freshIds, clock)[i];
      m.core == ms[i].core && m.id == freshIds(i) && m.timestamp == clock(i) && m.episodeId == episodeId
  {
  }
}
