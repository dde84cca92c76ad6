/**
 * The records of the agent library (src/types.ts) and the parts of the
 * environment model and language-model interface that the decision
 * pipeline relies on.
 */
module AgentTypes {
  import opened Options
  import opened JsValue
  import E = Entries

  /** A point-in-time `{value, context}` view of the environment; an absent context is `Undef`. */
  datatype ObservedState = ObservedState(value: Value, context: Value)

  /** The object `{value, context}`, with both keys present, as the orchestrator builds it. */
  function StateObject(s: ObservedState): Value
  {
    Obj([("value", s.value), ("context", s.context)])
  }

  /** A guard as the state machine stores it: by name, as a `{type}` object, or as an inline function. */
  datatype Guard = NamedGuard(name: string) | GuardObject(guardType: string) | InlineGuard(fn: nat)

  /** One transition of the environment model (`TransitionData`); `eventType` is the only required field. */
  datatype TransitionData = TransitionData(
    eventType: string,
    description: Option<string>,
    guard: Option<Guard>,
    target: Option<seq<string>>)

  /** A state node: its transitions grouped per event type, in declaration order, and its child states. */
  datatype StateNode = StateNode(key: string, on: seq<(string, seq<TransitionData>)>, states: seq<StateNode>)

  /** A state machine, reduced to its identity and its root node. */
  datatype Machine = Machine(id: string, root: StateNode)

  /**
   * The environment model's pure functions: the active state nodes of the
   * snapshot resolved from an observed state, and the snapshot that follows
   * an event.
   */
  datatype Env = Env(
    activeNodes: (Machine, ObservedState) -> seq<StateNode>,
    nextState: (Machine, ObservedState, Value) -> ObservedState)

  /** An entry of the event-schema registry: its description and its parameter schema. */
  datatype EventSchema = EventSchema(description: Option<string>, shape: Value)

  /** The event-schema registry, event type to schema, in declaration order. */
  type Registry = E.Entries<EventSchema>

  /** `AgentStep`: an event and the state expected after it. */
  datatype Step = Step(event: Value, state: Option<ObservedState>)

  /** `AgentPath`: the expected end state, the steps to it and an optional weight. */
  datatype Path = Path(state: Option<ObservedState>, steps: seq<Step>, weight: Option<int>)

  /** `AgentDecision` */
  datatype Decision = Decision(
    id: string,
    strategy: string,
    goal: string,
    goalState: Option<ObservedState>,
    nextEvent: Option<Value>,
    paths: seq<Path>,
    episodeId: string,
    timestamp: int)

  datatype Role = SystemRole | UserRole | AssistantRole | ToolRole

  datatype Part =
    | TextPart(text: string)
    | ImagePart(url: string)
    | ToolCallPart(toolCallId: string, toolName: string, args: Value)
    | ToolResultPart(toolCallId: string, toolName: string, result: Value)

  datatype Content = TextContent(text: string) | PartsContent(parts: seq<Part>)

  /** A chat message as the model interface exchanges it. */
  datatype CoreMessage = CoreMessage(role: Role, content: Content)

  /**
   * `AgentMessageInput`: a chat message with optional id and timestamp.
   * `result` is the optional generation result attached to it, an opaque value here.
   */
  datatype MessageInput = MessageInput(core: CoreMessage, id: Option<string>, timestamp: Option<int>, responseId: Option<string>,
    result: Option<Value>)

  /** `AgentMessage`, as stored in memory. */
  datatype Message = Message(core: CoreMessage, id: string, timestamp: int, episodeId: string, responseId: Option<string>,
    result: Option<Value>)

  /** `AgentFeedbackInput` (the caller may also pass an episode id). */
  datatype FeedbackInput = FeedbackInput(
    observationId: string,
    score: int,
    comment: Option<string>,
    attributes: Option<E.Entries<Value>>,
    reward: Option<int>,
    timestamp: Option<int>,
    episodeId: Option<string>)

  /** `AgentFeedback`, correlated to an observation only. */
  datatype Feedback = Feedback(
    observationId: string,
    score: int,
    comment: Option<string>,
    attributes: E.Entries<Value>,
    reward: int,
    timestamp: int,
    episodeId: string)

  /** `AgentObservationInput` (the caller may also pass a decision id). */
  datatype ObservationInput = ObservationInput(
    id: Option<string>,
    prevState: Option<ObservedState>,
    event: Option<Value>,
    state: ObservedState,
    machine: Option<Machine>,
    timestamp: Option<int>,
    goal: Option<string>,
    decisionId: Option<string>)

  /** `AgentObservation` */
  datatype Observation = Observation(
    id: string,
    episodeId: string,
    prevState: Option<ObservedState>,
    event: Option<Value>,
    state: ObservedState,
    timestamp: int,
    machineHash: Option<string>)

  /** `AgentMemoryContext`: the four append-only logs. */
  datatype MemoryContext = MemoryContext(
    observations: seq<Observation>,
    messages: seq<Message>,
    decisions: seq<Decision>,
    feedback: seq<Feedback>)

  /** The events the memory reducer receives; any other event type is `Unrecognized`. */
  datatype MemoryEvent =
    | FeedbackEvent(feedback: Feedback)
    | ObserveEvent(observation: Observation)
    | MessageEvent(message: Message)
    | DecisionEvent(decision: Decision)
    | Unrecognized(eventType: string)

  /** `AgentEmitted`: the notification sent for each append. */
  datatype Emitted =
    | EmittedFeedback(feedback: Feedback)
    | EmittedObservation(observation: Observation)
    | EmittedMessage(message: Message)
    | EmittedDecision(decision: Decision)

  datatype EmittedKind = FeedbackKind | ObservationKind | MessageKind | DecisionKind

  function KindOf(e: Emitted): EmittedKind
  {
    match e
    case EmittedFeedback(_) => FeedbackKind
    case EmittedObservation(_) => ObservationKind
    case EmittedMessage(_) => MessageKind
    case EmittedDecision(_) => DecisionKind
  }

  /** A tool offered to the language model: the event type it stands for, its description and its parameter schema. */
  datatype Tool = Tool(eventType: string, description: Option<string>, parameters: Value)

  /** A tool map, tool name to tool, in insertion order. */
  type ToolMap = E.Entries<Tool>

  /** Where a strategy's message history comes from: absent, an array, or the result of a function of the agent. */
  datatype History = NoHistory | GivenHistory(messages: seq<CoreMessage>) | ComputedHistory(computed: seq<CoreMessage>)

  /** What a strategy hands to the language model. */
  datatype ModelCall = ModelCall(system: Option<string>, messages: seq<CoreMessage>, tools: Option<ToolMap>, toolChoice: Option<string>)

  /** One executed tool call: the value its `execute` returned. */
  datatype ToolResult = ToolResult(toolCallId: string, toolName: string, args: Value, result: Value)

  /** What the language model returns: the response messages and the tool results, in order. */
  datatype GenerateResult = GenerateResult(responseMessages: seq<MessageInput>, toolResults: seq<ToolResult>)

  /** `AgentDecideInput`: what the orchestrator hands to a strategy. */
  datatype StrategyInput = StrategyInput(
    goal: string,
    state: ObservedState,
    events: Registry,
    machine: Option<Machine>,
    messages: History,
    system: Option<string>,
    toolChoice: Option<string>,
    context: Value,
    episodeId: Option<string>,
    decisions: Option<seq<Decision>>)

  /** `maxAttempts` defaults to 2. */
  const DefaultMaxAttempts: int := 2
}
