# A verified model of the agent library's decision pipeline

This project models, in Dafny, the core of a TypeScript library that turns a
language model into an agent acting on a state machine. The model covers:

- **The agent's short-term memory.** `Agents` models the memory reducer and the
  `Agent` object. The object keeps four append-only logs: messages,
  observations, decisions and feedback. It builds records with their
  defaults, notifies the `onMessage`/`onFeedback` listeners, and chains
  previous states in `observe`.
- **The decision orchestrator** `agentDecide` (`Decide`). It filters the
  registry by `allowedEvents`, strips the state down to `{value, context}`,
  runs the bounded attempt loop, and records and executes the first decision
  that names an event.
- **Tool synthesis** `getToolMap` and the planner's inline copy of it
  (`Tools`), built over the transition listing of `src/utils.ts`
  (`Transitions`).
- **Prompt rendering.** `wrapInXml`/`convertToXml` (`Xml`),
  `defaultTextTemplate` (`Templates`) and `getMessages` (`Text`).
- **The strategies.** The simple strategy and its second copy
  (`SimpleStrategy`, `SimpleStrategyVariant`), chain-of-thought
  (`ChainOfThought`) and the shortest-path strategy (`ShortestPath`). The
  shortest-path strategy trims paths at the current state, sorts them by cost
  in place, and picks the first step of the cheapest one.
- **The planners.** `Planners`, `ShortestPathPlanner` and `InlinePlanner`.
- **Three example machines.** The water jugs (`Jugs`), the river crossing
  (`RiverCrossing`) and the todo list (`Todo`).

The language model, the state-machine runtime, graph search, id generation
and clocks are all parameters:

| Outside call | Stands in for |
|---|---|
| `generate: ModelCall -> GenerateResult` | `generateText` |
| `Env` (`activeNodes`, `nextState`) | xstate's `resolveState` and `getNextSnapshot`/`transition` |
| `search` | the schema-generating model call plus `getShortestPaths` |
| `freshIds`/`freshId` and `clock`/`now` | `randomId()` and `Date.now()` |
| `hash` | `object-hash` |

JavaScript values are the datatype `JsValue.Value`. `JSON.stringify` is
modelled concretely over it (`Json`). An object is the list of its entries,
and every key keeps its insertion order (`Entries`). This differs from
JavaScript for integer-like keys; see "Left out".

Where the library's tests and its code disagree, the model follows the code:

- `addFeedback` always stamps the agent's own episode id, even when the caller
  supplies one.
- `addObservation` drops the input's `decisionId` and `goal`.
- `addObservation` stamps the agent's own episode id. A test expects the
  observation to keep a caller-supplied `episodeId` instead
  (`src/agent.test.ts:590-604`); `Agents.BuildObservation` follows the code
  (`src/agent.ts:287`).

The shortest-path sort's comparator is `costFunction(a) - costFunction(b)`.
For two unweighted paths this is `Infinity - Infinity`, which is NaN. The
array sort treats NaN as "not less", so the comparator acts as "equal". With
that reading the order is a total preorder (`ShortestPath.CompareConsistent`),
and a stable sort puts the first cheapest path at the head.

## Model

| member | source | states |
|---|---|---|
| Agents.InitialMemory | src/agent.ts:88-94 | a fresh memory holds no records |
| Agents.Reduce | src/agent.ts:44-86 | a recognised event appends its record at the end of its log. Every old log is a prefix of the new one. The record count grows by one, or by none for an unrecognised event |
| Agents.UnrecognizedIsIgnored | src/agent.ts:80-86 | an unrecognised event leaves all four logs unchanged |
| Agents.ReduceTouchesOneLog | src/agent.ts:45-79 | exactly one of the four logs changes on a recognised event |
| Agents.EmittedFor | src/agent.ts:47-77 | a notification is emitted exactly for the recognised events |
| Agents.EmittedCarriesRecord | src/agent.ts:47-77 | the notification carries the record just appended |
| Agents.ReduceAllLogs | src/agent.ts:42-95 | after any sequence of events, each log is, in order, the records of the events of its kind |
| Agents.Deliveries | src/agent.ts:223-232 | a notification reaches only listeners of its kind, carrying itself |
| Agents.DeliveriesReachAll | src/agent.ts:223-232 | every registered listener of the notification's kind is called |
| Agents.WithoutListener | src/agent.ts:223-232 | unsubscribing removes exactly the listeners with that handle |
| Agents.NoDeliveryAfterUnsubscribe | src/agent.ts:223-232 | an unsubscribed listener is never called again |
| Agents.BuildMessage | src/agent.ts:237-243 | the message keeps the input's content, response id and attached generation result. Its id and timestamp are the input's when given, else fresh. Its episode id is the agent's |
| Agents.BuildFeedback | src/agent.ts:256-263 | attributes are the input's or `{}`. The reward is the input's or 0. The timestamp is the input's or now. The episode id is the agent's |
| Agents.FeedbackIgnoresCallerEpisode | src/agent.ts:262 | a caller-supplied episode id never reaches the feedback record |
| Agents.BuildObservation | src/agent.ts:281-292 | the observation keeps prevState, event and state. Its id and timestamp default. It has the agent's episode id and the given machine hash |
| Agents.ObservationDropsGoalAndDecision | src/agent.ts:281-292 | the input's goal and decision id do not affect the record |
| Agents.Relevant | src/agent.ts:455-460 | only snapshot events of the observed actor are kept, in order |
| Agents.Agent.constructor | src/agent.ts:206-218 | the episode id is the given id or a fresh one, and memory starts empty |
| Agents.Agent.Send | src/agent.ts:42-86 | memory becomes the reducer's result. Every listener of the emitted kind is called once, in registration order |
| Agents.Agent.On | src/agent.ts:223-232 | registers one listener under a handle no earlier listener has |
| Agents.Agent.OnMessage | src/agent.ts:223-225 | registers a message listener with a new handle |
| Agents.Agent.OnFeedback | src/agent.ts:230-232 | registers a feedback listener with a new handle |
| Agents.Agent.Unsubscribe | src/agent.ts:223-232 | the listener list loses exactly that handle |
| Agents.Agent.AddMessage | src/agent.ts:237-250 | returns the built message, appends that same record and notifies the message listeners |
| Agents.Agent.AddFeedback | src/agent.ts:256-269 | returns the built feedback, appends that same record and notifies the feedback listeners |
| Agents.Agent.AddObservation | src/agent.ts:278-300 | the machine hash is present exactly when a machine is given, and comes from the cache. The record is appended and returned |
| Agents.Agent.AddDecision | src/agent.ts:309-314 | appends the decision to the decisions log only |
| Agents.Agent.RecordSnapshot | src/agent.ts:462-471 | one observation with the snapshot, its event and the previous state is appended, and the observation listeners are called with it. The other logs are unchanged |
| Agents.Agent.Observe | src/agent.ts:448-477 | one observation per relevant snapshot, in order. Each observation's previous state is the one recorded before it; the first uses the state at subscription. Each recorded observation calls the observation listeners, in order. Without an actor system nothing is recorded |
| Agents.Agent.RecordNext | src/agent.ts:462-471 | one more recorded snapshot extends the observations log and the listener calls by its observation |
| Decide.FilterRegistry | src/decide.ts:34-40 | with `allowedEvents`, exactly the registry entries whose key is allowed, each pair of them in the registry's order; without it, the registry unchanged |
| Decide.MinimalState | src/decide.ts:48-51 | the state passed on is the snapshot's `value` and `context` |
| Decide.MinimalStateRoundTrip | src/decide.ts:48-51 | stripping a `{value, context}` object gives back the same state |
| Decide.MinimalStateIgnoresOtherKeys | src/decide.ts:48-51 | other snapshot properties do not affect the stripped state |
| Decide.StrategyInputFor | src/decide.ts:54-62 | the strategy gets the filtered registry, the stripped state, and the caller's goal, machine and messages. `system`, `toolChoice`, `context`, `episodeId` and `decisions` pass through unchanged |
| Decide.Bound | src/decide.ts:44 | the attempt budget is `maxAttempts ?? 2`, and none when it is negative |
| Decide.FirstHit | src/decide.ts:53-69 | the first attempt whose result has a next event; all earlier attempts had none |
| Decide.Calls | src/decide.ts:53-69 | the strategy is called at most the budget's number of times |
| Decide.NoAttemptsWhenNotPositive | src/decide.ts:42-53 | with `maxAttempts <= 0` the strategy is never called and the result is undefined |
| Decide.OutcomeIsFirstHit | src/decide.ts:64-71 | the result has a next event if and only if some allowed attempt produced one, and then it is the first such result |
| Decide.AllAttemptsUsed | src/types.ts:166-170 | a strategy that never finds an event is asked exactly `maxAttempts` times, 2 by default |
| Decide.AgentDecide | src/decide.ts:14-72 | the strategy sees the filtered registry and the stripped state. The result is the last attempt's decision. The messages log grows by the records of every attempt made, failed ones included. A result with a next event is appended to decisions once and handed to `execute`; otherwise decisions, observations and feedback are unchanged |
| Decide.Attempts | src/decide.ts:53-69 | the loop stops at the first hit or when the budget is spent, every earlier attempt having missed, and returns the last attempt's decision. Each attempt's message records are appended in attempt order, and only a hit is recorded as a decision |
| Decide.StoppedAtIsOutcome | src/decide.ts:53-69 | stopping that way means exactly `Calls` attempts, resolving to `Outcome` |
| Decide.RecordDecision | src/decide.ts:64-67 | a hit is appended to decisions, its listeners are notified, and its next event goes to `execute` when one is given |
| Decide.RecordedByAttempts | src/strategies/simple.ts:70-78 | every attempt made contributes its records to the messages log, at its position in attempt order |
| Tools.RegistryTransitions | src/decide.ts:113-116 | without a machine, one transition per registry entry, carrying its description |
| Tools.CandidateTransitions | src/decide.ts:111-116 | with a machine, exactly `getTransitions` of the active nodes; without one, exactly the registry's event types |
| Tools.ToolTransitions | src/decide.ts:127-141 | every result has a registered event type and is named after it with dots turned into underscores; every transition with a registered event type yields one |
| Tools.ToolTransitionsFrom | src/decide.ts:127-141 | every result is the tool transition of an input transition whose event type is registered |
| Tools.ToolTransitionsOrdered | src/decide.ts:127-141 | any two tool transitions appear in the order of the transitions they come from |
| Tools.MachineToolsFromTransitions | src/decide.ts:111-172 | with a machine, every tool offered is built for a registered transition of the active nodes: same event type, name with dots as underscores |
| Tools.ToolMapProperties | src/decide.ts:145-165 | there is one tool per distinct name of a registered candidate. Names are unique. Each tool is named after its event type and carries that type's schema. Its description is the schema's description, or else that of the last registered candidate with its name |
| Tools.ToolMapLookup | src/decide.ts:145-165 | a tool of a given name exists exactly when a registered candidate has that name. It is built from the last such candidate: its event type, the schema's parameters, and `schema.description ?? transition.description` |
| Tools.ToolMapLastWins | src/decide.ts:153 | a later candidate with the same name overwrites the earlier tool |
| Tools.GetToolMap | src/decide.ts:106-173 | the tool map, or undefined exactly when it is empty |
| Tools.BuildToolMap | src/decide.ts:145-165 | the loop builds exactly the specified tool map |
| Tools.NoMachineToolMap | src/decide.ts:111-172 | without a machine there is a tool exactly when the registry is non-empty |
| Tools.DottedNamesCollide | src/decide.ts:132 | `a.b` and `a_b` collapse to one tool, the later one |
| Tools.PlannerToolMap | src/planners/simplePlanner.ts:37-81 | the planner's inline loop builds the same tool map, kept even when empty |
| Tools.Execute | src/decide.ts:156-163 | a tool's `execute` yields an object with a `type` member |
| Tools.ExecuteFields | src/decide.ts:156-163 | the event carries every parameter, and `type` is the event type unless a parameter overrides it |
| Transitions.Normalise | src/utils.ts:18-24 | a string guard becomes `{type}`; every other field and guard is kept, and the guard's name is preserved |
| Transitions.NormaliseIdempotent | src/utils.ts:18-24 | normalising twice equals normalising once |
| Transitions.EventTransitions | src/utils.ts:16-25 | one event's transitions, normalised, in order |
| Transitions.NodeTransitionsMember | src/utils.ts:14-26 | a transition is listed for a node exactly when one of its events declares it |
| Transitions.AllTransitionsMember | src/utils.ts:11-31 | a transition is listed exactly when some active node declares it, up to the guard rewrite |
| Transitions.AllTransitionsAppend | src/utils.ts:11-31 | node order is kept in the flattening |
| Transitions.AllTransitionsNormalised | src/utils.ts:11-31 | every listed transition has a normalised guard |
| Transitions.AllMachineTransitions | src/utils.ts:33-56 | the recursive loop lists the tree's transitions in pre-order: the node's own, then each child's subtree |
| Transitions.OwnTransitionsFirst | src/utils.ts:36-53 | a node's own transitions come first |
| Transitions.GetTransitions | src/utils.ts:103-117 | none without a machine; otherwise exactly those declared by the active nodes, normalised |
| Transitions.MachineHashCache.constructor | src/utils.ts:81 | the cache starts empty |
| Transitions.MachineHashCache.GetMachineHash | src/utils.ts:85-91 | returns the hash of the machine's transitions. A cached value is returned unchanged; otherwise the hash is stored |
| Transitions.HashTwice | src/utils.ts:85-91 | two lookups of the same machine agree |
| Xml.UnwrapWrap | src/utils.ts:58-60 | the content can be taken back out of `<tag>content</tag>` |
| Xml.ConvertToXmlSnoc | src/utils.ts:62-72 | `{}` renders as the empty string, and each further entry appends its element |
| Xml.ConvertPair | src/utils.ts:62-72 | a two-entry object renders as its two elements in entry order, with no separator |
| Xml.ConvertTriple | src/utils.ts:62-72 | a three-entry object renders as its three elements in entry order |
| Xml.ElementDelimited | src/utils.ts:64-70 | every element starts with `<` and ends with `>` |
| Xml.ConvertToXmlDelimited | src/utils.ts:62-72 | a non-empty object's rendering starts with `<` and ends with `>` |
| Templates.PreambleLine | src/templates/defaultText.ts:6-11 | a line is present exactly when its value is truthy, and is the value's JSON in its tag |
| Templates.PreambleLines | src/templates/defaultText.ts:5-14 | the state value line, then the context line, each only when truthy, joined by one newline |
| Templates.PreambleDelimited | src/templates/defaultText.ts:5-14 | a non-empty preamble is delimited by `<` and `>` |
| Templates.TemplateWithoutPreamble | src/templates/defaultText.ts:16-20 | with no preamble the prompt is the trimmed goal |
| Templates.TemplateWithPreamble | src/templates/defaultText.ts:16-20 | otherwise it is the preamble, a blank line and the end-trimmed goal; a blank goal leaves the preamble alone |
| Text.GetMessages | src/text.ts:36-48 | the history followed by exactly one user message with the prompt |
| Text.GetMessagesNoHistory | src/text.ts:43-48 | without history the prompt message is the whole list |
| Text.GetMessagesSourceIrrelevant | src/text.ts:37-41 | a history array and a function returning it give the same messages |
| SimpleStrategy.InstructionTrimmed | src/strategies/simple.ts:17 | the instruction has no surrounding white space |
| SimpleStrategy.PromptShape | src/strategies/simple.ts:13-19 | for non-empty data the prompt is the rendering, a blank line and the instruction |
| SimpleStrategy.PromptOrder | src/strategies/simple.ts:34-37 | the state element comes before the goal element, then the instruction |
| SimpleStrategy.Restamped | src/strategies/simple.ts:70-78 | each response message, in order, with a fresh id and timestamp |
| SimpleStrategy.Built | src/strategies/simple.ts:73-77 | the records `addMessage` builds for the messages, index by index |
| SimpleStrategy.RecordMessages | src/strategies/simple.ts:70-78 | every message is appended, in order. Only the messages log changes, and each record notifies the message listeners |
| SimpleStrategy.SimpleCall | src/strategies/simple.ts:61-68 | the call carries the tools and the messages. The tool choice is `toolChoice ?? 'required'` and the system is `system ?? description` |
| SimpleStrategy.SimpleDecision | src/strategies/simple.ts:88-110 | strategy `simple`, goal state the input state, next event the result. One path with no state and one step for that event. The step's state is present exactly with a machine |
| SimpleStrategy.Decide | src/strategies/simple.ts:21-111 | without tools: no call, no record, undefined. Otherwise one call with history plus prompt; every response message is recorded and notifies the message listeners; the decision exists exactly when there is a tool result and is built from the first |
| SimpleStrategy.RestampedRecords | src/strategies/simple.ts:70-78 | each recorded response keeps its content and carries the fresh id and timestamp and the agent's episode id |
| SimpleStrategyVariant.PromptOrder | src/strategies/simpleStrategy.ts:34-38 | the prompt renders the state value, then `context ?? state.context`, then the goal, then the instruction |
| SimpleStrategyVariant.Decide | src/strategies/simpleStrategy.ts:21-100 | as the simple strategy, but messages are recorded as given and the episode id is `input.episodeId ?? agent.episodeId`. Each recorded message notifies the message listeners |
| SimpleStrategyVariant.KeepsGivenStamps | src/strategies/simpleStrategy.ts:63-65 | a response message's own id and timestamp survive recording |
| ChainOfThought.PromptShape | src/strategies/chainOfThought.ts:14-23 | the context element, then the goal element, a blank line and the question |
| ChainOfThought.ReasoningCall | src/strategies/chainOfThought.ts:38-42 | no tools and no tool choice. The messages are history plus the reasoning prompt, and the system is `system ?? description` |
| ChainOfThought.Cores | src/strategies/chainOfThought.ts:46 | the response messages, in order |
| ChainOfThought.FollowUp | src/strategies/chainOfThought.ts:44-47 | only the messages change: they become the reasoning messages followed by the response |
| ChainOfThought.Decide | src/strategies/chainOfThought.ts:25-50 | the simple strategy's call sees history, reasoning prompt, reasoning response and its own prompt, in that order. The result, the recorded responses and their listener calls are the simple strategy's |
| ShortestPath.StatesEqualIgnoresUndefinedMembers | src/strategies/shortestPath.ts:20-29 | states that differ only by an undefined context member compare equal |
| ShortestPath.FindFirst | src/strategies/shortestPath.ts:32-34 | the first index satisfying the predicate, or none exactly when no element does |
| ShortestPath.TrimSteps | src/strategies/shortestPath.ts:31-41 | undefined exactly when no step's state matches; otherwise the steps after the first match |
| ShortestPath.TrimPath | src/strategies/shortestPath.ts:148-157 | the path with only its steps replaced by the trimmed steps, or undefined |
| ShortestPath.TrimmedPaths | src/strategies/shortestPath.ts:147-158 | exactly the trims of the paths that can be trimmed |
| ShortestPath.TrimmedPathsOrdered | src/strategies/shortestPath.ts:147-158 | any two trimmed paths appear in the order of the paths they come from |
| ShortestPath.CompareConsistent | src/strategies/shortestPath.ts:161-163 | the cost comparator is antisymmetric, total and transitive, with Infinity against Infinity treated as equal |
| ShortestPath.DefaultCost | src/strategies/shortestPath.ts:47-48 | the cost is the weight, or Infinity when there is none |
| ShortestPath.FirstCheapestIsFirstLeast | src/strategies/shortestPath.ts:161-165 | the head the sort leaves is a path of least cost, and every path before it is strictly more expensive |
| ShortestPath.Insert | src/strategies/shortestPath.ts:161-163 | one step of the in-place sort. The prefix grows sorted, the array stays a permutation, and the head changes only for a strictly cheaper element |
| ShortestPath.SortByCost | src/strategies/shortestPath.ts:161-163 | the array ends sorted by cost and is a permutation of the original. Its head is the first cheapest path |
| ShortestPath.FindCached | src/strategies/shortestPath.ts:49-51 | the first earlier decision of this strategy with the same goal, or none when there is no such decision |
| ShortestPath.NextEvent | src/strategies/shortestPath.ts:165-166 | the first event of the first cheapest trimmed path; undefined when there is no path or that path is empty |
| ShortestPath.FirstState | src/strategies/shortestPath.ts:173 | the goal state is the first untrimmed path's state |
| ShortestPath.CandidatePaths | src/strategies/shortestPath.ts:53-141 | the cached paths when there are some, otherwise the search from the resolved state when there is a machine, otherwise none |
| ShortestPath.CheapestNextEvent | src/strategies/shortestPath.ts:147-166 | trim, sort in place and take the head: the next event of the cheapest trimmed path |
| ShortestPath.Decide | src/strategies/shortestPath.ts:43-178 | undefined exactly with neither a cached decision nor a machine. The search runs only on a cache miss with a machine. The decision carries the untrimmed paths, the first path's state and the cheapest next event |
| ShortestPathPlanner.FindCachedPlan | src/planners/shortestPathPlanner.ts:44-46 | the first earlier shortest-path plan with the same goal, or none when there is no such plan |
| ShortestPathPlanner.MakePlan | src/planners/shortestPathPlanner.ts:38-161 | undefined exactly with neither a cached plan nor a machine. The plan has planner `shortestPath`, the untrimmed paths, the first path's state and the cheapest next event |
| Planners.PromptShape | src/planners/simple.ts:9-15 | the default template, a blank line and the instruction; only the instruction when the template is empty |
| Planners.PromptWithoutContext | src/planners/simple.ts:9-15 | without context the prompt is the trimmed goal and the instruction |
| Planners.SimplePlan | src/planners/simple.ts:83-104 | planner `simple`, goal state the input state, and one single-step path whose event is the next event. The step's state is present exactly with a machine |
| Planners.SimplePlanner | src/planners/simple.ts:17-105 | without tools: no call and undefined. Otherwise the responses are recorded in order and notify the message listeners, and the plan exists exactly when there is a tool result |
| InlinePlanner.ContextBlock | src/planners/simplePlanner.ts:82-87 | empty for a falsy context; otherwise the indented JSON in a `<context>` block |
| InlinePlanner.BlockTrimmed | src/planners/simplePlanner.ts:83-86 | trimming the block leaves the tagged JSON between newlines |
| InlinePlanner.PromptWithContext | src/planners/simplePlanner.ts:88-94 | the context block comes before the goal and the closing line, a blank line apart |
| InlinePlanner.PromptWithoutContext | src/planners/simplePlanner.ts:88-94 | without context the prompt is the goal and the closing line |
| InlinePlanner.PlannerCall | src/planners/simplePlanner.ts:96-103 | the prompt is the only message. The call carries the tool map and the caller's system and tool choice |
| InlinePlanner.Plan | src/planners/simplePlanner.ts:34-121 | the model is always called, even with no tools. A plan exists exactly when there is a tool result; its next event is its single step's event |
| Jugs.Act | examples/jugs.ts:54-87 | fill and empty set one jug and leave the other. Pouring fills the target up to its capacity |
| Jugs.PourConserves | examples/jugs.ts:67-86 | pouring keeps the total |
| Jugs.ActInBounds | examples/jugs.ts:55-86 | every action keeps both jugs within capacity |
| Jugs.Initial | examples/jugs.ts:46-47 | the machine starts `solving`, within bounds |
| Jugs.Step | examples/jugs.ts:49-91 | in `solving` the action runs and the machine reaches `success` exactly when the 5-gallon jug holds 4; `success` is final |
| Jugs.RunInBounds | examples/jugs.ts:47-86 | every run from bounds stays within bounds |
| Jugs.SuccessHoldsFour | examples/jugs.ts:50-53 | `success` is reached only with 4 gallons, and nothing changes after it |
| Jugs.SixMovesSolve | examples/jugs.ts:46-91 | a six-move run reaches `success` |
| RiverCrossing.WithoutCounts | examples/river-crossing.ts:71 | the filter removes every copy of the item and keeps the others |
| RiverCrossing.Act | examples/river-crossing.ts:66-101 | a take moves the item to the right bank's end and the farmer right. `returnEmpty` only moves the farmer |
| RiverCrossing.ActConserves | examples/river-crossing.ts:66-101 | an enabled event keeps the multiset of items on the two banks |
| RiverCrossing.DuplicatesWouldShrink | examples/river-crossing.ts:71 | filtering would drop duplicate items together |
| RiverCrossing.Initial | examples/river-crossing.ts:53-58 | the machine starts `solving` with all items accounted for |
| RiverCrossing.Step | examples/river-crossing.ts:60-103 | a disabled event, or any event in `success`, changes nothing. Otherwise the action runs, and `success` comes exactly with three items on the right |
| RiverCrossing.RunConserves | examples/river-crossing.ts:66-101 | every run keeps the items |
| RiverCrossing.SuccessMeansLeftEmpty | examples/river-crossing.ts:61-63 | three items on the right leaves the left bank empty |
| RiverCrossing.FiveMovesSolve | examples/river-crossing.ts:53-106 | five moves reach `success`, since no rule forbids leaving items together |
| Todo.Initial | examples/todo.ts:45-48 | `idle` with no todos and no command |
| Todo.Added | examples/todo.ts:52-59 | the old list followed by one new todo that is not done |
| Todo.SpliceStart | examples/todo.ts:68 | where `splice` starts: in-range indices as given, negative ones from the end, clamped to the list |
| Todo.DeleteTodoAction | examples/todo.ts:66-70 | the copy-and-splice gives the specified list |
| Todo.ShiftLeft | examples/todo.ts:68 | `splice` in place: positions before the start keep their todo, and every later todo moves one place left |
| Todo.DeleteInRange | examples/todo.ts:64-73 | an in-range index removes exactly that todo and keeps the rest in order |
| Todo.DeleteFromEnd | examples/todo.ts:68 | a negative index removes the todo counted from the end |
| Todo.DeleteOutOfRange | examples/todo.ts:68 | an index past the end removes nothing. One before the start removes the first todo |
| Todo.DeleteUndoesAdd | examples/todo.ts:50-73 | deleting the todo just added restores the list |
| Todo.ToggleOnlyAtIndex | examples/todo.ts:75-92 | only `done` at the index flips; everything else is unchanged |
| Todo.ToggleTwice | examples/todo.ts:77-89 | toggling twice restores the list |
| Todo.ListEventsReturnToIdle | examples/todo.ts:49-95 | every agent event ends in `idle` from either state. All but `doNothing` clear the command |
| Todo.CommandOnlyInIdle | examples/todo.ts:98-116 | `assist` and the typed command move `idle` to `assisting` and store the command; in `assisting` they are ignored |
| Todo.StepChangesAtMostOne | examples/todo.ts:49-95 | one event changes the list length by at most one, and only an add grows it |
| Todo.AddsAreUndone | examples/todo.ts:50-62 | after adds only, the old todos are kept and every new one is not done |

## Left out

- The language model (`generateText`, `generateObject`), the wrapped model and `agent.wrap` are not modelled. Each model call is the oracle `generate`, and the model and middleware choice (`input.model ? agent.wrap(...)`) is not represented.
- Graph search and the goal-schema call in the shortest-path strategy and planner are not modelled. The `search` parameter stands for `generateObject`, Ajv compilation and `getShortestPaths` together.
- The xstate runtime is not modelled: `resolveState`, `getNextSnapshot`, `transition`, eventless-transition scheduling and actor start-up. `Env` supplies the active nodes and the next state, and the example machines are written out by hand.
- `interact` (src/agent.ts:372-446) and `fromDecision` (src/decide.ts:74-104) are asynchronous actor plumbing and are left out. In `observe`, the inspection subscription is a finite stream of inspection events.
- `randomId()` and `Date.now()` are not modelled; they are parameters.
- `object-hash` is a hash function parameter, and the machine-hash `WeakMap` is a `map` keyed by machine value, not by identity.
- Zod schemas, `zodToJsonSchema` and Ajv are not modelled. A schema is a description plus an opaque value, and the zod limits on todo titles and contents are not checked.
- Numbers are integers, and costs are integers extended with Infinity. Floating point is not modelled, and neither are fractional todo indices, which `splice` truncates and `===` never matches.
- `JSON.stringify` covers only the modelled values: no `toJSON`, no cycles, and integer numbers only.
- Other `generateText` options, the `...rest` and `...otherOptions` spreads, are not modelled. Only `system` and `toolChoice` are passed through.
- `agentDecide` ignores `agent.defaultOptions`, which no code assigns. The strategy and the model are the oracles rather than `agent.strategy`/`agent.model`. The strategy oracle returns, per attempt, its decision and the message records it hands to `addMessage`; other writes a custom strategy might make to the agent are not modelled.
- Entries: JavaScript lists integer-like keys ("0", "12") first, in ascending order, before the other keys in insertion order. The model keeps insertion order for every key. So `Xml.ConvertToXml`, `Json.Stringify`, `Decide.FilterRegistry` and the tool map order integer-like keys differently from the library. For example, `{b: 1, 0: 2}` renders as `<b>1</b><0>2</0>` in the model but as `<0>2</0><b>1</b>` in the library.
- `AgentPlan`, `AgentPlanInput`, `AgentPlanOptions`, `agent.getPlans` and `agent.generateText` are not declared in src/types.ts or src/agent.ts. In the model:
  - the earlier plans are a parameter;
  - the planners take the strategy input;
  - the inline planner's `prompt` is a single user message.
- InlinePlanner.PlannerCall: when the caller's options also carry `tools`, the `...otherOptions` spread would override the tool map. The model always sends the tool map.
- The unused `defaultPromptTemplate` (src/planners/simplePlanner.ts:22-32) and both unused `functionNameMapping` tables are not modelled.
- The `if (!paths)` early returns at src/strategies/shortestPath.ts:143-145 and src/planners/shortestPathPlanner.ts:127-129 are not modelled; they cannot fire once a machine or a cached entry exists.
- ShortestPath.SortByCost: the library uses the engine's stable sort, and the model uses a stable insertion sort. Both give the same order for this comparator, but the model only states that the result is sorted, is a permutation, and has the first cheapest path at its head.
- `console.log`/`console.warn` calls are not modelled.
- In the todo example, the agent invoked in `assisting` is not modelled; its decisions arrive as the list events. The terminal prompt invoked in `idle` is the `CommandEntered` event.
- Long-term memory (`getMemory`), the agent's `name`, `context` schema, `model` and `strategy` fields, and `createAgent` are not modelled.
- The driver loops of the jug and river examples are left out, as are the other example programs, the streaming text actors in src/text.ts and src/middleware.ts.
