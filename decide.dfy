/**
 * The decision orchestrator (`agentDecide` in src/decide.ts): restrict the
 * event registry, strip the observed state, ask the strategy up to
 * `maxAttempts` times, and record and execute the first decision that
 * names a next event.
 */
module Decide {
  import opened Options
  import opened JsValue
  import opened AgentTypes
  import E = Entries
  import A = Agents
  import S = SimpleStrategy

  /** The options of one `agentDecide` call; `events` falls back to the agent's registry. */
  datatype DecideOptions = DecideOptions(
    goal: string,
    state: Value,
    machine: Option<Machine>,
    events: Option<Registry>,
    allowedEvents: Option<seq<string>>,
    maxAttempts: Option<int>,
    messages: History,
    system: Option<string>,
    toolChoice: Option<string>,
    context: Value,
    episodeId: Option<string>,
    decisions: Option<seq<Decision>>,
    hasExecute: bool)

  /** The registry restricted to the allowed event types when a list is given (any array is truthy), otherwise unchanged. */
  function FilterRegistry(events: Registry, allowedEvents: Option<seq<string>>): (r: Registry)
    ensures allowedEvents.None? ==> r == events
    ensures allowedEvents.Some? ==> forall k :: k in E.Keys(r) <==> k in E.Keys(events) && k in allowedEvents.value
    ensures forall i :: 0 <= i < |r| ==> r[i] in events
    ensures allowedEvents.Some? ==> forall i :: 0 <= i < |events| && events[i].0 in allowedEvents.value ==> events[i] in r
    ensures forall i, j :: 0 <= i < j < |r| ==> E.Precedes(events, r[i], r[j])
    ensures E.UniqueKeys(events) ==> E.UniqueKeys(r)
    ensures allowedEvents == Some([]) ==> r == []
  {
    match allowedEvents
    case None =>
      assert forall i, j :: 0 <= i < j < |events| ==> E.Precedes(events, events[i], events[j]);
      events
    case Some(allowed) =>
      var r := E.Filter(events, k => k in allowed);
      E.FilterProperties(events, k => k in allowed);
      assert |r| > 0 ==> r[0].0 in allowed;
      r
  }

  /** `snapshot[key]`, undefined when absent. */
  function Prop(snapshot: Value, key: string): Value
  {
    if snapshot.Obj? then E.Get(snapshot.entries, key).GetOr(Undef) else Undef
  }

  /** `{value: state.value, context: state.context}` */
  function MinimalState(snapshot: Value): (r: ObservedState)
    ensures r.value == Prop(snapshot, "value") && r.context == Prop(snapshot, "context")
  {
    ObservedState(Prop(snapshot, "value"), Prop(snapshot, "context"))
  }

  /** Stripping an observed state written as `{value, context}` gives it back. */
  lemma MinimalStateRoundTrip(s: ObservedState)
    ensures MinimalState(StateObject(s)) == s
  {
    var es := StateObject(s).entries;
    assert E.Get(es, "value") == Some(s.value);
    assert es[1..] == [("context", s.context)];
    assert E.Get(es, "context") == Some(s.context);
  }

  /** Any other property of the snapshot is ignored. */
  lemma MinimalStateIgnoresOtherKeys(es: E.Entries<Value>, k: string, v: Value)
    requires k != "value" && k != "context"
    ensures MinimalState(Obj(E.Set(es, k, v))) == MinimalState(Obj(es))
  {
    E.GetSet(es, k, v, "value");
    E.GetSet(es, k, v, "context");
  }

  /** What the strategy receives on every attempt. */
  function StrategyInputFor(options: DecideOptions, agentEvents: Registry): (r: StrategyInput)
    ensures r.state == MinimalState(options.state)
    ensures r.events == FilterRegistry(options.events.GetOr(agentEvents), options.allowedEvents)
    ensures r.goal == options.goal && r.machine == options.machine && r.messages == options.messages
    ensures r.system == options.system && r.toolChoice == options.toolChoice && r.context == options.context
    ensures r.episodeId == options.episodeId && r.decisions == options.decisions
  {
    StrategyInput(options.goal, MinimalState(options.state), FilterRegistry(options.events.GetOr(agentEvents), options.allowedEvents),
      options.machine, options.messages, options.system, options.toolChoice, options.context, options.episodeId, options.decisions)
  }

  /**
   * What one call of the strategy does: the decision it resolves to, and
   * the message records it hands to the agent's `addMessage` before
   * returning (the default simple strategy records every response message).
   */
  datatype Attempt = Attempt(decision: Option<Decision>, recorded: seq<Message>)

  /** The strategy, as an oracle from its input and the attempt number to what that attempt does. */
  type Strategy = (StrategyInput, nat) -> Attempt

  /** `decision?.nextEvent` is truthy. */
  predicate HasNextEvent(d: Option<Decision>)
  {
    d.Some? && d.value.nextEvent.Some? && Truthy(d.value.nextEvent.value)
  }

  /** The number of attempts allowed: `maxAttempts ?? 2`, none when it is not positive. */
  function Bound(maxAttempts: Option<int>): (r: nat)
    ensures maxAttempts.None? ==> r == 2
    ensures maxAttempts.Some? ==> r == if maxAttempts.value < 0 then 0 else maxAttempts.value
  {
    var m := maxAttempts.GetOr(DefaultMaxAttempts);
    if m < 0 then 0 else m
  }

  /** The first attempt in `[from, bound)` whose result has a next event, or `bound`. */
  function FirstHit(strategy: Strategy, input: StrategyInput, from: nat, bound: nat): (r: nat)
    requires from <= bound
    ensures from <= r <= bound
    ensures forall k :: from <= k < r ==> !HasNextEvent(strategy(input, k).decision)
    ensures r < bound ==> HasNextEvent(strategy(input, r).decision)
    decreases bound - from
  {
    if from == bound then bound
    else if HasNextEvent(strategy(input, from).decision) then from
    else FirstHit(strategy, input, from + 1, bound)
  }

  /** The number of strategy calls: up to and including the first hit, otherwise all allowed attempts. */
  function Calls(strategy: Strategy, input: StrategyInput, maxAttempts: Option<int>): (r: nat)
    ensures r <= Bound(maxAttempts)
  {
    var h := FirstHit(strategy, input, 0, Bound(maxAttempts));
    if h < Bound(maxAttempts) then h + 1 else Bound(maxAttempts)
  }

  /** The value `agentDecide` resolves to: the last strategy result, if the strategy was called at all. */
  function Outcome(strategy: Strategy, input: StrategyInput, maxAttempts: Option<int>): Option<Decision>
  {
    var n := Calls(strategy, input, maxAttempts);
    if n == 0 then None else strategy(input, n - 1).decision
  }

  /** With `maxAttempts <= 0` the strategy is never called and the result is undefined. */
  lemma NoAttemptsWhenNotPositive(strategy: Strategy, input: StrategyInput, m: int)
    requires m <= 0
    ensures Calls(strategy, input, Some(m)) == 0 && Outcome(strategy, input, Some(m)) == None
  {
  }

  /** The outcome has a next event exactly when some allowed attempt produced one, and then it is the first such result. */
  lemma OutcomeIsFirstHit(strategy: Strategy, input: StrategyInput, maxAttempts: Option<int>)
    ensures HasNextEvent(Outcome(strategy, input, maxAttempts)) <==>
      exists k :: 0 <= k < Bound(maxAttempts) && HasNextEvent(strategy(input, k).decision)
    ensures forall k :: 0 <= k < Bound(maxAttempts) && HasNextEvent(strategy(input, k).decision) ==>
      exists j :: 0 <= j <= k && Outcome(strategy, input, maxAttempts) == strategy(input, j).decision
  {
    var b := Bound(maxAttempts);
    var h := FirstHit(strategy, input, 0, b);
    if h == b && b > 0 {
      assert !HasNextEvent(strategy(input, b - 1).decision);
    }
  }

  /** An agent whose strategy never finds a next event is asked exactly `maxAttempts` times (two by default). */
  lemma AllAttemptsUsed(strategy: Strategy, input: StrategyInput, maxAttempts: Option<int>)
    requires forall k :: 0 <= k < Bound(maxAttempts) ==> !HasNextEvent(strategy(input, k).decision)
    ensures Calls(strategy, input, maxAttempts) == Bound(maxAttempts)
    ensures maxAttempts.None? ==> Calls(strategy, input, maxAttempts) == 2
  {
  }

  /** The message records the first `n` attempts hand to `addMessage`, in order. */
  function RecordedBy(strategy: Strategy, input: StrategyInput, n: nat): seq<Message>
  {
    if n == 0 then [] else RecordedBy(strategy, input, n - 1) + strategy(input, n - 1).recorded
  }

  /** Every attempt made records its messages, failed attempts included: the log grows by each attempt's records, in attempt order. */
  lemma {:induction false} RecordedByAttempts(strategy: Strategy, input: StrategyInput, n: nat, k: nat)
    requires k < n
    ensures |RecordedBy(strategy, input, n)| >= |RecordedBy(strategy, input, k)| + |strategy(input, k).recorded|
    ensures RecordedBy(strategy, input, n)[|RecordedBy(strategy, input, k)|..][..|strategy(input, k).recorded|]
      == strategy(input, k).recorded
  {
    var r := RecordedBy(strategy, input, n - 1);
    if k < n - 1 {
      RecordedByAttempts(strategy, input, n - 1, k);
      var a := |RecordedBy(strategy, input, k)|;
      assert (r + strategy(input, n - 1).recorded)[a..][..|strategy(input, k).recorded|] == r[a..][..|strategy(input, k).recorded|];
    } else {
      assert RecordedBy(strategy, input, n)[|r|..] == strategy(input, k).recorded;
    }
  }

  /** One more record sent extends both the messages log and the listener calls by that record. */
  lemma SendStep(ms: seq<Message>, i: nat, messages: seq<Message>, delivered: seq<A.Delivery>, listeners: seq<A.Listener>)
    requires i < |ms|
    ensures messages + ms[..i] + [ms[i]] == messages + ms[..i + 1]
    ensures delivered + S.MessageDeliveries(listeners, ms[..i]) + A.Deliveries(listeners, EmittedMessage(ms[i]))
      == delivered + S.MessageDeliveries(listeners, ms[..i + 1])
  {
    assert ms[..i + 1] == ms[..i] + [ms[i]];
    S.MessageDeliveriesSnoc(listeners, ms[..i], ms[i]);
    var d := S.MessageDeliveries(listeners, ms[..i]);
    var e := A.Deliveries(listeners, EmittedMessage(ms[i]));
    assert delivered + d + e == delivered + (d + e);
  }

  /** The strategy's `addMessage` calls of one attempt: each record is sent to the agent's memory in order. */
  method SendRecorded(agent: A.Agent, ms: seq<Message>)
    modifies agent`observations, agent`messages, agent`decisions, agent`feedback, agent`delivered
    ensures agent.messages == old(agent.messages) + ms
    ensures agent.observations == old(agent.observations) && agent.decisions == old(agent.decisions)
      && agent.feedback == old(agent.feedback)
    ensures agent.delivered == old(agent.delivered) + S.MessageDeliveries(agent.listeners, ms)
  {
    var i := 0;
    while i < |ms|
      invariant 0 <= i <= |ms|
      invariant agent.messages == old(agent.messages) + ms[..i]
      invariant agent.observations == old(agent.observations) && agent.decisions == old(agent.decisions)
        && agent.feedback == old(agent.feedback)
      invariant agent.delivered == old(agent.delivered) + S.MessageDeliveries(agent.listeners, ms[..i])
    {
      ghost var mem := agent.Memory();
      agent.Send(MessageEvent(ms[i]));
      assert agent.Memory() == mem.(messages := mem.messages + [ms[i]]);
      SendStep(ms, i, old(agent.messages), old(agent.delivered), agent.listeners);
      i := i + 1;
    }
    assert ms[..i] == ms;
  }

  /** After `n` attempts, the messages log and the listener calls have grown by exactly those attempts' records. */
  ghost predicate Progress(agent: A.Agent, strategy: Strategy, input: StrategyInput, messages: seq<Message>, delivered: seq<A.Delivery>, n: nat)
    reads agent
  {
    agent.messages == messages + RecordedBy(strategy, input, n)
    && agent.delivered == delivered + S.MessageDeliveries(agent.listeners, RecordedBy(strategy, input, n))
  }

  /** Attempt `n`: call the strategy, whose `addMessage` calls append that attempt's records. */
  method RunAttempt(agent: A.Agent, strategy: Strategy, input: StrategyInput, n: nat,
                    ghost messages: seq<Message>, ghost delivered: seq<A.Delivery>) returns (d: Option<Decision>)
    requires Progress(agent, strategy, input, messages, delivered, n)
    modifies agent`observations, agent`messages, agent`decisions, agent`feedback, agent`delivered
    ensures d == strategy(input, n).decision
    ensures Progress(agent, strategy, input, messages, delivered, n + 1)
    ensures agent.observations == old(agent.observations) && agent.decisions == old(agent.decisions)
      && agent.feedback == old(agent.feedback)
  {
    var attempt := strategy(input, n);
    SendRecorded(agent, attempt.recorded);
    AttemptStep(strategy, input, n, messages, delivered, agent.listeners);
    d := attempt.decision;
  }

  /** The hit: `agent.addDecision(decision)`, then the event handed to `execute` when the caller gave one. */
  method RecordDecision(agent: A.Agent, d: Decision, hasExecute: bool) returns (executed: Option<Value>)
    modifies agent`observations, agent`messages, agent`decisions, agent`feedback, agent`delivered
    ensures executed == (if hasExecute then d.nextEvent else None)
    ensures agent.decisions == old(agent.decisions) + [d]
    ensures agent.messages == old(agent.messages) && agent.observations == old(agent.observations)
      && agent.feedback == old(agent.feedback)
    ensures agent.delivered == old(agent.delivered) + A.Deliveries(agent.listeners, EmittedDecision(d))
  {
    ghost var mem := agent.Memory();
    agent.AddDecision(d);
    assert agent.Memory() == mem.(decisions := mem.decisions + [d]);
    executed := if hasExecute then d.nextEvent else None;
  }

  /**
   * `agentDecide`. The strategy is an oracle giving what each attempt
   * does; `executed` is the event handed to `execute`, when the caller
   * gave one and a decision was recorded.
   */
  method AgentDecide(agent: A.Agent, options: DecideOptions, strategy: Strategy)
    returns (result: Option<Decision>, executed: Option<Value>, calls: nat)
    modifies agent`observations, agent`messages, agent`decisions, agent`feedback, agent`delivered
    ensures var input := StrategyInputFor(options, agent.events);
      calls == Calls(strategy, input, options.maxAttempts) && result == Outcome(strategy, input, options.maxAttempts)
    ensures agent.messages == old(agent.messages) + RecordedBy(strategy, StrategyInputFor(options, agent.events), calls)
    ensures agent.observations == old(agent.observations) && agent.feedback == old(agent.feedback)
    ensures agent.decisions == old(agent.decisions) + (if HasNextEvent(result) then [result.value] else [])
    ensures executed == (if HasNextEvent(result) && options.hasExecute then result.value.nextEvent else None)
    ensures agent.delivered == old(agent.delivered)
      + S.MessageDeliveries(agent.listeners, RecordedBy(strategy, StrategyInputFor(options, agent.events), calls))
      + (if HasNextEvent(result) then A.Deliveries(agent.listeners, EmittedDecision(result.value)) else [])
  {
    var input := StrategyInputFor(options, agent.events);
    result, executed, calls := Attempts(agent, input, options.maxAttempts, options.hasExecute, strategy);
    StoppedAtIsOutcome(strategy, input, options.maxAttempts, calls, result);
  }

  /** The attempt loop: `while (attempts++ < maxAttempts)`, stopping at the first decision with a next event. */
  method Attempts(agent: A.Agent, input: StrategyInput, maxAttempts: Option<int>, hasExecute: bool, strategy: Strategy)
    returns (result: Option<Decision>, executed: Option<Value>, calls: nat)
    modifies agent`observations, agent`messages, agent`decisions, agent`feedback, agent`delivered
    ensures StoppedAt(strategy, input, maxAttempts, calls, result)
    ensures agent.messages == old(agent.messages) + RecordedBy(strategy, input, calls)
    ensures agent.observations == old(agent.observations) && agent.feedback == old(agent.feedback)
    ensures agent.decisions == old(agent.decisions) + (if HasNextEvent(result) then [result.value] else [])
    ensures executed == (if HasNextEvent(result) && hasExecute then result.value.nextEvent else None)
    ensures agent.delivered == old(agent.delivered)
      + S.MessageDeliveries(agent.listeners, RecordedBy(strategy, input, calls))
      + (if HasNextEvent(result) then A.Deliveries(agent.listeners, EmittedDecision(result.value)) else [])
  {
    var bound := maxAttempts.GetOr(DefaultMaxAttempts);
    var attempts := 0;
    result, executed := None, None;
    while attempts < bound
      invariant 0 <= attempts <= Bound(maxAttempts)
      invariant forall k :: 0 <= k < attempts ==> !HasNextEvent(strategy(input, k).decision)
      invariant result == if attempts == 0 then None else strategy(input, attempts - 1).decision
      invariant Progress(agent, strategy, input, old(agent.messages), old(agent.delivered), attempts)
      invariant agent.observations == old(agent.observations) && agent.feedback == old(agent.feedback)
        && agent.decisions == old(agent.decisions) && executed == None
      decreases bound - attempts
    {
      result := RunAttempt(agent, strategy, input, attempts, old(agent.messages), old(agent.delivered));
      if HasNextEvent(result) {
        attempts := attempts + 1;
        executed := RecordDecision(agent, result.value, hasExecute);
        break;
      }
      attempts := attempts + 1;
    }
    calls := attempts;
  }

  /**
   * How the loop stops after `calls` attempts: every attempt before the
   * last missed, the result is the last attempt's decision, and either it
   * is a hit or the budget is spent.
   */
  predicate StoppedAt(strategy: Strategy, input: StrategyInput, maxAttempts: Option<int>, calls: nat, result: Option<Decision>)
  {
    calls <= Bound(maxAttempts)
    && (forall k :: 0 <= k < calls - 1 ==> !HasNextEvent(strategy(input, k).decision))
    && result == (if calls == 0 then None else strategy(input, calls - 1).decision)
    && (HasNextEvent(result) || calls == Bound(maxAttempts))
  }

  /** Stopping as the loop does makes exactly `Calls` attempts and resolves to `Outcome`. */
  lemma StoppedAtIsOutcome(strategy: Strategy, input: StrategyInput, maxAttempts: Option<int>, calls: nat, result: Option<Decision>)
    requires StoppedAt(strategy, input, maxAttempts, calls, result)
    ensures calls == Calls(strategy, input, maxAttempts) && result == Outcome(strategy, input, maxAttempts)
  {
    var b := Bound(maxAttempts);
    var h := FirstHit(strategy, input, 0, b);
    if HasNextEvent(result) {
      assert h == calls - 1;
    } else {
      assert h == b;
    }
  }

  /** One more attempt extends the messages log and the listener calls by that attempt's records. */
  lemma AttemptStep(strategy: Strategy, input: StrategyInput, n: nat, messages: seq<Message>, delivered: seq<A.Delivery>,
                    listeners: seq<A.Listener>)
    ensures messages + RecordedBy(strategy, input, n) + strategy(input, n).recorded == messages + RecordedBy(strategy, input, n + 1)
    ensures delivered + S.MessageDeliveries(listeners, RecordedBy(strategy, input, n)) + S.MessageDeliveries(listeners, strategy(input, n).recorded)
      == delivered + S.MessageDeliveries(listeners, RecordedBy(strategy, input, n + 1))
  {
    var before, rec := RecordedBy(strategy, input, n), strategy(input, n).recorded;
    assert RecordedBy(strategy, input, n + 1) == before + rec;
    assert messages + before + rec == messages + (before + rec);
    MessageDeliveriesAppend(listeners, before, rec);
    var d, e := S.MessageDeliveries(listeners, before), S.MessageDeliveries(listeners, rec);
    assert delivered + d + e == delivered + (d + e);
  }

  /** The listener calls for two runs of records are those of the first followed by those of the second. */
  lemma {:induction false} MessageDeliveriesAppend(listeners: seq<A.Listener>, ms: seq<Message>, ns: seq<Message>)
    ensures S.MessageDeliveries(listeners, ms + ns) == S.MessageDeliveries(listeners, ms) + S.MessageDeliveries(listeners, ns)
    decreases |ns|
  {
    if |ns| > 0 {
      var init, last := ns[..|ns| - 1], ns[|ns| - 1];
      assert ms + ns == (ms + init) + [last];
      assert ns == init + [last];
      S.MessageDeliveriesSnoc(listeners, ms + init, last);
      MessageDeliveriesAppend(listeners, ms, init);
      S.MessageDeliveriesSnoc(listeners, init, last);
    } else {
      assert ms + ns == ms;
    }
  }
}
