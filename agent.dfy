/**
 * The agent's short-term memory (src/agent.ts): the reducer over the four
 * append-only logs, the notifications it emits, and the `Agent` object
 * whose `add*` methods build records, send them to the reducer and notify
 * the listeners registered with `onMessage` / `onFeedback`.
 */
module Agents {
  import opened Options
  import opened JsValue
  import opened AgentTypes
  import E = Entries
  import T = Transitions

  /** The memory of a fresh agent: four empty logs. */
  function InitialMemory(): (r: MemoryContext)
    ensures Size(r) == 0
  {
    MemoryContext([], [], [], [])
  }

  /** The number of records held in memory. */
  function Size(ctx: MemoryContext): nat
  {
    |ctx.observations| + |ctx.messages| + |ctx.decisions| + |ctx.feedback|
  }

  /** Every log of `a` is a prefix of the same log of `b`. */
  predicate Extends(a: MemoryContext, b: MemoryContext)
  {
    a.observations <= b.observations && a.messages <= b.messages
    && a.decisions <= b.decisions && a.feedback <= b.feedback
  }

  /**
   * The reducer of the memory logic: a recognised event appends its record
   * at the end of exactly one log and leaves the other three unchanged; any
   * other event changes nothing.
   */
  function Reduce(ctx: MemoryContext, ev: MemoryEvent): (r: MemoryContext)
    ensures Extends(ctx, r)
    ensures Size(r) == Size(ctx) + (if ev.Unrecognized? then 0 else 1)
    ensures ev.FeedbackEvent? ==> |r.feedback| > 0 && r.feedback[|r.feedback| - 1] == ev.feedback
    ensures ev.ObserveEvent? ==> |r.observations| > 0 && r.observations[|r.observations| - 1] == ev.observation
    ensures ev.MessageEvent? ==> |r.messages| > 0 && r.messages[|r.messages| - 1] == ev.message
    ensures ev.DecisionEvent? ==> |r.decisions| > 0 && r.decisions[|r.decisions| - 1] == ev.decision
  {
    match ev
    case FeedbackEvent(f) => ctx.(feedback := ctx.feedback + [f])
    case ObserveEvent(o) => ctx.(observations := ctx.observations + [o])
    case MessageEvent(m) => ctx.(messages := ctx.messages + [m])
    case DecisionEvent(d) => ctx.(decisions := ctx.decisions + [d])
    case Unrecognized(_) => ctx
  }

  /** An unrecognised event leaves all four logs as they were. */
  lemma UnrecognizedIsIgnored(ctx: MemoryContext, t: string)
    ensures Reduce(ctx, Unrecognized(t)) == ctx
  {
  }

  /** Exactly one log grows; the other three are untouched. */
  lemma ReduceTouchesOneLog(ctx: MemoryContext, ev: MemoryEvent)
    requires !ev.Unrecognized?
    ensures var r := Reduce(ctx, ev);
      (if r.observations == ctx.observations then 0 else 1) + (if r.messages == ctx.messages then 0 else 1)
      + (if r.decisions == ctx.decisions then 0 else 1) + (if r.feedback == ctx.feedback then 0 else 1) == 1
  {
  }

  /** The notification emitted for an event, if any. */
  function EmittedFor(ev: MemoryEvent): (r: Option<Emitted>)
    ensures r.None? <==> ev.Unrecognized?
  {
    match ev
    case FeedbackEvent(f) => Some(EmittedFeedback(f))
    case ObserveEvent(o) => Some(EmittedObservation(o))
    case MessageEvent(m) => Some(EmittedMessage(m))
    case DecisionEvent(d) => Some(EmittedDecision(d))
    case Unrecognized(_) => None
  }

  /** The record a recognised event carries, as a notification. */
  lemma EmittedCarriesRecord(ctx: MemoryContext, ev: MemoryEvent)
    requires !ev.Unrecognized?
    ensures var r := Reduce(ctx, ev);
      EmittedFor(ev) == Some(match ev
        case FeedbackEvent(_) => EmittedFeedback(r.feedback[|r.feedback| - 1])
        case ObserveEvent(_) => EmittedObservation(r.observations[|r.observations| - 1])
        case MessageEvent(_) => EmittedMessage(r.messages[|r.messages| - 1])
        case _ => EmittedDecision(r.decisions[|r.decisions| - 1]))
  {
  }

  /** The memory after a sequence of events, starting from a fresh agent. */
  function ReduceAll(evs: seq<MemoryEvent>): MemoryContext
  {
    if |evs| == 0 then InitialMemory() else Reduce(ReduceAll(evs[..|evs| - 1]), evs[|evs| - 1])
  }

  function MessagesOf(evs: seq<MemoryEvent>): seq<Message>
  {
    if |evs| == 0 then []
    else MessagesOf(evs[..|evs| - 1]) + (if evs[|evs| - 1].MessageEvent? then [evs[|evs| - 1].message] else [])
  }

  function FeedbackOf(evs: seq<MemoryEvent>): seq<Feedback>
  {
    if |evs| == 0 then []
    else FeedbackOf(evs[..|evs| - 1]) + (if evs[|evs| - 1].FeedbackEvent? then [evs[|evs| - 1].feedback] else [])
  }

  function ObservationsOf(evs: seq<MemoryEvent>): seq<Observation>
  {
    if |evs| == 0 then []
    else ObservationsOf(evs[..|evs| - 1]) + (if evs[|evs| - 1].ObserveEvent? then [evs[|evs| - 1].observation] else [])
  }

  function DecisionsOf(evs: seq<MemoryEvent>): seq<Decision>
  {
    if |evs| == 0 then []
    else DecisionsOf(evs[..|evs| - 1]) + (if evs[|evs| - 1].DecisionEvent? then [evs[|evs| - 1].decision] else [])
  }

  function RecognisedCount(evs: seq<MemoryEvent>): nat
  {
    if |evs| == 0 then 0 else RecognisedCount(evs[..|evs| - 1]) + (if evs[|evs| - 1].Unrecognized? then 0 else 1)
  }

  /**
   * Each log of the memory is, in order, the records of the events of its
   * kind that the agent received: nothing is reordered, merged or lost.
   */
  lemma {:induction false} ReduceAllLogs(evs: seq<MemoryEvent>)
    ensures ReduceAll(evs).messages == MessagesOf(evs)
    ensures ReduceAll(evs).feedback == FeedbackOf(evs)
    ensures ReduceAll(evs).observations == ObservationsOf(evs)
    ensures ReduceAll(evs).decisions == DecisionsOf(evs)
    ensures Size(ReduceAll(evs)) == RecognisedCount(evs)
  {
    if |evs| > 0 {
      var prefix, ev := evs[..|evs| - 1], evs[|evs| - 1];
      ReduceAllLogs(prefix);
      var before := ReduceAll(prefix);
      assert ReduceAll(evs) == Reduce(before, ev);
      match ev {
        case FeedbackEvent(f) =>
          assert ReduceAll(evs) == before.(feedback := before.feedback + [f]);
        case ObserveEvent(o) =>
          assert ReduceAll(evs) == before.(observations := before.observations + [o]);
        case MessageEvent(m) =>
          assert ReduceAll(evs) == before.(messages := before.messages + [m]);
        case DecisionEvent(d) =>
          assert ReduceAll(evs) == before.(decisions := before.decisions + [d]);
        case Unrecognized(_) =>
          assert ReduceAll(evs) == before;
      }
    }
  }

  /** A listener registered for one kind of notification. */
  datatype Listener = Listener(id: nat, kind: EmittedKind)

  /** One call of a listener with a notification. */
  datatype Delivery = Delivery(listener: nat, payload: Emitted)

  /** The calls a notification causes: one per listener of its kind, in registration order. */
  function Deliveries(listeners: seq<Listener>, e: Emitted): (r: seq<Delivery>)
    ensures |r| <= |listeners|
    ensures forall d :: d in r ==> d.payload == e && Listener(d.listener, KindOf(e)) in listeners
  {
    if |listeners| == 0 then []
    else
      var last := listeners[|listeners| - 1];
      Deliveries(listeners[..|listeners| - 1], e) + (if last.kind == KindOf(e) then [Delivery(last.id, e)] else [])
  }

  /** The calls for one more listener are added at the end. */
  lemma DeliveriesStep(before: seq<Delivery>, listeners: seq<Listener>, e: Emitted, i: nat)
    requires i < |listeners|
    ensures before + Deliveries(listeners[..i + 1], e)
      == before + Deliveries(listeners[..i], e) + (if listeners[i].kind == KindOf(e) then [Delivery(listeners[i].id, e)] else [])
  {
    assert listeners[..i + 1][..i] == listeners[..i];
  }

  /** Every listener of the notification's kind is called. */
  lemma {:induction false} DeliveriesReachAll(listeners: seq<Listener>, e: Emitted, l: Listener)
    requires l in listeners && l.kind == KindOf(e)
    ensures Delivery(l.id, e) in Deliveries(listeners, e)
  {
    var last := listeners[|listeners| - 1];
    if l != last {
      assert l in listeners[..|listeners| - 1] by {
        var i :| 0 <= i < |listeners| && listeners[i] == l;
        assert i < |listeners| - 1;
        assert listeners[..|listeners| - 1][i] == l;
      }
      DeliveriesReachAll(listeners[..|listeners| - 1], e, l);
    }
  }

  /** The subscriptions that remain after one is cancelled. */
  function WithoutListener(listeners: seq<Listener>, id: nat): (r: seq<Listener>)
    ensures forall l :: l in r <==> l in listeners && l.id != id
  {
    if |listeners| == 0 then []
    else
      (if listeners[0].id == id then [] else [listeners[0]]) + WithoutListener(listeners[1..], id)
  }

  /** A cancelled listener is never called again. */
  lemma NoDeliveryAfterUnsubscribe(listeners: seq<Listener>, id: nat, e: Emitted)
    ensures forall d :: d in Deliveries(WithoutListener(listeners, id), e) ==> d.listener != id
  {
  }

  /** `addMessage`'s record: the input's fields, its id and timestamp when given, and the agent's episode id. */
  function BuildMessage(input: MessageInput, episodeId: string, freshId: string, now: int): (m: Message)
    ensures m.core == input.core && m.responseId == input.responseId && m.result == input.result
    ensures m.id == (if input.id.Some? then input.id.value else freshId)
    ensures m.timestamp == (if input.timestamp.Some? then input.timestamp.value else now)
    ensures m.episodeId == episodeId
  {
    Message(input.core, input.id.GetOr(freshId), input.timestamp.GetOr(now), episodeId, input.responseId, input.result)
  }

  /** `addFeedback`'s record: a (shallow) copy of the attributes or `{}`, reward 0 by default, the agent's episode id. */
  function BuildFeedback(input: FeedbackInput, episodeId: string, now: int): (f: Feedback)
    ensures f.observationId == input.observationId && f.score == input.score && f.comment == input.comment
    ensures f.attributes == (if input.attributes.Some? then input.attributes.value else [])
    ensures f.reward == (if input.reward.Some? then input.reward.value else 0)
    ensures f.timestamp == (if input.timestamp.Some? then input.timestamp.value else now)
    ensures f.episodeId == episodeId
  {
    Feedback(input.observationId, input.score, input.comment,
      input.attributes.GetOr([]), input.reward.GetOr(0), input.timestamp.GetOr(now), episodeId)
  }

  /** The caller's episode id never reaches the record: the agent's own always wins. */
  lemma FeedbackIgnoresCallerEpisode(input: FeedbackInput, episodeId: string, now: int, other: string)
    ensures BuildFeedback(input.(episodeId := Some(other)), episodeId, now) == BuildFeedback(input.(episodeId := None), episodeId, now)
    ensures other != episodeId ==> BuildFeedback(input.(episodeId := Some(other)), episodeId, now).episodeId != other
  {
  }

  /**
   * `addObservation`'s record: only the previous state, event and state of
   * the input, its id and timestamp when given, the agent's episode id, and
   * the machine hash when a machine is given.
   */
  function BuildObservation(input: ObservationInput, episodeId: string, freshId: string, now: int, machineHash: Option<string>): (o: Observation)
    ensures o.prevState == input.prevState && o.event == input.event && o.state == input.state
    ensures o.id == (if input.id.Some? then input.id.value else freshId)
    ensures o.timestamp == (if input.timestamp.Some? then input.timestamp.value else now)
    ensures o.episodeId == episodeId && o.machineHash == machineHash
  {
    Observation(input.id.GetOr(freshId), episodeId, input.prevState, input.event, input.state, input.timestamp.GetOr(now), machineHash)
  }

  /** The goal and the decision id of the input are dropped. */
  lemma ObservationDropsGoalAndDecision(input: ObservationInput, episodeId: string, freshId: string, now: int, h: Option<string>, g: Option<string>, d: Option<string>)
    ensures BuildObservation(input.(goal := g, decisionId := d), episodeId, freshId, now, h) == BuildObservation(input, episodeId, freshId, now, h)
  {
  }

  /** One inspection event of the actor system: which actor, what kind, the event and the resulting snapshot. */
  datatype Inspection = Inspection(actor: string, kind: string, event: Value, snapshot: ObservedState)

  /** The inspection events `observe` records: snapshots of the observed actor only. */
  function Relevant(stream: seq<Inspection>, actor: string): (r: seq<Inspection>)
    ensures forall i :: 0 <= i < |r| ==> r[i] in stream && r[i].actor == actor && r[i].kind == "@xstate.snapshot"
    ensures |r| <= |stream|
  {
    if |stream| == 0 then []
    else
      var last := stream[|stream| - 1];
      Relevant(stream[..|stream| - 1], actor) + (if last.actor == actor && last.kind == "@xstate.snapshot" then [last] else [])
  }

  lemma RelevantStep(stream: seq<Inspection>, actor: string, i: nat)
    requires i < |stream|
    ensures Relevant(stream[..i + 1], actor) == Relevant(stream[..i], actor)
      + (if stream[i].actor == actor && stream[i].kind == "@xstate.snapshot" then [stream[i]] else [])
  {
    assert stream[..i + 1][..i] == stream[..i];
  }

  /** The state an observation at position `j` must name as its previous state. */
  function PrevStateAt(recorded: seq<Observation>, current: ObservedState, j: nat): ObservedState
    requires j <= |recorded|
  {
    if j == 0 then current else recorded[j - 1].state
  }

  /**
   * The observations recorded for the relevant snapshots `rel`: one per
   * snapshot, each with the previous one's state (the first: the snapshot
   * taken at subscription) as its previous state.
   */
  predicate Chained(recorded: seq<Observation>, rel: seq<Inspection>, current: ObservedState, episodeId: string)
  {
    |recorded| == |rel| && forall j :: 0 <= j < |recorded| ==> ChainedAt(recorded, rel, current, episodeId, j)
  }

  /** The observation at position `j` records the `j`-th relevant snapshot, chained to the one before. */
  predicate ChainedAt(recorded: seq<Observation>, rel: seq<Inspection>, current: ObservedState, episodeId: string, j: nat)
  {
    j < |recorded| && j < |rel|
    && recorded[j].state == rel[j].snapshot
    && recorded[j].event == Some(rel[j].event)
    && recorded[j].prevState == Some(PrevStateAt(recorded, current, j))
    && recorded[j].episodeId == episodeId
  }

  lemma ChainedSnoc(recorded: seq<Observation>, rel: seq<Inspection>, current: ObservedState, episodeId: string, o: Observation, ins: Inspection)
    requires Chained(recorded, rel, current, episodeId)
    requires o.state == ins.snapshot && o.event == Some(ins.event) && o.episodeId == episodeId
    requires o.prevState == Some(PrevStateAt(recorded, current, |recorded|))
    ensures Chained(recorded + [o], rel + [ins], current, episodeId)
  {
    var r, q := recorded + [o], rel + [ins];
    forall j | 0 <= j < |r|
      ensures ChainedAt(r, q, current, episodeId, j)
    {
      if j < |recorded| {
        assert ChainedAt(recorded, rel, current, episodeId, j);
        assert r[j] == recorded[j] && q[j] == rel[j];
        ChainedPrefix(recorded, o, current, j);
      } else {
        assert r[j] == o && q[j] == ins;
        ChainedPrefix(recorded, o, current, j);
      }
    }
  }

  /** Appending an observation does not change the previous state named at earlier positions. */
  lemma ChainedPrefix(recorded: seq<Observation>, o: Observation, current: ObservedState, j: nat)
    requires j <= |recorded|
    ensures PrevStateAt(recorded + [o], current, j) == PrevStateAt(recorded, current, j)
  {
    if j > 0 {
      assert (recorded + [o])[j - 1] == recorded[j - 1];
    }
  }

  /** A step of `observe`'s loop on a relevant snapshot adds one chained observation. */
  lemma ObserveStepRecord(stream: seq<Inspection>, actor: string, i: nat, recorded: seq<Observation>, current: ObservedState,
                          episodeId: string, o: Observation)
    requires i < |stream| && Chained(recorded, Relevant(stream[..i], actor), current, episodeId)
    requires stream[i].actor == actor && stream[i].kind == "@xstate.snapshot"
    requires o.state == stream[i].snapshot && o.event == Some(stream[i].event) && o.episodeId == episodeId
    requires o.prevState == Some(PrevStateAt(recorded, current, |recorded|))
    ensures Chained(recorded + [o], Relevant(stream[..i + 1], actor), current, episodeId)
  {
    RelevantStep(stream, actor, i);
    ChainedSnoc(recorded, Relevant(stream[..i], actor), current, episodeId, o, stream[i]);
  }

  /** A step of `observe`'s loop on any other inspection event records nothing. */
  lemma ObserveStepSkip(stream: seq<Inspection>, actor: string, i: nat, recorded: seq<Observation>, current: ObservedState,
                        episodeId: string)
    requires i < |stream| && Chained(recorded, Relevant(stream[..i], actor), current, episodeId)
    requires !(stream[i].actor == actor && stream[i].kind == "@xstate.snapshot")
    ensures Chained(recorded, Relevant(stream[..i + 1], actor), current, episodeId)
  {
    RelevantStep(stream, actor, i);
    assert Relevant(stream[..i + 1], actor) == Relevant(stream[..i], actor);
  }

  /** The agent: its identity, its memory, its listeners and the calls made to them. */
  /** The listener calls made for a run of recorded observations, in order. */
  function ObservationDeliveries(listeners: seq<Listener>, os: seq<Observation>): seq<Delivery>
  {
    if |os| == 0 then [] else ObservationDeliveries(listeners, os[..|os| - 1]) + Deliveries(listeners, EmittedObservation(os[|os| - 1]))
  }

  lemma ObservationDeliveriesSnoc(delivered: seq<Delivery>, listeners: seq<Listener>, os: seq<Observation>, o: Observation)
    ensures delivered + ObservationDeliveries(listeners, os) + Deliveries(listeners, EmittedObservation(o))
      == delivered + ObservationDeliveries(listeners, os + [o])
  {
    assert (os + [o])[..|os|] == os;
    var d, e := ObservationDeliveries(listeners, os), Deliveries(listeners, EmittedObservation(o));
    assert delivered + d + e == delivered + (d + e);
  }

  class Agent {
    const episodeId: string
    const description: Option<string>
    const events: Registry
    /** The machine-hash cache shared by every agent. */
    const hashCache: T.MachineHashCache

    var observations: seq<Observation>
    var messages: seq<Message>
    var decisions: seq<Decision>
    var feedback: seq<Feedback>

    var listeners: seq<Listener>
    var nextListenerId: nat
    /** Every listener call made so far, in order. */
    var delivered: seq<Delivery>

    function Memory(): MemoryContext
      reads this
    {
      MemoryContext(observations, messages, decisions, feedback)
    }

    predicate Valid()
      reads this, hashCache
    {
      hashCache.Valid() && forall l :: l in listeners ==> l.id < nextListenerId
    }

    /** The episode id is the given id, or a fresh one; memory starts empty. */
    constructor (id: Option<string>, freshId: string, description: Option<string>, events: Registry, hashCache: T.MachineHashCache)
      requires hashCache.Valid()
      ensures Valid()
      ensures episodeId == (if id.Some? then id.value else freshId)
      ensures this.description == description && this.events == events && this.hashCache == hashCache
      ensures Memory() == InitialMemory() && listeners == [] && delivered == []
    {
      episodeId := id.GetOr(freshId);
      this.description := description;
      this.events := events;
      this.hashCache := hashCache;
      observations := [];
      messages := [];
      decisions := [];
      feedback := [];
      listeners := [];
      nextListenerId := 0;
      delivered := [];
    }

    function GetMessages(): seq<Message> reads this { messages }
    function GetFeedback(): seq<Feedback> reads this { feedback }
    function GetObservations(): seq<Observation> reads this { observations }
    function GetDecisions(): seq<Decision> reads this { decisions }

    /** Hand an event to the memory logic, then call every listener of the notification it emits. */
    method Send(ev: MemoryEvent)
      modifies this`observations, this`messages, this`decisions, this`feedback, this`delivered
      ensures Memory() == Reduce(old(Memory()), ev)
      ensures delivered == old(delivered) + (if ev.Unrecognized? then [] else Deliveries(listeners, EmittedFor(ev).value))
    {
      var next := Reduce(Memory(), ev);
      feedback, observations, messages, decisions := next.feedback, next.observations, next.messages, next.decisions;
      if ev.Unrecognized? {
        return;
      }
      var e := EmittedFor(ev).value;
      var i := 0;
      while i < |listeners|
        invariant 0 <= i <= |listeners|
        invariant delivered == old(delivered) + Deliveries(listeners[..i], e)
        invariant Memory() == next
      {
        DeliveriesStep(old(delivered), listeners, e, i);
        if listeners[i].kind == KindOf(e) {
          delivered := delivered + [Delivery(listeners[i].id, e)];
        }
        i := i + 1;
      }
      assert listeners[..i] == listeners;
    }

    /** `onMessage` / `onFeedback` (and the other kinds): register a listener and return its handle. */
    method On(kind: EmittedKind) returns (id: nat)
      requires Valid()
      modifies this`listeners, this`nextListenerId
      ensures Valid()
      ensures listeners == old(listeners) + [Listener(id, kind)]
      ensures forall l :: l in old(listeners) ==> l.id != id
      ensures nextListenerId == id + 1
    {
      id := nextListenerId;
      listeners := listeners + [Listener(id, kind)];
      nextListenerId := nextListenerId + 1;
    }

    method OnMessage() returns (id: nat)
      requires Valid()
      modifies this`listeners, this`nextListenerId
      ensures Valid()
      ensures listeners == old(listeners) + [Listener(id, MessageKind)]
      ensures forall l :: l in old(listeners) ==> l.id != id
    {
      id := On(MessageKind);
    }

    method OnFeedback() returns (id: nat)
      requires Valid()
      modifies this`listeners, this`nextListenerId
      ensures Valid()
      ensures listeners == old(listeners) + [Listener(id, FeedbackKind)]
      ensures forall l :: l in old(listeners) ==> l.id != id
    {
      id := On(FeedbackKind);
    }

    /** The subscription's `unsubscribe`. */
    method Unsubscribe(id: nat)
      requires Valid()
      modifies this`listeners
      ensures Valid()
      ensures listeners == WithoutListener(old(listeners), id)
    {
      listeners := WithoutListener(listeners, id);
    }

    /** `addMessage`: build the record, append it, notify; the record is returned. */
    method AddMessage(input: MessageInput, freshId: string, now: int) returns (m: Message)
      modifies this`observations, this`messages, this`decisions, this`feedback, this`delivered
      ensures m == BuildMessage(input, episodeId, freshId, now)
      ensures Memory() == Reduce(old(Memory()), MessageEvent(m))
      ensures delivered == old(delivered) + Deliveries(listeners, EmittedMessage(m))
    {
      m := BuildMessage(input, episodeId, freshId, now);
      Send(MessageEvent(m));
    }

    /** `addFeedback` */
    method AddFeedback(input: FeedbackInput, now: int) returns (f: Feedback)
      modifies this`observations, this`messages, this`decisions, this`feedback, this`delivered
      ensures f == BuildFeedback(input, episodeId, now)
      ensures Memory() == Reduce(old(Memory()), FeedbackEvent(f))
      ensures delivered == old(delivered) + Deliveries(listeners, EmittedFeedback(f))
    {
      f := BuildFeedback(input, episodeId, now);
      Send(FeedbackEvent(f));
    }

    /** `addObservation`: the machine hash comes from the shared cache, and only when a machine is given. */
    method AddObservation(input: ObservationInput, freshId: string, now: int) returns (o: Observation)
      requires Valid()
      modifies this`observations, this`messages, this`decisions, this`feedback, this`delivered, hashCache
      ensures Valid()
      ensures o.machineHash.Some? <==> input.machine.Some?
      ensures input.machine.Some? ==> o.machineHash == Some(hashCache.hash(T.TreeTransitions(input.machine.value.root)))
      ensures o == BuildObservation(input, episodeId, freshId, now, o.machineHash)
      ensures Memory() == Reduce(old(Memory()), ObserveEvent(o))
      ensures delivered == old(delivered) + Deliveries(listeners, EmittedObservation(o))
    {
      var h: Option<string> := None;
      if input.machine.Some? {
        var hash := hashCache.GetMachineHash(input.machine.value);
        h := Some(hash);
      }
      o := BuildObservation(input, episodeId, freshId, now, h);
      Send(ObserveEvent(o));
    }

    /** `addDecision` */
    method AddDecision(d: Decision)
      modifies this`observations, this`messages, this`decisions, this`feedback, this`delivered
      ensures Memory() == Reduce(old(Memory()), DecisionEvent(d))
      ensures delivered == old(delivered) + Deliveries(listeners, EmittedDecision(d))
    {
      Send(DecisionEvent(d));
    }

    /** The observation `observe` records for one snapshot of the observed actor. */
    method RecordSnapshot(prevState: ObservedState, ins: Inspection, machine: Option<Machine>, freshId: string, now: int)
      returns (o: Observation)
      requires Valid()
      modifies this`observations, this`messages, this`decisions, this`feedback, this`delivered, hashCache
      ensures Valid()
      ensures observations == old(observations) + [o]
      ensures messages == old(messages) && decisions == old(decisions) && feedback == old(feedback)
      ensures o.state == ins.snapshot && o.event == Some(ins.event) && o.prevState == Some(prevState)
      ensures o.episodeId == episodeId && o.machineHash.Some? == machine.Some?
      ensures delivered == old(delivered) + Deliveries(listeners, EmittedObservation(o))
    {
      var input := ObservationInput(None, Some(prevState), Some(ins.event), ins.snapshot, machine, None, None, None);
      o := AddObservation(input, freshId, now);
    }

    /** One more snapshot recorded by `observe`: the logs and the listener calls grow by its observation. */
    method RecordNext(prevState: ObservedState, ins: Inspection, machine: Option<Machine>, freshId: string, now: int,
                      ghost recorded: seq<Observation>, ghost observations0: seq<Observation>, ghost delivered0: seq<Delivery>)
      returns (o: Observation)
      requires Valid()
      requires observations == observations0 + recorded
      requires delivered == delivered0 + ObservationDeliveries(listeners, recorded)
      modifies this`observations, this`messages, this`decisions, this`feedback, this`delivered, hashCache
      ensures Valid()
      ensures observations == observations0 + (recorded + [o])
      ensures delivered == delivered0 + ObservationDeliveries(listeners, recorded + [o])
      ensures messages == old(messages) && decisions == old(decisions) && feedback == old(feedback)
      ensures o.state == ins.snapshot && o.event == Some(ins.event) && o.prevState == Some(prevState)
      ensures o.episodeId == episodeId
    {
      o := RecordSnapshot(prevState, ins, machine, freshId, now);
      ObservationDeliveriesSnoc(delivered0, listeners, recorded, o);
      assert observations0 + recorded + [o] == observations0 + (recorded + [o]);
    }

    /**
     * `observe`: starting from the actor's current snapshot, record one
     * observation per snapshot of that actor, each with the previously
     * recorded state as its previous state. Without an actor system there
     * is nothing to inspect.
     */
    method Observe(actor: string, isActorRef: bool, current: ObservedState, machine: Option<Machine>,
                   stream: seq<Inspection>, freshId: nat -> string, clock: nat -> int)
      returns (recorded: seq<Observation>)
      requires Valid()
      modifies this`observations, this`messages, this`decisions, this`feedback, this`delivered, hashCache
      ensures Valid()
      ensures observations == old(observations) + recorded
      ensures messages == old(messages) && decisions == old(decisions) && feedback == old(feedback)
      ensures !isActorRef ==> recorded == []
      ensures isActorRef ==> Chained(recorded, Relevant(stream, actor), current, episodeId)
      ensures delivered == old(delivered) + ObservationDeliveries(listeners, recorded)
    {
      recorded := [];
      if !isActorRef {
        return;
      }
      var prevState := current;
      var i := 0;
      while i < |stream|
        invariant 0 <= i <= |stream|
        invariant Valid()
        invariant observations == old(observations) + recorded
        invariant messages == old(messages) && decisions == old(decisions) && feedback == old(feedback)
        invariant prevState == PrevStateAt(recorded, current, |recorded|)
        invariant Chained(recorded, Relevant(stream[..i], actor), current, episodeId)
        invariant delivered == old(delivered) + ObservationDeliveries(listeners, recorded)
      {
        var ins := stream[i];
        if ins.actor == actor && ins.kind == "@xstate.snapshot" {
          var o := RecordNext(prevState, ins, machine, freshId(i), clock(i), recorded, old(observations), old(delivered));
          prevState := ins.snapshot;
          ObserveStepRecord(stream, actor, i, recorded, current, episodeId, o);
          recorded := recorded + [o];
        } else {
          ObserveStepSkip(stream, actor, i, recorded, current, episodeId);
        }
        i := i + 1;
      }
      assert stream[..i] == stream;
    }
  }
}
