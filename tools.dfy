/**
 * Turning the transitions available in the current state into the tools
 * offered to the language model (`getToolMap` in src/decide.ts, and its
 * inline copy in src/planners/simplePlanner.ts).
 */
module Tools {
  import opened Options
  import opened Strings
  import opened JsValue
  import opened AgentTypes
  import E = Entries
  import T = Transitions

  /** Without a machine, one transition per registry entry: its event type and its schema's description. */
  function RegistryTransitions(events: Registry): (r: seq<TransitionData>)
    ensures |r| == |events|
    ensures forall i :: 0 <= i < |events| ==>
      r[i] == TransitionData(events[i].0, events[i].1.description, None, None)
  {
    if |events| == 0 then []
    else [TransitionData(events[0].0, events[0].1.description, None, None)] + RegistryTransitions(events[1..])
  }

  /** The candidate transitions: those of the active nodes when a machine is given, otherwise one per registry entry. */
  function CandidateTransitions(env: Env, state: ObservedState, machine: Option<Machine>, events: Registry): (r: seq<TransitionData>)
    ensures machine.Some? ==> r == T.GetTransitions(env, state, machine)
    ensures machine.None? ==> E.Keys(events) == set t | t in r :: t.eventType
  {
    if machine.Some? then T.GetTransitions(env, state, machine)
    else
      var r := RegistryTransitions(events);
      assert E.Keys(events) == set t | t in r :: t.eventType by {
        forall k | k in E.Keys(events) ensures k in set t | t in r :: t.eventType {
          var i :| 0 <= i < |events| && events[i].0 == k;
          assert r[i].eventType == k;
        }
      }
      r
  }

  /** A transition that survived the filter, with its tool name. */
  datatype ToolTransition = ToolTransition(name: string, eventType: string, description: Option<string>)

  /** The tool transition for a transition: its event type with dots as underscores names it. */
  function ToolOf(t: TransitionData): ToolTransition
  {
    ToolTransition(ReplaceDots(t.eventType), t.eventType, t.description)
  }

  /** Keep the transitions whose event type is in the registry, in order (`ToolTransitionsOrdered`), and name each `eventType` with dots as underscores. */
  function ToolTransitions(transitions: seq<TransitionData>, events: Registry): (r: seq<ToolTransition>)
    ensures |r| <= |transitions|
    ensures forall c :: c in r ==> c.eventType in E.Keys(events) && c.name == ReplaceDots(c.eventType)
    ensures forall t :: t in transitions && t.eventType in E.Keys(events) ==> ToolOf(t) in r
  {
    if |transitions| == 0 then []
    else
      var t := transitions[0];
      var rest := ToolTransitions(transitions[1..], events);
      assert forall u :: u in transitions ==> u == t || u in transitions[1..];
      if t.eventType in E.Keys(events) then [ToolOf(t)] + rest
      else rest
  }

  /** Every tool transition is that of a given transition whose event type is registered. */
  lemma {:induction false} ToolTransitionsFrom(transitions: seq<TransitionData>, events: Registry)
    ensures forall c :: c in ToolTransitions(transitions, events) ==>
      exists t :: t in transitions && t.eventType in E.Keys(events) && c == ToolOf(t)
  {
    if |transitions| > 0 {
      var tail := transitions[1..];
      ToolTransitionsFrom(tail, events);
      assert forall u :: u in tail ==> u in transitions;
    }
  }

  /** `a` is the tool transition of a registered transition strictly before the registered transition `b` comes from. */
  ghost predicate ToolBefore(transitions: seq<TransitionData>, events: Registry, a: ToolTransition, b: ToolTransition)
  {
    exists p, q :: 0 <= p < q < |transitions|
      && transitions[p].eventType in E.Keys(events) && ToolOf(transitions[p]) == a
      && transitions[q].eventType in E.Keys(events) && ToolOf(transitions[q]) == b
  }

  lemma ToolBeforeInTail(transitions: seq<TransitionData>, events: Registry, a: ToolTransition, b: ToolTransition)
    requires |transitions| > 0 && ToolBefore(transitions[1..], events, a, b)
    ensures ToolBefore(transitions, events, a, b)
  {
    var tail := transitions[1..];
    var p, q :| 0 <= p < q < |tail|
      && tail[p].eventType in E.Keys(events) && ToolOf(tail[p]) == a
      && tail[q].eventType in E.Keys(events) && ToolOf(tail[q]) == b;
    assert tail[p] == transitions[p + 1] && tail[q] == transitions[q + 1];
  }

  /**
   * The tool transitions keep the order of the transitions they come from,
   * which decides the winner when two event types map to the same tool name.
   */
  lemma {:induction false} ToolTransitionsOrdered(transitions: seq<TransitionData>, events: Registry)
    ensures forall i, j :: 0 <= i < j < |ToolTransitions(transitions, events)| ==>
      ToolBefore(transitions, events, ToolTransitions(transitions, events)[i], ToolTransitions(transitions, events)[j])
  {
    forall i, j | 0 <= i < j < |ToolTransitions(transitions, events)|
      ensures ToolBefore(transitions, events, ToolTransitions(transitions, events)[i], ToolTransitions(transitions, events)[j])
    {
      ToolTransitionsOrderedAt(transitions, events, i, j);
    }
  }

  lemma {:induction false} ToolTransitionsOrderedAt(transitions: seq<TransitionData>, events: Registry, i: nat, j: nat)
    requires i < j < |ToolTransitions(transitions, events)|
    ensures ToolBefore(transitions, events, ToolTransitions(transitions, events)[i], ToolTransitions(transitions, events)[j])
  {
    var tail := transitions[1..];
    var r := ToolTransitions(transitions, events);
    var rest := ToolTransitions(tail, events);
    ToolTransitionsStep(transitions, events);
    if transitions[0].eventType !in E.Keys(events) {
      ToolTransitionsOrderedAt(tail, events, i, j);
      ToolBeforeInTail(transitions, events, r[i], r[j]);
    } else if i > 0 {
      ToolTransitionsOrderedAt(tail, events, i - 1, j - 1);
      assert r[i] == rest[i - 1] && r[j] == rest[j - 1];
      ToolBeforeInTail(transitions, events, rest[i - 1], rest[j - 1]);
    } else {
      ToolBeforeHead(transitions, events, rest[j - 1]);
    }
  }

  /** One step of the filter, by positions. */
  lemma ToolTransitionsStep(transitions: seq<TransitionData>, events: Registry)
    requires |transitions| > 0
    ensures var r, rest := ToolTransitions(transitions, events), ToolTransitions(transitions[1..], events);
      if transitions[0].eventType in E.Keys(events) then
        |r| == |rest| + 1 && r[0] == ToolOf(transitions[0]) && forall k :: 0 < k < |r| ==> r[k] == rest[k - 1]
      else r == rest
  {
  }

  lemma ToolBeforeHead(transitions: seq<TransitionData>, events: Registry, b: ToolTransition)
    requires |transitions| > 0 && transitions[0].eventType in E.Keys(events)
    requires b in ToolTransitions(transitions[1..], events)
    ensures ToolBefore(transitions, events, ToolOf(transitions[0]), b)
  {
    var tail := transitions[1..];
    ToolTransitionsFrom(tail, events);
    var u :| u in tail && u.eventType in E.Keys(events) && b == ToolOf(u);
    var q :| 0 <= q < |tail| && tail[q] == u;
    assert transitions[q + 1] == u;
  }

  /** The tool built for a transition with its registry schema: the schema's description, else the transition's. */
  function ToolFor(c: ToolTransition, schema: EventSchema): Tool
  {
    Tool(c.eventType, schema.description.OrElse(c.description), schema.shape)
  }

  /** One iteration of the loop: `toolMap[name] = tool(...)` when the registry has the event type. */
  function AddTool(toolMap: ToolMap, c: ToolTransition, events: Registry): ToolMap
  {
    match E.Get(events, c.eventType)
    case None => toolMap
    case Some(schema) => E.Set(toolMap, c.name, ToolFor(c, schema))
  }

  /** The tool map after the loop over the tool transitions. */
  function ToolMapOf(cs: seq<ToolTransition>, events: Registry): ToolMap
  {
    if |cs| == 0 then [] else AddTool(ToolMapOf(cs[..|cs| - 1], events), cs[|cs| - 1], events)
  }

  /** Every tool is well formed: named after its event type, which is in the registry, with that entry's schema. */
  predicate SoundTools(toolMap: ToolMap, events: Registry)
  {
    forall e :: e in toolMap ==>
      e.0 == ReplaceDots(e.1.eventType) && E.Get(events, e.1.eventType).Some?
      && e.1.parameters == E.Get(events, e.1.eventType).value.shape
  }

  /** The names of the candidates whose event type is in the registry. */
  ghost function RegisteredNames(cs: seq<ToolTransition>, events: Registry): set<string>
  {
    set c | c in cs && c.eventType in E.Keys(events) :: c.name
  }

  /**
   * The tool map has one tool per distinct name of a registered candidate,
   * every tool is sound, no name appears twice, and every tool's description
   * is its schema's description, or else that of the last registered
   * candidate with the tool's name.
   */
  lemma ToolMapProperties(cs: seq<ToolTransition>, events: Registry)
    requires forall c :: c in cs ==> c.name == ReplaceDots(c.eventType)
    ensures E.Keys(ToolMapOf(cs, events)) == set c | c in cs && c.eventType in E.Keys(events) :: c.name
    ensures SoundTools(ToolMapOf(cs, events), events)
    ensures E.UniqueKeys(ToolMapOf(cs, events))
    ensures forall e :: e in ToolMapOf(cs, events) ==> DescribedByLast(cs, events, e)
  {
    ToolMapKeys(cs, events);
    ToolMapSound(cs, events);
    ToolMapUnique(cs, events);
    forall e | e in ToolMapOf(cs, events)
      ensures DescribedByLast(cs, events, e)
    {
      E.GetUnique(ToolMapOf(cs, events), e.0, e.1);
      ToolMapLookup(cs, events, e.0);
    }
  }

  /** The tool `e` has the description `description ?? transition.description` of the last registered candidate named `e.0`. */
  predicate DescribedByLast(cs: seq<ToolTransition>, events: Registry, e: (string, Tool))
  {
    var j := LastNamed(cs, e.0, events);
    j.Some? &&
    var c := cs[j.value];
    var schema := E.Get(events, c.eventType).value;
    e.1.description == (if schema.description.Some? then schema.description else c.description)
  }

  lemma {:induction false} ToolMapKeys(cs: seq<ToolTransition>, events: Registry)
    ensures E.Keys(ToolMapOf(cs, events)) == RegisteredNames(cs, events)
  {
    if |cs| > 0 {
      var init, c := cs[..|cs| - 1], cs[|cs| - 1];
      ToolMapKeys(init, events);
      assert cs == init + [c];
      RegisteredNamesSnoc(init, c, events);
    }
  }

  lemma RegisteredNamesSnoc(init: seq<ToolTransition>, c: ToolTransition, events: Registry)
    ensures RegisteredNames(init + [c], events)
      == RegisteredNames(init, events) + (if c.eventType in E.Keys(events) then {c.name} else {})
  {
    var s := init + [c];
    forall n | n in RegisteredNames(s, events)
      ensures n in RegisteredNames(init, events) + (if c.eventType in E.Keys(events) then {c.name} else {})
    {
      var u :| u in s && u.eventType in E.Keys(events) && u.name == n;
      if u != c {
        assert u in init;
      }
    }
    forall n | n in RegisteredNames(init, events)
      ensures n in RegisteredNames(s, events)
    {
      var u :| u in init && u.eventType in E.Keys(events) && u.name == n;
      assert u in s;
    }
    assert c in s;
  }

  lemma {:induction false} ToolMapSound(cs: seq<ToolTransition>, events: Registry)
    requires forall c :: c in cs ==> c.name == ReplaceDots(c.eventType)
    ensures SoundTools(ToolMapOf(cs, events), events)
  {
    if |cs| > 0 {
      var init, c := cs[..|cs| - 1], cs[|cs| - 1];
      assert forall u :: u in init ==> u in cs;
      ToolMapSound(init, events);
      match E.Get(events, c.eventType)
      case None =>
      case Some(schema) =>
        E.SetMembers(ToolMapOf(init, events), c.name, ToolFor(c, schema));
    }
  }

  lemma {:induction false} ToolMapUnique(cs: seq<ToolTransition>, events: Registry)
    ensures E.UniqueKeys(ToolMapOf(cs, events))
  {
    if |cs| > 0 {
      var init, c := cs[..|cs| - 1], cs[|cs| - 1];
      ToolMapUnique(init, events);
      match E.Get(events, c.eventType)
      case None =>
      case Some(schema) =>
        E.SetUnique(ToolMapOf(init, events), c.name, ToolFor(c, schema));
    }
  }

  /** The candidate is named `name` and its event type is in the registry. */
  predicate RegisteredAs(c: ToolTransition, name: string, events: Registry)
  {
    c.name == name && E.Get(events, c.eventType).Some?
  }

  /** The position of the last registered candidate named `name`, if there is one. */
  function LastNamed(cs: seq<ToolTransition>, name: string, events: Registry): (r: Option<nat>)
    ensures r.Some? ==>
      r.value < |cs| && RegisteredAs(cs[r.value], name, events)
      && forall j :: r.value < j < |cs| ==> !RegisteredAs(cs[j], name, events)
    ensures r.None? ==> forall j :: 0 <= j < |cs| ==> !RegisteredAs(cs[j], name, events)
  {
    if |cs| == 0 then None
    else if RegisteredAs(cs[|cs| - 1], name, events) then Some(|cs| - 1)
    else LastNamed(cs[..|cs| - 1], name, events)
  }

  /**
   * The tool named `name` exists exactly when some registered candidate has
   * that name, and it is built from the last such candidate: its event type,
   * its registry schema's parameters, and the schema's description when the
   * schema has one, otherwise the candidate's own.
   */
  lemma {:induction false} ToolMapLookup(cs: seq<ToolTransition>, events: Registry, name: string)
    ensures E.Get(ToolMapOf(cs, events), name).Some? <==> LastNamed(cs, name, events).Some?
    ensures LastNamed(cs, name, events).Some? ==>
      var c := cs[LastNamed(cs, name, events).value];
      var schema := E.Get(events, c.eventType).value;
      var t := E.Get(ToolMapOf(cs, events), name).value;
      t.eventType == c.eventType && t.parameters == schema.shape
      && t.description == (if schema.description.Some? then schema.description else c.description)
  {
    if |cs| > 0 {
      var init, c := cs[..|cs| - 1], cs[|cs| - 1];
      ToolMapLookup(init, events, name);
      match E.Get(events, c.eventType)
      case None =>
      case Some(schema) =>
        E.GetSet(ToolMapOf(init, events), c.name, ToolFor(c, schema), name);
    }
  }

  /** The later of two candidates with the same name wins: assignment overwrites. */
  lemma ToolMapLastWins(cs: seq<ToolTransition>, c: ToolTransition, events: Registry, schema: EventSchema)
    requires E.Get(events, c.eventType) == Some(schema)
    ensures E.Get(ToolMapOf(cs + [c], events), c.name) == Some(ToolFor(c, schema))
  {
    assert (cs + [c])[..|cs|] == cs;
    E.GetSet(ToolMapOf(cs, events), c.name, ToolFor(c, schema), c.name);
  }

  /**
   * With a machine, every tool offered is built for a transition of the
   * active nodes whose event type is registered: the tool's event type is
   * that transition's, and its name is that event type with dots as
   * underscores.
   */
  lemma MachineToolsFromTransitions(env: Env, state: ObservedState, machine: Option<Machine>, events: Registry)
    requires machine.Some?
    ensures forall e :: e in ToolMapOf(ToolTransitions(CandidateTransitions(env, state, machine, events), events), events) ==>
      exists t :: t in T.GetTransitions(env, state, machine) && t.eventType in E.Keys(events)
        && e.1.eventType == t.eventType && e.0 == ReplaceDots(t.eventType)
  {
    var ts := CandidateTransitions(env, state, machine, events);
    var cs := ToolTransitions(ts, events);
    var m := ToolMapOf(cs, events);
    ToolMapUnique(cs, events);
    ToolTransitionsFrom(ts, events);
    forall e | e in m
      ensures exists t :: t in T.GetTransitions(env, state, machine) && t.eventType in E.Keys(events)
                          && e.1.eventType == t.eventType && e.0 == ReplaceDots(t.eventType)
    {
      E.GetUnique(m, e.0, e.1);
      ToolMapLookup(cs, events, e.0);
      var c := cs[LastNamed(cs, e.0, events).value];
      assert c in cs;
      var t :| t in ts && t.eventType in E.Keys(events) && c == ToolOf(t);
      assert e.1.eventType == t.eventType;
    }
  }

  /** `getToolMap`: the tool map, or nothing when no tool survives. */
  method GetToolMap(env: Env, input: StrategyInput) returns (r: Option<ToolMap>)
    ensures r.None? <==> ToolMapOf(ToolTransitions(CandidateTransitions(env, input.state, input.machine, input.events), input.events), input.events) == []
    ensures r.Some? ==> r.value == ToolMapOf(ToolTransitions(CandidateTransitions(env, input.state, input.machine, input.events), input.events), input.events)
  {
    var transitions := CandidateTransitions(env, input.state, input.machine, input.events);
    var toolTransitions := ToolTransitions(transitions, input.events);
    var toolMap := BuildToolMap(toolTransitions, input.events);
    if |toolMap| == 0 {
      return None;
    }
    return Some(toolMap);
  }

  /** The `for` loop that fills the tool map. */
  method BuildToolMap(cs: seq<ToolTransition>, events: Registry) returns (toolMap: ToolMap)
    ensures toolMap == ToolMapOf(cs, events)
  {
    toolMap := [];
    var i := 0;
    while i < |cs|
      invariant 0 <= i <= |cs|
      invariant toolMap == ToolMapOf(cs[..i], events)
    {
      assert cs[..i + 1][..i] == cs[..i];
      var c := cs[i];
      var schema := E.Get(events, c.eventType);
      if schema.Some? {
        toolMap := E.Set(toolMap, c.name, ToolFor(c, schema.value));
      }
      i := i + 1;
    }
    assert cs[..i] == cs;
  }

  /** Without a machine, there is a tool exactly when the registry is not empty. */
  lemma NoMachineToolMap(env: Env, state: ObservedState, events: Registry)
    ensures var cs := ToolTransitions(CandidateTransitions(env, state, None, events), events);
      (ToolMapOf(cs, events) == []) <==> (events == [])
  {
    var ts := CandidateTransitions(env, state, None, events);
    var cs := ToolTransitions(ts, events);
    ToolMapProperties(cs, events);
    if events != [] {
      assert events[0].0 in E.Keys(events);
      var t :| t in ts && t.eventType == events[0].0;
      var c := ToolOf(t);
      assert c in cs;
      assert c.name in E.Keys(ToolMapOf(cs, events));
    } else {
      assert cs == [];
    }
  }

  /** Two registered event types that differ only by dot and underscore yield a single tool, for the later one. */
  lemma DottedNamesCollide(events: Registry, s1: EventSchema, s2: EventSchema)
    requires E.Get(events, "a.b") == Some(s1) && E.Get(events, "a_b") == Some(s2)
    ensures var cs := [ToolTransition(ReplaceDots("a.b"), "a.b", None), ToolTransition(ReplaceDots("a_b"), "a_b", None)];
      var m := ToolMapOf(cs, events);
      |m| == 1 && m[0].1.eventType == "a_b"
  {
    ReplaceDotsCollides();
    var c1, c2 := ToolTransition("a_b", "a.b", None), ToolTransition("a_b", "a_b", None);
    assert [c1, c2][..1] == [c1];
    assert [c1][..0] == [];
    assert ToolMapOf([c1], events) == [("a_b", ToolFor(c1, s1))];
    assert ToolMapOf([c1, c2], events) == [("a_b", ToolFor(c2, s2))];
  }

  /** The tool map the planner builds inline: the same loop, but kept even when empty. */
  method PlannerToolMap(env: Env, state: ObservedState, machine: Option<Machine>, events: Registry) returns (toolMap: ToolMap)
    ensures toolMap == ToolMapOf(ToolTransitions(CandidateTransitions(env, state, machine, events), events), events)
  {
    var transitions := CandidateTransitions(env, state, machine, events);
    toolMap := BuildToolMap(ToolTransitions(transitions, events), events);
  }

  /** A tool's `execute(params)`: the event `{type: eventType, ...params}`. */
  function Execute(tool: Tool, params: E.Entries<Value>): (event: Value)
    ensures event.Obj? && "type" in E.Keys(event.entries)
  {
    var base := [("type", Str(tool.eventType))];
    assert base[0].0 == "type";
    assert "type" in E.Keys(base);
    Obj(E.Spread([("type", Str(tool.eventType))], params))
  }

  /** The event carries every parameter; its type is the tool's event type unless a parameter is itself called `type`. */
  lemma ExecuteFields(tool: Tool, params: E.Entries<Value>, k: string)
    requires E.UniqueKeys(params)
    ensures E.Get(Execute(tool, params).entries, k) ==
      if k in E.Keys(params) then E.Get(params, k)
      else if k == "type" then Some(Str(tool.eventType))
      else None
  {
    E.GetSpread([("type", Str(tool.eventType))], params, k);
  }
}
