/**
 * Listing the transitions of a state machine (src/utils.ts): the flattening
 * of the transitions of the active nodes of a snapshot, the recursive
 * listing over a whole machine, the empty case without a machine, and the
 * memoised machine hash.
 */
module Transitions {
  import opened Options
  import opened AgentTypes

  /** A guard written as a bare name is turned into a `{type}` object; every other guard is kept. */
  predicate Normalised(t: TransitionData)
  {
    t.guard.None? || !t.guard.value.NamedGuard?
  }

  /** The name a guard refers to, whichever way it is written; an inline guard has none. */
  function GuardType(g: Option<Guard>): Option<string>
  {
    match g
    case None => None
    case Some(NamedGuard(n)) => Some(n)
    case Some(GuardObject(n)) => Some(n)
    case Some(InlineGuard(_)) => None
  }

  /** `{...transition, guard: typeof guard === 'string' ? {type: guard} : guard}` */
  function Normalise(t: TransitionData): (r: TransitionData)
    ensures Normalised(r)
    ensures r.eventType == t.eventType && r.description == t.description && r.target == t.target
    ensures GuardType(r.guard) == GuardType(t.guard)
    ensures Normalised(t) ==> r == t
  {
    match t.guard
    case Some(NamedGuard(n)) => t.(guard := Some(GuardObject(n)))
    case _ => t
  }

  /** Normalising twice is normalising once. */
  lemma NormaliseIdempotent(t: TransitionData)
    ensures Normalise(Normalise(t)) == Normalise(t)
  {
  }

  /** The transitions of one event, normalised, in order. */
  function EventTransitions(ts: seq<TransitionData>): (r: seq<TransitionData>)
    ensures |r| == |ts|
    ensures forall i :: 0 <= i < |ts| ==> r[i] == Normalise(ts[i])
  {
    if |ts| == 0 then [] else [Normalise(ts[0])] + EventTransitions(ts[1..])
  }

  /** The transitions of one node: event after event, each event's transitions in order. */
  function NodeTransitions(on: seq<(string, seq<TransitionData>)>): seq<TransitionData>
  {
    if |on| == 0 then [] else EventTransitions(on[0].1) + NodeTransitions(on[1..])
  }

  /** `getAllTransitions`: the transitions of the given nodes (the active nodes of a snapshot), node after node. */
  function AllTransitions(nodes: seq<StateNode>): seq<TransitionData>
  {
    if |nodes| == 0 then [] else NodeTransitions(nodes[0].on) + AllTransitions(nodes[1..])
  }

  /** `t` is transition `j` of event entry `e` of `node`. */
  predicate DeclaredIn(node: StateNode, t: TransitionData)
  {
    exists e, j :: 0 <= e < |node.on| && 0 <= j < |node.on[e].1| && node.on[e].1[j] == t
  }

  /** Some event entry of `on` declares a transition that normalises to `t`. */
  predicate NodeDeclares(on: seq<(string, seq<TransitionData>)>, t: TransitionData)
  {
    exists e, j :: 0 <= e < |on| && 0 <= j < |on[e].1| && Normalise(on[e].1[j]) == t
  }

  /** Some node of `nodes` declares a transition that normalises to `t`. */
  ghost predicate DeclaredAmong(nodes: seq<StateNode>, t: TransitionData)
  {
    exists n, u :: 0 <= n < |nodes| && DeclaredIn(nodes[n], u) && Normalise(u) == t
  }

  lemma {:induction false} NodeTransitionsMember(on: seq<(string, seq<TransitionData>)>, t: TransitionData)
    ensures t in NodeTransitions(on) <==> NodeDeclares(on, t)
  {
    if |on| > 0 {
      NodeTransitionsMember(on[1..], t);
      var here := EventTransitions(on[0].1);
      assert NodeTransitions(on) == here + NodeTransitions(on[1..]);
      if t in here {
        var j :| 0 <= j < |here| && here[j] == t;
        assert Normalise(on[0].1[j]) == t;
      }
      if NodeDeclares(on, t) {
        var e, j :| 0 <= e < |on| && 0 <= j < |on[e].1| && Normalise(on[e].1[j]) == t;
        if e == 0 {
          assert here[j] == t;
        } else {
          assert on[1..][e - 1] == on[e];
        }
      }
      if NodeDeclares(on[1..], t) {
        var e, j :| 0 <= e < |on[1..]| && 0 <= j < |on[1..][e].1| && Normalise(on[1..][e].1[j]) == t;
        assert on[1..][e] == on[e + 1];
      }
    }
  }

  /** A node list declares `t` when its first node does or the rest do. */
  lemma DeclaredAmongCons(nodes: seq<StateNode>, t: TransitionData)
    requires |nodes| > 0
    ensures DeclaredAmong(nodes, t) <==> NodeDeclares(nodes[0].on, t) || DeclaredAmong(nodes[1..], t)
  {
    if DeclaredAmong(nodes, t) {
      var n, u :| 0 <= n < |nodes| && DeclaredIn(nodes[n], u) && Normalise(u) == t;
      if n > 0 {
        assert nodes[1..][n - 1] == nodes[n];
      } else {
        var e, j :| 0 <= e < |nodes[0].on| && 0 <= j < |nodes[0].on[e].1| && nodes[0].on[e].1[j] == u;
        assert Normalise(nodes[0].on[e].1[j]) == t;
      }
    }
    if NodeDeclares(nodes[0].on, t) {
      var e, j :| 0 <= e < |nodes[0].on| && 0 <= j < |nodes[0].on[e].1| && Normalise(nodes[0].on[e].1[j]) == t;
      assert DeclaredIn(nodes[0], nodes[0].on[e].1[j]);
    }
    if DeclaredAmong(nodes[1..], t) {
      var n, u :| 0 <= n < |nodes[1..]| && DeclaredIn(nodes[1..][n], u) && Normalise(u) == t;
      assert nodes[1..][n] == nodes[n + 1];
    }
  }

  /** Nothing is invented or lost: a transition is listed exactly when some given node declares it (up to the guard rewrite). */
  lemma {:induction false} AllTransitionsMember(nodes: seq<StateNode>, t: TransitionData)
    ensures t in AllTransitions(nodes) <==> DeclaredAmong(nodes, t)
  {
    if |nodes| > 0 {
      AllTransitionsMember(nodes[1..], t);
      NodeTransitionsMember(nodes[0].on, t);
      DeclaredAmongCons(nodes, t);
      assert AllTransitions(nodes) == NodeTransitions(nodes[0].on) + AllTransitions(nodes[1..]);
    }
  }

  /** Node order is kept: listing two groups of nodes is listing the first, then the second. */
  lemma {:induction false} AllTransitionsAppend(a: seq<StateNode>, b: seq<StateNode>)
    ensures AllTransitions(a + b) == AllTransitions(a) + AllTransitions(b)
  {
    if |a| == 0 {
      assert a + b == b;
    } else {
      assert (a + b)[1..] == a[1..] + b;
      AllTransitionsAppend(a[1..], b);
    }
  }

  /** Every listed transition has its guard normalised. */
  lemma {:induction false} AllTransitionsNormalised(nodes: seq<StateNode>)
    ensures forall i :: 0 <= i < |AllTransitions(nodes)| ==> Normalised(AllTransitions(nodes)[i])
  {
    forall i | 0 <= i < |AllTransitions(nodes)| ensures Normalised(AllTransitions(nodes)[i]) {
      var t := AllTransitions(nodes)[i];
      AllTransitionsMember(nodes, t);
    }
  }

  /** The nodes of a state tree in pre-order: a node, then each child's subtree in child order. */
  function PreOrder(node: StateNode): (r: seq<StateNode>)
    ensures |r| > 0 && r[0] == node
    decreases node, 1
  {
    [node] + PreOrderAll(node.states)
  }

  function PreOrderAll(nodes: seq<StateNode>): seq<StateNode>
    decreases nodes, 0
  {
    if |nodes| == 0 then [] else PreOrder(nodes[0]) + PreOrderAll(nodes[1..])
  }

  /** The transitions of a whole state tree, as `getAllMachineTransitions` lists them. */
  function TreeTransitions(node: StateNode): seq<TransitionData>
  {
    AllTransitions(PreOrder(node))
  }

  lemma {:induction false} PreOrderAllSnoc(nodes: seq<StateNode>, x: StateNode)
    ensures PreOrderAll(nodes + [x]) == PreOrderAll(nodes) + PreOrder(x)
  {
    if |nodes| == 0 {
      assert nodes + [x] == [x];
    } else {
      assert (nodes + [x])[1..] == nodes[1..] + [x];
      PreOrderAllSnoc(nodes[1..], x);
    }
  }

  lemma ChildStep(states: seq<StateNode>, i: nat)
    requires i < |states|
    ensures AllTransitions(PreOrderAll(states[..i + 1])) == AllTransitions(PreOrderAll(states[..i])) + TreeTransitions(states[i])
  {
    assert states[..i + 1] == states[..i] + [states[i]];
    PreOrderAllSnoc(states[..i], states[i]);
    AllTransitionsAppend(PreOrderAll(states[..i]), PreOrder(states[i]));
  }

  /** One iteration of the loop over the children keeps its invariant. */
  lemma LoopStep(node: StateNode, i: nat, ts: seq<TransitionData>, childTransitions: seq<TransitionData>)
    requires i < |node.states|
    requires ts == NodeTransitions(node.on) + AllTransitions(PreOrderAll(node.states[..i]))
    requires childTransitions == TreeTransitions(node.states[i])
    ensures ts + childTransitions == NodeTransitions(node.on) + AllTransitions(PreOrderAll(node.states[..i + 1]))
  {
    ChildStep(node.states, i);
    ConcatAssociative(NodeTransitions(node.on), AllTransitions(PreOrderAll(node.states[..i])), childTransitions);
  }

  lemma ConcatAssociative<T>(a: seq<T>, b: seq<T>, c: seq<T>)
    ensures a + b + c == a + (b + c)
  {
  }

  lemma TreeTransitionsUnfold(node: StateNode)
    ensures TreeTransitions(node) == NodeTransitions(node.on) + AllTransitions(PreOrderAll(node.states))
  {
    assert PreOrder(node)[1..] == PreOrderAll(node.states);
  }

  /**
   * `getAllMachineTransitions`: the node's own transitions, then, child by
   * child, the transitions of the child's subtree, appended in a loop.
   */
  method AllMachineTransitions(node: StateNode) returns (ts: seq<TransitionData>)
    ensures ts == TreeTransitions(node)
    decreases node
  {
    ts := NodeTransitions(node.on);
    var i := 0;
    while i < |node.states|
      invariant 0 <= i <= |node.states|
      invariant ts == NodeTransitions(node.on) + AllTransitions(PreOrderAll(node.states[..i]))
    {
      var childTransitions := AllMachineTransitions(node.states[i]);
      LoopStep(node, i, ts, childTransitions);
      ts := ts + childTransitions;
      i := i + 1;
    }
    assert node.states[..i] == node.states;
    TreeTransitionsUnfold(node);
  }

  /** A node's own transitions come first in the listing of its tree. */
  lemma OwnTransitionsFirst(node: StateNode)
    ensures NodeTransitions(node.on) <= TreeTransitions(node)
  {
    TreeTransitionsUnfold(node);
  }

  /** `getTransitions`: without a machine there are none; otherwise those of the active nodes of the resolved snapshot. */
  function GetTransitions(env: Env, state: ObservedState, machine: Option<Machine>): (r: seq<TransitionData>)
    ensures machine.None? ==> r == []
    ensures machine.Some? ==> forall t :: t in r <==>
      exists n, u :: 0 <= n < |env.activeNodes(machine.value, state)| && DeclaredIn(env.activeNodes(machine.value, state)[n], u) && Normalise(u) == t
  {
    match machine
    case None => []
    case Some(m) =>
      var nodes := env.activeNodes(m, state);
      assert forall t :: t in AllTransitions(nodes) <==>
        exists n, u :: 0 <= n < |nodes| && DeclaredIn(nodes[n], u) && Normalise(u) == t by {
        forall t { AllTransitionsMember(nodes, t); }
      }
      AllTransitions(nodes)
  }

  /**
   * The cache behind `getMachineHash`: a machine's hash is computed from
   * its transitions once and remembered.
   */
  class MachineHashCache {
    var hashes: map<Machine, string>
    const hash: seq<TransitionData> -> string

    /** Every remembered hash is the hash of its machine's transitions. */
    predicate Valid()
      reads this
    {
      forall m :: m in hashes ==> hashes[m] == hash(TreeTransitions(m.root))
    }

    constructor (hash: seq<TransitionData> -> string)
      ensures Valid() && hashes == map[] && this.hash == hash
    {
      this.hash := hash;
      hashes := map[];
    }

    /** `getMachineHash`: the remembered value when there is one, otherwise computed and remembered. */
    method GetMachineHash(machine: Machine) returns (h: string)
      requires Valid()
      modifies this
      ensures Valid()
      ensures h == hash(TreeTransitions(machine.root))
      ensures machine in old(hashes) ==> h == old(hashes)[machine] && hashes == old(hashes)
      ensures hashes == old(hashes)[machine := h]
    {
      if machine in hashes {
        h := hashes[machine];
        return;
      }
      var transitions := AllMachineTransitions(machine.root);
      h := hash(transitions);
      hashes := hashes[machine := h];
    }
  }

  /** Two lookups of the same machine agree, whatever happened to the cache in between. */
  method HashTwice(cache: MachineHashCache, machine: Machine) returns (first: string, second: string)
    requires cache.Valid()
    modifies cache
    ensures first == second
  {
    first := cache.GetMachineHash(machine);
    second := cache.GetMachineHash(machine);
  }
}
