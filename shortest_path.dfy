/**
 * Post-processing of the shortest-path strategy
 * (src/strategies/shortestPath.ts): cut each candidate path at the current
 * state, drop the paths that never pass through it, sort the rest by cost
 * and take the first step of the cheapest one. The graph search and the goal
 * predicate the model synthesises are one oracle.
 */
module ShortestPath {
  import opened Options
  import opened JsValue
  import opened AgentTypes
  import J = Json
  import A = Agents

  /** `observedStatesEqual`: the serialised values agree and the serialised contexts agree. */
  predicate ObservedStatesEqual(s1: ObservedState, s2: ObservedState)
  {
    J.Stringify(s1.value) == J.Stringify(s2.value) && J.Stringify(s1.context) == J.Stringify(s2.context)
  }

  /** Equality by serialisation is coarser than equality: a context member that is undefined is invisible. */
  lemma StatesEqualIgnoresUndefinedMembers(v: Value)
    ensures ObservedState(v, Obj([("a", Undef)])) != ObservedState(v, Obj([]))
    ensures ObservedStatesEqual(ObservedState(v, Obj([("a", Undef)])), ObservedState(v, Obj([])))
  {
    J.SerialisationIsNotInjective();
  }

  /** `array.findIndex(p)`, with `None` for -1. */
  function FindFirst<T>(s: seq<T>, p: T -> bool): (r: Option<nat>)
    ensures r.None? <==> forall i :: 0 <= i < |s| ==> !p(s[i])
    ensures r.Some? ==> r.value < |s| && p(s[r.value]) && forall i :: 0 <= i < r.value ==> !p(s[i])
  {
    if |s| == 0 then None
    else if p(s[0]) then Some(0)
    else
      match FindFirst(s[1..], p)
      case None => None
      case Some(i) => Some(i + 1)
  }

  /** A step matches when it has an expected state equal to the current one. */
  predicate Matches(step: Step, current: ObservedState)
  {
    step.state.Some? && ObservedStatesEqual(step.state.value, current)
  }

  /** `trimSteps`: the steps after the first one that reaches the current state, or `None` when none does. */
  function TrimSteps(steps: seq<Step>, current: ObservedState): (r: Option<seq<Step>>)
    ensures r.None? <==> forall i :: 0 <= i < |steps| ==> !Matches(steps[i], current)
    ensures r.Some? ==>
      exists i :: 0 <= i < |steps| && Matches(steps[i], current) && (forall k :: 0 <= k < i ==> !Matches(steps[k], current)) && r.value == steps[i + 1..]
  {
    match FindFirst(steps, (s: Step) => Matches(s, current))
    case None => None
    case Some(i) => Some(steps[i + 1..])
  }

  /** A path whose steps pass through the current state keeps only the steps after it. */
  function TrimPath(p: Path, current: ObservedState): (r: Option<Path>)
    ensures r.None? <==> TrimSteps(p.steps, current).None?
    ensures r.Some? ==> r.value == p.(steps := TrimSteps(p.steps, current).value)
  {
    match TrimSteps(p.steps, current)
    case None => None
    case Some(steps) => Some(p.(steps := steps))
  }

  /** The `map(...)` then `filter(...)` pipeline: trimmed paths, in the original order (`TrimmedPathsOrdered`). */
  function TrimmedPaths(paths: seq<Path>, current: ObservedState): (r: seq<Path>)
    ensures |r| <= |paths|
    ensures forall q :: q in r <==> exists i :: 0 <= i < |paths| && TrimPath(paths[i], current) == Some(q)
  {
    if |paths| == 0 then []
    else
      var rest := TrimmedPaths(paths[..|paths| - 1], current);
      var last := paths[|paths| - 1];
      assert forall i :: 0 <= i < |paths| - 1 ==> paths[..|paths| - 1][i] == paths[i];
      match TrimPath(last, current)
      case None => rest
      case Some(q) => rest + [q]
  }

  /** `a` is the trim of a path that comes strictly before the path `b` is the trim of. */
  ghost predicate TrimmedBefore(paths: seq<Path>, current: ObservedState, a: Path, b: Path)
  {
    exists p, q :: 0 <= p < q < |paths| && TrimPath(paths[p], current) == Some(a) && TrimPath(paths[q], current) == Some(b)
  }

  lemma TrimmedBeforeInit(paths: seq<Path>, current: ObservedState, a: Path, b: Path)
    requires |paths| > 0 && TrimmedBefore(paths[..|paths| - 1], current, a, b)
    ensures TrimmedBefore(paths, current, a, b)
  {
    var init := paths[..|paths| - 1];
    var p, q :| 0 <= p < q < |init| && TrimPath(init[p], current) == Some(a) && TrimPath(init[q], current) == Some(b);
    assert init[p] == paths[p] && init[q] == paths[q];
  }

  /** The trimmed paths keep the relative order of the paths they come from. */
  lemma {:induction false} TrimmedPathsOrdered(paths: seq<Path>, current: ObservedState)
    ensures forall i, j :: 0 <= i < j < |TrimmedPaths(paths, current)| ==>
      TrimmedBefore(paths, current, TrimmedPaths(paths, current)[i], TrimmedPaths(paths, current)[j])
  {
    forall i, j | 0 <= i < j < |TrimmedPaths(paths, current)|
      ensures TrimmedBefore(paths, current, TrimmedPaths(paths, current)[i], TrimmedPaths(paths, current)[j])
    {
      TrimmedPathsOrderedAt(paths, current, i, j);
    }
  }

  lemma {:induction false} TrimmedPathsOrderedAt(paths: seq<Path>, current: ObservedState, i: nat, j: nat)
    requires i < j < |TrimmedPaths(paths, current)|
    ensures TrimmedBefore(paths, current, TrimmedPaths(paths, current)[i], TrimmedPaths(paths, current)[j])
  {
    var init := paths[..|paths| - 1];
    var rest := TrimmedPaths(init, current);
    var r := TrimmedPaths(paths, current);
    match TrimPath(paths[|paths| - 1], current)
    case None =>
      assert r == rest;
      TrimmedPathsOrderedAt(init, current, i, j);
      TrimmedBeforeInit(paths, current, r[i], r[j]);
    case Some(last) =>
      assert r == rest + [last];
      assert r[i] == rest[i];
      if j < |rest| {
        assert r[j] == rest[j];
        TrimmedPathsOrderedAt(init, current, i, j);
        TrimmedBeforeInit(paths, current, r[i], r[j]);
      } else {
        TrimmedBeforeLast(paths, current, rest[i]);
      }
  }

  lemma TrimmedBeforeLast(paths: seq<Path>, current: ObservedState, a: Path)
    requires |paths| > 0 && TrimPath(paths[|paths| - 1], current).Some?
    requires a in TrimmedPaths(paths[..|paths| - 1], current)
    ensures TrimmedBefore(paths, current, a, TrimPath(paths[|paths| - 1], current).value)
  {
    var init := paths[..|paths| - 1];
    var p :| 0 <= p < |init| && TrimPath(init[p], current) == Some(a);
    assert init[p] == paths[p];
  }

  /** A cost: an integer or positive infinity. */
  datatype Cost = Finite(n: int) | Infinity

  /**
   * The sign of the comparator `costFunction(a) - costFunction(b)` as the
   * sort reads it: infinity minus infinity is NaN, which the sort treats as
   * zero, so two unweighted paths compare equal.
   */
  function Compare(a: Cost, b: Cost): int
  {
    match (a, b)
    case (Finite(x), Finite(y)) => x - y
    case (Infinity, Finite(_)) => 1
    case (Finite(_), Infinity) => -1
    case (Infinity, Infinity) => 0
  }

  /** `a` may come before `b`. */
  predicate CostLe(a: Cost, b: Cost)
  {
    Compare(a, b) <= 0
  }

  /** The comparator is consistent: antisymmetric in sign, total and transitive, as `Array.prototype.sort` requires. */
  lemma CompareConsistent(a: Cost, b: Cost, c: Cost)
    ensures Compare(a, b) < 0 <==> Compare(b, a) > 0
    ensures Compare(a, b) == 0 <==> Compare(b, a) == 0
    ensures CostLe(a, b) || CostLe(b, a)
    ensures CostLe(a, b) && CostLe(b, c) ==> CostLe(a, c)
  {
  }

  /** The default cost: the path's weight, or infinity when it has none. */
  function DefaultCost(p: Path): (c: Cost)
    ensures c.Finite? <==> p.weight.Some?
    ensures c.Finite? ==> c.n == p.weight.value
  {
    if p.weight.Some? then Finite(p.weight.value) else Infinity
  }

  /** `input.costFunction ?? defaultCost` */
  function CostOf(costFunction: Option<Path -> Cost>): Path -> Cost
  {
    if costFunction.Some? then costFunction.value else DefaultCost
  }

  /** Ascending by cost. */
  ghost predicate Sorted(s: seq<Path>, cost: Path -> Cost)
  {
    forall i, j :: 0 <= i < j < |s| ==> CostLe(cost(s[i]), cost(s[j]))
  }

  /** The first path of least cost: what a stable ascending sort puts in front. */
  function FirstCheapest(s: seq<Path>, cost: Path -> Cost): Path
    requires |s| > 0
  {
    if |s| == 1 then s[0]
    else
      var h := FirstCheapest(s[..|s| - 1], cost);
      if Compare(cost(s[|s| - 1]), cost(h)) < 0 then s[|s| - 1] else h
  }

  /** `FirstCheapest` picks a path of least cost, and every path before it is strictly more expensive. */
  lemma {:induction false} FirstCheapestIsFirstLeast(s: seq<Path>, cost: Path -> Cost)
    requires |s| > 0
    ensures FirstCheapest(s, cost) in s
    ensures forall q :: q in s ==> CostLe(cost(FirstCheapest(s, cost)), cost(q))
    ensures exists i ::
              0 <= i < |s| && s[i] == FirstCheapest(s, cost)
              && forall k :: 0 <= k < i ==> Compare(cost(FirstCheapest(s, cost)), cost(s[k])) < 0
  {
    if |s| == 1 {
      assert s[0] in s;
    } else {
      var init, last := s[..|s| - 1], s[|s| - 1];
      FirstCheapestIsFirstLeast(init, cost);
      assert s == init + [last];
      CheapestStep(init, last, FirstCheapest(init, cost), FirstCheapest(s, cost), cost);
    }
  }

  /** Appending `last` keeps the first cheapest path, unless `last` is strictly cheaper. */
  lemma CheapestStep(init: seq<Path>, last: Path, h: Path, r: Path, cost: Path -> Cost)
    requires h in init && forall q :: q in init ==> CostLe(cost(h), cost(q))
    requires exists i :: 0 <= i < |init| && init[i] == h && forall k :: 0 <= k < i ==> Compare(cost(h), cost(init[k])) < 0
    requires r == if Compare(cost(last), cost(h)) < 0 then last else h
    ensures r in init + [last]
    ensures forall q :: q in init + [last] ==> CostLe(cost(r), cost(q))
    ensures exists i ::
              0 <= i < |init| + 1 && (init + [last])[i] == r
              && forall k :: 0 <= k < i ==> Compare(cost(r), cost((init + [last])[k])) < 0
  {
    var s := init + [last];
    var i :| 0 <= i < |init| && init[i] == h && forall k :: 0 <= k < i ==> Compare(cost(h), cost(init[k])) < 0;
    if Compare(cost(last), cost(h)) < 0 {
      forall q | q in s
        ensures CostLe(cost(last), cost(q))
      {
        if q in init {
          CompareConsistent(cost(last), cost(h), cost(q));
        }
      }
      forall k | 0 <= k < |init|
        ensures Compare(cost(last), cost(s[k])) < 0
      {
        assert s[k] == init[k];
        assert CostLe(cost(h), cost(init[k]));
      }
      assert s[|init|] == last;
    } else {
      forall q | q in s
        ensures CostLe(cost(h), cost(q))
      {
        if q == last {
          CompareConsistent(cost(last), cost(h), cost(h));
        }
      }
      forall k | 0 <= k < i
        ensures Compare(cost(h), cost(s[k])) < 0
      {
        assert s[k] == init[k];
      }
      assert s[i] == h;
    }
  }

  /**
   * One step of insertion sort: `a[i]` moves left past every element that
   * is strictly more expensive, so equal costs keep their order.
   */
  method Insert(a: array<Path>, i: nat, cost: Path -> Cost)
    requires 0 < i < a.Length
    requires Sorted(a[..i], cost)
    modifies a
    ensures Sorted(a[..i + 1], cost)
    ensures multiset(a[..]) == multiset(old(a[..]))
    ensures a[i + 1..] == old(a[i + 1..])
    ensures a[0] == if Compare(cost(old(a[i])), cost(old(a[0]))) < 0 then old(a[i]) else old(a[0])
  {
    ghost var before := a[..];
    var x := a[i];
    var j := i;
    while j > 0 && Compare(cost(x), cost(a[j - 1])) < 0
      invariant 0 <= j <= i
      invariant forall k :: 0 <= k < j ==> a[k] == before[k]
      invariant forall k :: j < k <= i ==> a[k] == before[k - 1]
      invariant forall k :: i < k < a.Length ==> a[k] == before[k]
      invariant j < i ==> Compare(cost(x), cost(before[j])) < 0
    {
      a[j] := a[j - 1];
      j := j - 1;
    }
    a[j] := x;
    InsertStep(before, a[..], i, j, cost);
  }

  /** What the insertion loop leaves behind, in terms of the array before it. */
  lemma InsertStep(before: seq<Path>, after: seq<Path>, i: nat, j: nat, cost: Path -> Cost)
    requires j <= i < |before| == |after|
    requires Sorted(before[..i], cost)
    requires after[j] == before[i]
    requires forall k :: 0 <= k < j ==> after[k] == before[k]
    requires forall k :: j < k <= i ==> after[k] == before[k - 1]
    requires forall k :: i < k < |after| ==> after[k] == before[k]
    requires j < i ==> Compare(cost(before[i]), cost(before[j])) < 0
    requires j > 0 ==> !(Compare(cost(before[i]), cost(after[j - 1])) < 0)
    ensures Sorted(after[..i + 1], cost)
    ensures multiset(after) == multiset(before)
    ensures after[i + 1..] == before[i + 1..]
    ensures 0 < i ==> after[0] == if Compare(cost(before[i]), cost(before[0])) < 0 then before[i] else before[0]
  {
    MovedShape(before, after, i, j);
    MoveKeepsMultiset(before, i, j);
    InsertedSorted(before, after, i, j, before[i], cost);
  }

  lemma MovedShape<T>(before: seq<T>, after: seq<T>, i: nat, j: nat)
    requires j <= i < |before| == |after|
    requires after[j] == before[i]
    requires forall k :: 0 <= k < j ==> after[k] == before[k]
    requires forall k :: j < k <= i ==> after[k] == before[k - 1]
    requires forall k :: i < k < |after| ==> after[k] == before[k]
    ensures after == before[..j] + [before[i]] + before[j..i] + before[i + 1..]
  {
  }

  /** Moving `s[i]` to position `j` rearranges the sequence without changing its elements. */
  lemma MoveKeepsMultiset<T>(s: seq<T>, i: nat, j: nat)
    requires j <= i < |s|
    ensures multiset(s[..j] + [s[i]] + s[j..i] + s[i + 1..]) == multiset(s)
  {
    assert s == s[..j] + s[j..i] + [s[i]] + s[i + 1..];
  }

  /** The array after an insertion step is sorted up to `i`, and its head is the cheaper of the old head and `x`. */
  lemma InsertedSorted(before: seq<Path>, after: seq<Path>, i: nat, j: nat, x: Path, cost: Path -> Cost)
    requires j <= i < |before| == |after| && before[i] == x
    requires Sorted(before[..i], cost)
    requires after[j] == x
    requires forall k :: 0 <= k < j ==> after[k] == before[k]
    requires forall k :: j < k <= i ==> after[k] == before[k - 1]
    requires j < i ==> Compare(cost(x), cost(before[j])) < 0
    requires j > 0 ==> !(Compare(cost(x), cost(after[j - 1])) < 0)
    ensures Sorted(after[..i + 1], cost)
    ensures 0 < i ==> after[0] == if Compare(cost(x), cost(before[0])) < 0 then x else before[0]
  {
    forall k, l | 0 <= k < l < i + 1
      ensures CostLe(cost(after[k]), cost(after[l]))
    {
      if l < j {
        assert before[..i][k] == before[k] && before[..i][l] == before[l];
      } else if l == j {
        assert before[..i][k] == before[k] && before[..i][j - 1] == before[j - 1];
        CompareConsistent(cost(before[k]), cost(before[j - 1]), cost(x));
        CompareConsistent(cost(x), cost(before[j - 1]), cost(x));
      } else if k == j {
        assert before[..i][j] == before[j] && before[..i][l - 1] == before[l - 1];
        if l - 1 > j {
          CompareConsistent(cost(x), cost(before[j]), cost(before[l - 1]));
        }
      } else if k < j {
        assert before[..i][k] == before[k] && before[..i][l - 1] == before[l - 1];
      } else {
        assert before[..i][k - 1] == before[k - 1] && before[..i][l - 1] == before[l - 1];
      }
    }
    if 0 < i && 0 < j {
      assert before[..i][0] == before[0] && before[..i][j - 1] == before[j - 1];
      CompareConsistent(cost(before[0]), cost(before[j - 1]), cost(x));
      CompareConsistent(cost(x), cost(before[j - 1]), cost(x));
      CompareConsistent(cost(x), cost(before[0]), cost(x));
    }
  }

  /**
   * `trimmedPaths.sort((a, b) => costFunction(a) - costFunction(b))`:
   * a stable ascending sort in place. Its result is a sorted permutation
   * whose head is the first cheapest path.
   */
  method SortByCost(a: array<Path>, cost: Path -> Cost)
    modifies a
    ensures Sorted(a[..], cost)
    ensures multiset(a[..]) == multiset(old(a[..]))
    ensures a.Length > 0 ==> a[0] == FirstCheapest(old(a[..]), cost)
  {
    if a.Length == 0 {
      return;
    }
    ghost var original := a[..];
    var i := 1;
    while i < a.Length
      invariant 1 <= i <= a.Length
      invariant Sorted(a[..i], cost)
      invariant multiset(a[..]) == multiset(original)
      invariant a[i..] == original[i..]
      invariant a[0] == FirstCheapest(original[..i], cost)
    {
      ghost var mid := a[..];
      Insert(a, i, cost);
      SortStep(original, mid, a[..], i, cost);
      i := i + 1;
    }
    assert i == a.Length;
    assert a[..i] == a[..];
    assert original[..i] == original;
    assert Sorted(a[..], cost);
    assert multiset(a[..]) == multiset(original);
  }

  /** The outer loop's invariant carries over one insertion. */
  lemma SortStep(original: seq<Path>, mid: seq<Path>, after: seq<Path>, i: nat, cost: Path -> Cost)
    requires 1 <= i < |original| == |mid| == |after|
    requires multiset(mid) == multiset(original) && mid[i..] == original[i..]
    requires mid[0] == FirstCheapest(original[..i], cost)
    requires multiset(after) == multiset(mid) && after[i + 1..] == mid[i + 1..]
    requires after[0] == if Compare(cost(mid[i]), cost(mid[0])) < 0 then mid[i] else mid[0]
    ensures multiset(after) == multiset(original) && after[i + 1..] == original[i + 1..]
    ensures after[0] == FirstCheapest(original[..i + 1], cost)
  {
    SuffixStep(original, mid, after, i);
    assert original[..i + 1] == original[..i] + [original[i]];
    FirstCheapestSnoc(original[..i], original[i], cost);
  }

  /** The untouched suffix shrinks by one element, which is the one just inserted. */
  lemma SuffixStep<T>(original: seq<T>, mid: seq<T>, after: seq<T>, i: nat)
    requires i < |original| == |mid| == |after|
    requires mid[i..] == original[i..] && after[i + 1..] == mid[i + 1..]
    ensures mid[i] == original[i] && after[i + 1..] == original[i + 1..]
  {
    assert mid[i] == mid[i..][0] == original[i];
    assert after[i + 1..] == mid[i..][1..] == original[i..][1..] == original[i + 1..];
  }

  /** Appending a path changes the first cheapest one only when the new path is strictly cheaper. */
  lemma FirstCheapestSnoc(s: seq<Path>, x: Path, cost: Path -> Cost)
    requires |s| > 0
    ensures FirstCheapest(s + [x], cost)
      == if Compare(cost(x), cost(FirstCheapest(s, cost))) < 0 then x else FirstCheapest(s, cost)
  {
    assert (s + [x])[..|s|] == s;
    assert (s + [x])[|s|] == x;
  }

  /** The first cached decision from this strategy for the same goal. */
  function FindCached(decisions: Option<seq<Decision>>, goal: string): (r: Option<Decision>)
    ensures decisions.None? ==> r.None?
    ensures r.Some? ==>
      exists i :: 0 <= i < |decisions.value| && decisions.value[i] == r.value
        && r.value.strategy == "shortestPath" && r.value.goal == goal
        && forall k :: 0 <= k < i ==> !(decisions.value[k].strategy == "shortestPath" && decisions.value[k].goal == goal)
    ensures decisions.Some? && r.None? ==> forall d :: d in decisions.value ==> !(d.strategy == "shortestPath" && d.goal == goal)
  {
    if decisions.None? then None
    else
      var ds := decisions.value;
      match FindFirst(ds, (d: Decision) => d.strategy == "shortestPath" && d.goal == goal)
      case None => None
      case Some(i) => Some(ds[i])
  }

  /** The event that starts the cheapest trimmed path, if there is one and it has a step. */
  function NextEvent(trimmed: seq<Path>, cost: Path -> Cost): (r: Option<Value>)
    ensures r.Some? ==> (|trimmed| > 0 && |FirstCheapest(trimmed, cost).steps| > 0
      && r.value == FirstCheapest(trimmed, cost).steps[0].event)
    ensures r.None? ==> |trimmed| == 0 || |FirstCheapest(trimmed, cost).steps| == 0
  {
    if |trimmed| == 0 then None
    else
      var p := FirstCheapest(trimmed, cost);
      if |p.steps| == 0 then None else Some(p.steps[0].event)
  }

  /** `paths[0]?.state` */
  function FirstState(paths: seq<Path>): (r: Option<ObservedState>)
    ensures |paths| == 0 ==> r.None?
    ensures |paths| > 0 ==> r == paths[0].state
  {
    if |paths| == 0 then None else paths[0].state
  }

  /** The paths to work with: the cached decision's, or the oracle's search from the resolved state, or none. */
  function CandidatePaths(cached: Option<seq<Path>>, machine: Option<Machine>, goal: string, state: ObservedState,
                          search: (Machine, string, ObservedState) -> seq<Path>): (r: Option<seq<Path>>)
    ensures cached.Some? ==> r == cached
    ensures cached.None? && machine.Some? ==> r == Some(search(machine.value, goal, ObservedState(state.value, Coalesce(state.context, Obj([])))))
    ensures r.None? <==> cached.None? && machine.None?
  {
    if cached.Some? then cached
    else if machine.Some? then Some(search(machine.value, goal, ObservedState(state.value, Coalesce(state.context, Obj([])))))
    else None
  }

  /** Trim, sort in place, and read off the first step of the head. */
  method CheapestNextEvent(paths: seq<Path>, current: ObservedState, cost: Path -> Cost) returns (r: Option<Value>)
    ensures r == NextEvent(TrimmedPaths(paths, current), cost)
  {
    var trimmed := TrimmedPaths(paths, current);
    var a := new Path[|trimmed|](i requires 0 <= i < |trimmed| => trimmed[i]);
    assert a[..] == trimmed;
    SortByCost(a, cost);
    if a.Length == 0 || |a[0].steps| == 0 {
      return None;
    }
    r := Some(a[0].steps[0].event);
  }

  /**
   * `experimental_shortestPathStrategy`. `search` stands for the model call
   * that turns the goal into a predicate on contexts followed by the graph
   * search from the resolved state; it is consulted only on a cache miss.
   */
  method Decide(agent: A.Agent, input: StrategyInput, costFunction: Option<Path -> Cost>,
                search: (Machine, string, ObservedState) -> seq<Path>, id: string, now: int)
    returns (r: Option<Decision>, searched: bool)
    ensures var cached := FindCached(input.decisions, input.goal);
      && (searched <==> cached.None? && input.machine.Some?)
      && (r.None? <==> cached.None? && input.machine.None?)
    ensures r.Some? ==>
      var paths := CandidatePaths(if FindCached(input.decisions, input.goal).Some? then Some(FindCached(input.decisions, input.goal).value.paths) else None,
                                  input.machine, input.goal, input.state, search).value;
      r.value == Decision(id, "shortestPath", input.goal, FirstState(paths),
                          NextEvent(TrimmedPaths(paths, input.state), CostOf(costFunction)), paths, agent.episodeId, now)
  {
    var existing := FindCached(input.decisions, input.goal);
    var cached := if existing.Some? then Some(existing.value.paths) else None;
    searched := existing.None? && input.machine.Some?;
    var paths := CandidatePaths(cached, input.machine, input.goal, input.state, search);
    if paths.None? {
      return None, searched;
    }
    var next := CheapestNextEvent(paths.value, input.state, CostOf(costFunction));
    r := Some(Decision(id, "shortestPath", input.goal, FirstState(paths.value), next, paths.value, agent.episodeId, now));
  }
}
