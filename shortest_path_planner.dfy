/**
 * The shortest-path planner (src/planners/shortestPathPlanner.ts): the same
 * trimming and selection as the shortest-path strategy, with the cache taken
 * from a list of earlier plans and a plan as result.
 */
module ShortestPathPlanner {
  import opened Options
  import opened AgentTypes
  import A = Agents
  import SP = ShortestPath
  import P = Planners

  /** The first earlier plan from this planner for the same goal. */
  function FindCachedPlan(plans: seq<P.Plan>, goal: string): (r: Option<P.Plan>)
    ensures r.Some? ==>
      exists i :: 0 <= i < |plans| && plans[i] == r.value
        && r.value.planner == "shortestPath" && r.value.goal == goal
        && forall k :: 0 <= k < i ==> !(plans[k].planner == "shortestPath" && plans[k].goal == goal)
    ensures r.None? ==> forall p :: p in plans ==> !(p.planner == "shortestPath" && p.goal == goal)
  {
    match SP.FindFirst(plans, (p: P.Plan) => p.planner == "shortestPath" && p.goal == goal)
    case None => None
    case Some(i) => Some(plans[i])
  }

  /**
   * `shortestPathPlanner`. The earlier plans are a parameter; `search` is
   * the model call plus graph search, consulted only on a cache miss.
   */
  method MakePlan(agent: A.Agent, input: StrategyInput, plans: seq<P.Plan>, costFunction: Option<Path -> SP.Cost>,
                  search: (Machine, string, ObservedState) -> seq<Path>, now: int)
    returns (r: Option<P.Plan>, searched: bool)
    ensures var cached := FindCachedPlan(plans, input.goal);
      && (searched <==> cached.None? && input.machine.Some?)
      && (r.None? <==> cached.None? && input.machine.None?)
    ensures r.Some? ==>
      var paths := SP.CandidatePaths(if FindCachedPlan(plans, input.goal).Some? then Some(FindCachedPlan(plans, input.goal).value.paths) else None,
                                     input.machine, input.goal, input.state, search).value;
      r.value == P.Plan("shortestPath", input.goal, SP.FirstState(paths),
                        SP.NextEvent(SP.TrimmedPaths(paths, input.state), SP.CostOf(costFunction)), paths, agent.episodeId, now)
  {
    var existing := FindCachedPlan(plans, input.goal);
    var cached := if existing.Some? then Some(existing.value.paths) else None;
    searched := existing.None? && input.machine.Some?;
    var paths := SP.CandidatePaths(cached, input.machine, input.goal, input.state, search);
    if paths.None? {
      return None, searched;
    }
    var next := SP.CheapestNextEvent(paths.value, input.state, SP.CostOf(costFunction));
    r := Some(P.Plan("shortestPath", input.goal, SP.FirstState(paths.value), next, paths.value, agent.episodeId, now));
  }
}
