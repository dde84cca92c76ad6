/**
 * The water-jug puzzle machine of examples/jugs.ts: a 3-gallon and a
 * 5-gallon jug, six actions on them, and a final state reached as soon as
 * the 5-gallon jug holds 4 gallons.
 */
module Jugs {

  /** The machine's context: gallons in each jug. */
  datatype Jugs = Jugs(jug3: int, jug5: int)

  datatype JugEvent = Fill3 | Fill5 | Empty3 | Empty5 | Pour3To5 | Pour5To3

  datatype Phase = Solving | Success

  datatype Config = Config(phase: Phase, jugs: Jugs)

  /** `Math.min` */
  function Min(a: int, b: int): (r: int)
    ensures r <= a && r <= b && (r == a || r == b)
  {
    if a <= b then a else b
  }

  /** The action each event runs in `solving`. */
  function Act(j: Jugs, e: JugEvent): (r: Jugs)
    ensures e == Fill3 ==> r == j.(jug3 := 3)
    ensures e == Fill5 ==> r == j.(jug5 := 5)
    ensures e == Empty3 ==> r == j.(jug3 := 0)
    ensures e == Empty5 ==> r == j.(jug5 := 0)
    ensures e == Pour3To5 ==> r.jug5 == Min(5, j.jug3 + j.jug5)
    ensures e == Pour5To3 ==> r.jug3 == Min(3, j.jug3 + j.jug5)
  {
    match e
    case Fill3 => j.(jug3 := 3)
    case Fill5 => j.(jug5 := 5)
    case Empty3 => j.(jug3 := 0)
    case Empty5 => j.(jug5 := 0)
    case Pour3To5 =>
      var total := j.jug3 + j.jug5;
      var newJug5 := Min(5, total);
      Jugs(total - newJug5, newJug5)
    case Pour5To3 =>
      var total := j.jug3 + j.jug5;
      var newJug3 := Min(3, total);
      Jugs(newJug3, total - newJug3)
  }

  /** Pouring moves water between the jugs and loses none. */
  lemma PourConserves(j: Jugs, e: JugEvent)
    requires e == Pour3To5 || e == Pour5To3
    ensures Act(j, e).jug3 + Act(j, e).jug5 == j.jug3 + j.jug5
  {
  }

  /** Each jug holds between nothing and its capacity. */
  predicate InBounds(j: Jugs)
  {
    0 <= j.jug3 <= 3 && 0 <= j.jug5 <= 5
  }

  /** Every action keeps the jugs within their capacities. */
  lemma ActInBounds(j: Jugs, e: JugEvent)
    requires InBounds(j)
    ensures InBounds(Act(j, e))
  {
  }

  /** The initial configuration: `solving` with both jugs empty. */
  function Initial(): (c: Config)
    ensures c.phase == Solving && InBounds(c.jugs)
  {
    Config(Solving, Jugs(0, 0))
  }

  /** One event: in `solving` run the action, then take the eventless transition to `success` when the 5-gallon jug holds 4; `success` is final. */
  function Step(c: Config, e: JugEvent): (r: Config)
    ensures c.phase == Success ==> r == c
    ensures c.phase == Solving ==> r.jugs == Act(c.jugs, e) && (r.phase == Success <==> Act(c.jugs, e).jug5 == 4)
  {
    match c.phase
    case Success => c
    case Solving =>
      var j := Act(c.jugs, e);
      Config(if j.jug5 == 4 then Success else Solving, j)
  }

  /** The configuration after a sequence of events. */
  function Run(c: Config, es: seq<JugEvent>): Config
    decreases |es|
  {
    if |es| == 0 then c else Run(Step(c, es[0]), es[1..])
  }

  /** Starting within bounds, any run stays within bounds. */
  lemma {:induction false} RunInBounds(c: Config, es: seq<JugEvent>)
    requires InBounds(c.jugs)
    ensures InBounds(Run(c, es).jugs)
    decreases |es|
  {
    if |es| > 0 {
      if c.phase == Solving {
        ActInBounds(c.jugs, es[0]);
      }
      RunInBounds(Step(c, es[0]), es[1..]);
    }
  }

  /** A run reaches `success` only with exactly 4 gallons in the 5-gallon jug, and stays there. */
  lemma {:induction false} SuccessHoldsFour(c: Config, es: seq<JugEvent>)
    requires c.phase == Success ==> c.jugs.jug5 == 4
    ensures Run(c, es).phase == Success ==> Run(c, es).jugs.jug5 == 4
    ensures c.phase == Success ==> Run(c, es) == c
    decreases |es|
  {
    if |es| > 0 {
      SuccessHoldsFour(Step(c, es[0]), es[1..]);
    }
  }

  /** The run that solves the puzzle in six moves. */
  lemma SixMovesSolve()
    ensures Run(Initial(), [Fill5, Pour5To3, Empty3, Pour5To3, Fill5, Pour5To3]) == Config(Success, Jugs(3, 4))
  {
    var es := [Fill5, Pour5To3, Empty3, Pour5To3, Fill5, Pour5To3];
    assert Step(Initial(), Fill5) == Config(Solving, Jugs(0, 5));
    assert Run(Initial(), es) == Run(Config(Solving, Jugs(0, 5)), es[1..]);
    assert es[1..][1..][1..][1..][1..][1..] == [];
  }
}
