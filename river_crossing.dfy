/**
 * The river-crossing puzzle machine of examples/river-crossing.ts: items
 * move from the left bank to the right one with the farmer, who may also
 * cross alone; the machine is done once three items are on the right bank.
 */
module RiverCrossing {

  datatype Item = Wolf | Goat | Cabbage

  datatype Side = Left | Right

  /** The machine's context. */
  datatype Banks = Banks(leftBank: seq<Item>, rightBank: seq<Item>, farmerPosition: Side)

  datatype RiverEvent = Take(item: Item) | ReturnEmpty

  datatype Phase = Solving | Success

  datatype Config = Config(phase: Phase, banks: Banks)

  /** `bank.filter((x) => x !== item)` */
  function Without(bank: seq<Item>, item: Item): seq<Item>
  {
    if |bank| == 0 then []
    else (if bank[0] == item then [] else [bank[0]]) + Without(bank[1..], item)
  }

  /** The filter removes every copy of the item and keeps every other item as often as it was there. */
  lemma {:induction false} WithoutCounts(bank: seq<Item>, item: Item)
    ensures item !in Without(bank, item)
    ensures forall x :: x != item ==> multiset(Without(bank, item))[x] == multiset(bank)[x]
  {
    if |bank| > 0 {
      WithoutCounts(bank[1..], item);
      assert bank == [bank[0]] + bank[1..];
    }
  }

  /** The guard of a take: the item is on the left bank and so is the farmer; crossing alone has no guard. */
  predicate Enabled(b: Banks, e: RiverEvent)
  {
    match e
    case Take(item) => item in b.leftBank && b.farmerPosition == Left
    case ReturnEmpty => true
  }

  /** The action of an enabled event. */
  function Act(b: Banks, e: RiverEvent): (r: Banks)
    ensures e.Take? ==> r == Banks(Without(b.leftBank, e.item), b.rightBank + [e.item], Right)
    ensures e.ReturnEmpty? ==> r == b.(farmerPosition := if b.farmerPosition == Left then Right else Left)
  {
    match e
    case Take(item) => Banks(Without(b.leftBank, item), b.rightBank + [item], Right)
    case ReturnEmpty => b.(farmerPosition := if b.farmerPosition == Left then Right else Left)
  }

  /** The three items, each once. */
  function All(): multiset<Item>
  {
    multiset{Wolf, Goat, Cabbage}
  }

  /** Every item is on exactly one bank, once. */
  predicate Conserved(b: Banks)
  {
    multiset(b.leftBank) + multiset(b.rightBank) == All()
  }

  /** An enabled event keeps every item on exactly one bank. */
  lemma ActConserves(b: Banks, e: RiverEvent)
    requires Conserved(b) && Enabled(b, e)
    ensures Conserved(Act(b, e))
  {
    if e.Take? {
      var r := Act(b, e);
      var item := e.item;
      WithoutCounts(b.leftBank, item);
      assert multiset(b.leftBank)[item] == 1 by {
        assert item in multiset(b.leftBank);
        assert All()[item] == 1;
      }
      assert multiset(r.rightBank) == multiset(b.rightBank) + multiset{item};
      forall x
        ensures (multiset(r.leftBank) + multiset(r.rightBank))[x] == All()[x]
      {
        if x == item {
          assert item !in multiset(r.leftBank);
        }
      }
      assert multiset(r.leftBank) + multiset(r.rightBank) == All();
    }
  }

  /** With two copies of an item on the left, a take would lose one: the filter removes both. */
  lemma DuplicatesWouldShrink()
    ensures Act(Banks([Wolf, Wolf], [], Left), Take(Wolf)) == Banks([], [Wolf], Right)
  {
    assert Without([Wolf, Wolf], Wolf) == [];
  }

  /** The initial configuration: all three items and the farmer on the left. */
  function Initial(): (c: Config)
    ensures c.phase == Solving && Conserved(c.banks)
  {
    Config(Solving, Banks([Wolf, Goat, Cabbage], [], Left))
  }

  /** One event: a disabled event is ignored; after an action, three items on the right bank end the puzzle. */
  function Step(c: Config, e: RiverEvent): (r: Config)
    ensures c.phase == Success || !Enabled(c.banks, e) ==> r == c
    ensures c.phase == Solving && Enabled(c.banks, e) ==>
      r.banks == Act(c.banks, e) && (r.phase == Success <==> |Act(c.banks, e).rightBank| == 3)
  {
    if c.phase == Success || !Enabled(c.banks, e) then c
    else
      var b := Act(c.banks, e);
      Config(if |b.rightBank| == 3 then Success else Solving, b)
  }

  function Run(c: Config, es: seq<RiverEvent>): Config
    decreases |es|
  {
    if |es| == 0 then c else Run(Step(c, es[0]), es[1..])
  }

  /** Every run from a conserved configuration keeps every item on exactly one bank. */
  lemma {:induction false} RunConserves(c: Config, es: seq<RiverEvent>)
    requires Conserved(c.banks)
    ensures Conserved(Run(c, es).banks)
    decreases |es|
  {
    if |es| > 0 {
      if c.phase == Solving && Enabled(c.banks, es[0]) {
        ActConserves(c.banks, es[0]);
      }
      RunConserves(Step(c, es[0]), es[1..]);
    }
  }

  /** While items are conserved, three on the right bank means none is left on the left bank. */
  lemma SuccessMeansLeftEmpty(b: Banks)
    requires Conserved(b) && |b.rightBank| == 3
    ensures b.leftBank == []
  {
    assert |multiset(b.leftBank) + multiset(b.rightBank)| == 3;
    assert |multiset(b.rightBank)| == 3;
  }

  lemma WitnessFilters()
    ensures Without([Wolf, Goat, Cabbage], Goat) == [Wolf, Cabbage]
    ensures Without([Wolf, Cabbage], Wolf) == [Cabbage]
    ensures Without([Cabbage], Cabbage) == []
  {
    assert Without([Cabbage], Goat) == [Cabbage];
    assert [Wolf, Goat, Cabbage][1..] == [Goat, Cabbage];
    assert [Goat, Cabbage][1..] == [Cabbage];
    assert Without([Goat, Cabbage], Goat) == [Cabbage];
    assert [Wolf, Cabbage][1..] == [Cabbage];
  }

  lemma TakeGoatFirst()
    ensures Step(Initial(), Take(Goat)) == Config(Solving, Banks([Wolf, Cabbage], [Goat], Right))
  {
    WitnessFilters();
    assert Initial().banks.leftBank[1] == Goat;
  }

  lemma TakeWolfSecond()
    ensures Step(Config(Solving, Banks([Wolf, Cabbage], [Goat], Left)), Take(Wolf))
         == Config(Solving, Banks([Cabbage], [Goat, Wolf], Right))
  {
    WitnessFilters();
    assert [Goat] + [Wolf] == [Goat, Wolf];
  }

  lemma TakeCabbageLast()
    ensures Step(Config(Solving, Banks([Cabbage], [Goat, Wolf], Left)), Take(Cabbage))
         == Config(Success, Banks([], [Goat, Wolf, Cabbage], Right))
  {
    WitnessFilters();
    assert [Goat, Wolf] + [Cabbage] == [Goat, Wolf, Cabbage];
  }

  /** Running a non-empty list of events is one step followed by the rest. */
  lemma RunCons(c: Config, e: RiverEvent, rest: seq<RiverEvent>)
    ensures Run(c, [e] + rest) == Run(Step(c, e), rest)
  {
    assert ([e] + rest)[1..] == rest;
  }

  /** Crossing back alone only moves the farmer. */
  lemma ReturnAlone(l: seq<Item>, r: seq<Item>)
    requires |r| < 3
    ensures Step(Config(Solving, Banks(l, r, Right)), ReturnEmpty) == Config(Solving, Banks(l, r, Left))
  {
  }

  /** The machine checks no "left alone together" rule, so five moves finish it. */
  lemma FiveMovesSolve(es: seq<RiverEvent>)
    requires es == [Take(Goat), ReturnEmpty, Take(Wolf), ReturnEmpty, Take(Cabbage)]
    ensures Run(Initial(), es).phase == Success
  {
    var c1 := Config(Solving, Banks([Wolf, Cabbage], [Goat], Right));
    var c2 := Config(Solving, Banks([Wolf, Cabbage], [Goat], Left));
    var c3 := Config(Solving, Banks([Cabbage], [Goat, Wolf], Right));
    var c4 := Config(Solving, Banks([Cabbage], [Goat, Wolf], Left));
    var c5 := Config(Success, Banks([], [Goat, Wolf, Cabbage], Right));
    var e4: seq<RiverEvent> := [Take(Cabbage)];
    var e3 := [ReturnEmpty] + e4;
    var e2 := [Take(Wolf)] + e3;
    var e1 := [ReturnEmpty] + e2;
    assert es == [Take(Goat)] + e1;
    assert Run(Initial(), es) == Run(c1, e1) by {
      RunCons(Initial(), Take(Goat), e1);
      TakeGoatFirst();
    }
    assert Run(c1, e1) == Run(c2, e2) by {
      RunCons(c1, ReturnEmpty, e2);
      ReturnAlone([Wolf, Cabbage], [Goat]);
    }
    assert Run(c2, e2) == Run(c3, e3) by {
      RunCons(c2, Take(Wolf), e3);
      TakeWolfSecond();
    }
    assert Run(c3, e3) == Run(c4, e4) by {
      RunCons(c3, ReturnEmpty, e4);
      ReturnAlone([Cabbage], [Goat, Wolf]);
    }
    assert Run(c4, e4) == c5 by {
      assert e4 == [Take(Cabbage)] + [];
      RunCons(c4, Take(Cabbage), []);
      TakeCabbageLast();
    }
  }
}
