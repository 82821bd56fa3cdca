/**
 * The free dice roller: a die size from a fixed set, a quantity stepper, and
 * a history of the 10 most recent results, newest first.
 */
module DiceRoller {
  import Counters
  import Grading
  import opened Types

  /** `type DiceType = 4 | 6 | 8 | 10 | 12 | 20` */
  type DiceType = s: int | s == 4 || s == 6 || s == 8 || s == 10 || s == 12 || s == 20 witness 4

  /** The die buttons, in display order. */
  const DieSizes: seq<DiceType> := [4, 6, 8, 10, 12, 20]

  /** The buttons offer every die size, each once, and nothing else. */
  lemma DieSizesExactlyDiceTypes(s: int)
    ensures s in DieSizes <==> (s == 4 || s == 6 || s == 8 || s == 10 || s == 12 || s == 20)
    ensures forall i, j :: 0 <= i < j < |DieSizes| ==> DieSizes[i] < DieSizes[j]
  {
  }

  const HistoryLimit: nat := 10

  datatype RollRecord = RollRecord(sides: DiceType, value: int, timestamp: int)

  /** The `quantity` results of one roll, value `i` taken from `draws[i]`, stamped `now + i`. */
  function Batch(sides: DiceType, draws: seq<int>, now: int, quantity: nat): (b: seq<RollRecord>)
    requires quantity <= |draws|
    ensures |b| == quantity
    ensures forall i :: 0 <= i < quantity ==> b[i].sides == sides && b[i].value == draws[i] && b[i].timestamp == now + i
  {
    seq(quantity, i requires 0 <= i < quantity => RollRecord(sides, draws[i], now + i))
  }

  /** `.slice(0, 10)` */
  function KeepRecent(xs: seq<RollRecord>): (r: seq<RollRecord>)
    ensures |r| == Counters.Min(|xs|, HistoryLimit)
    ensures r == xs[..|r|]
  {
    if |xs| <= HistoryLimit then xs else xs[..HistoryLimit]
  }

  /**
   * A batch of at most 10 is kept whole at the front of the history, and the
   * old entries that still fit follow it in their previous order.
   */
  lemma NewestFirst(batch: seq<RollRecord>, history: seq<RollRecord>)
    requires |batch| <= HistoryLimit
    ensures var h := KeepRecent(batch + history);
      && |h| == |batch| + Counters.Min(|history|, HistoryLimit - |batch|)
      && h[..|batch|] == batch
      && h[|batch|..] == history[..|h| - |batch|]
  {
    var h := KeepRecent(batch + history);
    assert h == (batch + history)[..|h|];
  }

  /** The loop that pushes one result per die. */
  method RollBatch(sides: DiceType, quantity: nat, draws: seq<int>, now: int) returns (newResults: seq<RollRecord>)
    requires quantity <= |draws|
    requires forall i :: 0 <= i < quantity ==> 1 <= draws[i] <= sides
    ensures newResults == Batch(sides, draws, now, quantity)
    ensures forall i :: 0 <= i < |newResults| ==> 1 <= newResults[i].value <= sides
  {
    newResults := [];
    for i := 0 to quantity
      invariant newResults == Batch(sides, draws, now, i)
    {
      newResults := newResults + [RollRecord(sides, draws[i], now + i)];
    }
  }

  /** Success grading is shown for d20 results only. */
  function SuccessLabel(r: RollRecord): (t: Option<Grading.Tier>)
    ensures t.Some? <==> r.sides == 20
    ensures t.Some? ==> t.value == Grading.Grade(r.value)
  {
    if r.sides == 20 then Some(Grading.Grade(r.value)) else None
  }

  class Roller {
    var results: seq<RollRecord>
    var quantity: int
    var showResults: bool

    /** The history never holds more than 10 entries and at least one die is rolled. */
    ghost predicate Valid()
      reads this
    {
      |results| <= HistoryLimit && quantity >= 1
    }

    constructor ()
      ensures Valid()
      ensures results == [] && quantity == 1 && !showResults
    {
      results, quantity, showResults := [], 1, false;
    }

    /** `rollDice(sides)`: prepend this roll's results and keep the first 10. */
    method RollDice(sides: DiceType, draws: seq<int>, now: int)
      requires Valid()
      requires quantity <= |draws|
      requires forall i :: 0 <= i < quantity ==> 1 <= draws[i] <= sides
      modifies this
      ensures Valid()
      ensures quantity == old(quantity) && showResults
      ensures results == KeepRecent(Batch(sides, draws, now, quantity) + old(results))
    {
      var newResults := RollBatch(sides, quantity, draws, now);
      results := KeepRecent(newResults + results);
      showResults := true;
    }

    /** The quantity "-" button. */
    method DecreaseQuantity()
      requires Valid()
      modifies this
      ensures Valid()
      ensures quantity == Counters.StepDown(old(quantity))
      ensures results == old(results) && showResults == old(showResults)
    {
      quantity := Counters.StepDown(quantity);
    }

    /** The quantity "+" button. */
    method IncreaseQuantity()
      requires Valid()
      modifies this
      ensures Valid()
      ensures quantity == old(quantity) + 1
      ensures results == old(results) && showResults == old(showResults)
    {
      quantity := quantity + 1;
    }
  }
}
