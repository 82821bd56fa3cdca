/**
 * The sanity panel: direct edits of current and maximum sanity, and the
 * sanity test, a single d20 read the other way round from a skill check (a
 * low result is good).
 */
module SanitySection {
  import opened Types
  import Grading

  datatype SanityOutcome = FalhaCritica | SucessoCritico | PossivelFalha | PossivelSucesso

  /** The result line of the sanity test, checked in the source's order: 20, then 1, then above 15. */
  function ClassifySanity(roll: int): SanityOutcome {
    if roll == 20 then FalhaCritica
    else if roll == 1 then SucessoCritico
    else if roll > 15 then PossivelFalha
    else PossivelSucesso
  }

  /** Severity of an outcome, from best (0) to worst (3). */
  function Severity(o: SanityOutcome): nat {
    match o
    case SucessoCritico => 0
    case PossivelSucesso => 1
    case PossivelFalha => 2
    case FalhaCritica => 3
  }

  /** On a d20, each outcome covers one band of results: 1, 2..15, 16..19 and 20. */
  lemma SanityBands(roll: int)
    requires 1 <= roll <= 20
    ensures ClassifySanity(roll) == SucessoCritico <==> roll == 1
    ensures ClassifySanity(roll) == PossivelSucesso <==> 2 <= roll <= 15
    ensures ClassifySanity(roll) == PossivelFalha <==> 16 <= roll <= 19
    ensures ClassifySanity(roll) == FalhaCritica <==> roll == 20
  {
  }

  /** A higher d20 result is never a better sanity outcome. */
  lemma SanityMonotone(a: int, b: int)
    requires 1 <= a <= b <= 20
    ensures Severity(ClassifySanity(a)) <= Severity(ClassifySanity(b))
  {
  }

  /**
   * The sanity test reads the die the other way round from the success tiers:
   * the natural 20 that is an Extremo success elsewhere is a critical failure
   * here, and every result from 16 up, which reaches Garantido or better, is at
   * best a possible failure.
   */
  lemma SanityOppositeOfSuccess(roll: int)
    requires 1 <= roll <= 20
    ensures Grading.Grade(roll) == Grading.Extremo <==> ClassifySanity(roll) == FalhaCritica
    ensures roll > 15 ==> Grading.Rank(Grading.Grade(roll)) >= 2 && Severity(ClassifySanity(roll)) >= 2
  {
  }

  /** The "Atual" input: `Number.parseInt(text) || 0`, not clamped to the maximum. */
  function SetSanityCurrent(sanity: Pool, parsed: Option<int>): (r: Pool)
    ensures r.maximum == sanity.maximum
    ensures parsed.Some? ==> r.current == parsed.value
    ensures parsed.None? ==> r.current == 0
  {
    sanity.(current := OrElse(parsed, 0))
  }

  /** The "Máxima" input: `Number.parseInt(text) || 0`; the current value is left as it is. */
  function SetSanityMaximum(sanity: Pool, parsed: Option<int>): (r: Pool)
    ensures r.current == sanity.current
    ensures parsed.Some? ==> r.maximum == parsed.value
    ensures parsed.None? ==> r.maximum == 0
  {
    sanity.(maximum := OrElse(parsed, 0))
  }

  /** The direct edit is not bounded: it can store a current above the maximum. */
  lemma CurrentEditUnbounded(sanity: Pool)
    ensures SetSanityCurrent(sanity, Some(sanity.maximum + 1)).current > sanity.maximum
  {
  }

  class SanityPanel {
    var diceResult: Option<int>

    constructor ()
      ensures diceResult == None
    {
      diceResult := None;
    }

    /** `rollSanityCheck`: the d20 result comes from `draw`. */
    method RollSanityCheck(draw: int)
      requires 1 <= draw <= 20
      modifies this
      ensures diceResult == Some(draw)
    {
      diceResult := Some(draw);
    }

    /** The result line shown once a test has been rolled. */
    function ShownOutcome(): (o: Option<SanityOutcome>)
      reads this
      ensures o.Some? <==> diceResult.Some?
      ensures o.Some? ==> o.value == ClassifySanity(diceResult.value)
    {
      if diceResult.Some? then Some(ClassifySanity(diceResult.value)) else None
    }
  }
}
