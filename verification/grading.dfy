/**
 * `getSuccessLevel`: the success tier of a single d20 result. The skills panel
 * and the free dice roller each define the same function with the same
 * thresholds; it is defined once here.
 */
module Grading {

  datatype Tier = Falha | Basico | Garantido | Alto | Extremo

  /** Position of a tier in the order Falha < Básico < Garantido < Alto < Extremo. */
  function Rank(t: Tier): nat {
    match t
    case Falha => 0
    case Basico => 1
    case Garantido => 2
    case Alto => 3
    case Extremo => 4
  }

  /** The lowest result that reaches a tier (Falha is reached by every result). */
  predicate Reaches(value: int, t: Tier) {
    match t
    case Falha => true
    case Basico => value >= 12
    case Garantido => value >= 15
    case Alto => value >= 18
    case Extremo => value >= 20
  }

  /** Thresholds checked highest first, as the source's chain of `if`s does. */
  function Grade(value: int): (t: Tier)
    ensures Reaches(value, t)
    ensures forall u :: Reaches(value, u) ==> Rank(u) <= Rank(t)
  {
    if value >= 20 then Extremo
    else if value >= 18 then Alto
    else if value >= 15 then Garantido
    else if value >= 12 then Basico
    else Falha
  }

  /** The label shown for each tier. */
  function TierText(t: Tier): string {
    match t
    case Extremo => "Extremo!"
    case Alto => "Alto"
    case Garantido => "Garantido"
    case Basico => "Básico"
    case Falha => "Falha"
  }

  /** The labels of different tiers differ, so the text shown names the tier. */
  lemma TierTextDistinct(a: Tier, b: Tier)
    ensures TierText(a) == TierText(b) <==> a == b
  {
  }

  /** The label shown for a result: "Extremo!" from 20 up, "Falha" below 12. */
  lemma TierTextOfResult(value: int)
    ensures TierText(Grade(value)) == "Extremo!" <==> value >= 20
    ensures TierText(Grade(value)) == "Falha" <==> value < 12
  {
    TierTextDistinct(Grade(value), Extremo);
    TierTextDistinct(Grade(value), Falha);
  }

  /** A higher result never gets a lower tier. */
  lemma GradeMonotone(a: int, b: int)
    requires a <= b
    ensures Rank(Grade(a)) <= Rank(Grade(b))
  {
    assert Reaches(b, Grade(a));
  }

  /** The boundary results always go to the higher tier. */
  lemma GradeBoundaries()
    ensures Grade(11) == Falha && Grade(12) == Basico && Grade(14) == Basico
    ensures Grade(15) == Garantido && Grade(17) == Garantido
    ensures Grade(18) == Alto && Grade(19) == Alto && Grade(20) == Extremo
  {
  }
}
