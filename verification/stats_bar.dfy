/**
 * The stats bar: damage and healing of health (temporary points raise the
 * ceiling), loss and recovery of sanity and effort points, and the three
 * step amounts the "-"/"+" buttons apply.
 */
module StatsBar {
  import opened Types
  import Counters
  import CharacterSheet

  /** `adjustHealth(amount)`: the new current is clamped into [0, maximum + temporary]. */
  function AdjustHealth(h: Health, amount: int): (r: Health)
    ensures r.maximum == h.maximum && r.temporary == h.temporary
    ensures r.current == Counters.ClampToCeiling(h.current + amount, h.maximum + h.temporary)
  {
    h.(current := Counters.ClampToCeiling(h.current + amount, h.maximum + h.temporary))
  }

  /** `adjustSanity(amount)` and `adjustEffortPoints(amount)`: clamped into [0, maximum]. */
  function AdjustPool(p: Pool, amount: int): (r: Pool)
    ensures r.maximum == p.maximum
    ensures r.current == Counters.ClampToCeiling(p.current + amount, p.maximum)
  {
    p.(current := Counters.ClampToCeiling(p.current + amount, p.maximum))
  }

  /** Health within its bounds: between 0 and maximum plus temporary points. */
  predicate HealthInBounds(h: Health) {
    0 <= h.current <= h.maximum + h.temporary
  }

  predicate PoolInBounds(p: Pool) {
    0 <= p.current <= p.maximum
  }

  /**
   * Any adjustment of health whose ceiling is not negative leaves it within
   * bounds; an adjustment that stays within bounds is applied exactly.
   */
  lemma AdjustHealthBounds(h: Health, amount: int)
    requires h.maximum + h.temporary >= 0
    ensures HealthInBounds(AdjustHealth(h, amount))
    ensures HealthInBounds(h.(current := h.current + amount)) ==> AdjustHealth(h, amount).current == h.current + amount
  {
  }

  lemma AdjustPoolBounds(p: Pool, amount: int)
    requires p.maximum >= 0
    ensures PoolInBounds(AdjustPool(p, amount))
    ensures PoolInBounds(p.(current := p.current + amount)) ==> AdjustPool(p, amount).current == p.current + amount
  {
  }

  /**
   * From a state within bounds, the "-" button (a negative amount) never raises
   * health and the "+" button never lowers it; damage past 0 stops at 0 and
   * healing past the ceiling stops at the ceiling.
   */
  lemma DamageAndHealing(h: Health, step: int)
    requires HealthInBounds(h) && step >= 1
    ensures var d := AdjustHealth(h, -step).current;
      d <= h.current && (d == 0 || d == h.current - step)
    ensures var u := AdjustHealth(h, step).current;
      u >= h.current && (u == h.maximum + h.temporary || u == h.current + step)
  {
  }

  lemma LossAndRecovery(p: Pool, step: int)
    requires PoolInBounds(p) && step >= 1
    ensures var d := AdjustPool(p, -step).current;
      d <= p.current && (d == 0 || d == p.current - step)
    ensures var u := AdjustPool(p, step).current;
      u >= p.current && (u == p.maximum || u == p.current + step)
  {
  }

  /**
   * Healing may use temporary points to lift health above its maximum, but the
   * sheet's recomputation (which runs on every attribute edit) clamps health
   * to the maximum alone, so that headroom is lost again.
   */
  lemma TemporaryHeadroomLostOnRecompute(ch: CharacterData, step: int)
    requires ch.charClass != Unset && CharacterSheet.InSync(ch)
    requires ch.health.current == ch.health.maximum >= 0
    requires 1 <= step <= ch.health.temporary
    ensures var healed := ch.(health := AdjustHealth(ch.health, step));
      && healed.health.current == ch.health.maximum + step
      && CharacterSheet.Recompute(healed).health.current == ch.health.maximum
  {
  }

  /**
   * The three step amounts of the bar (damage, sanity loss, effort spend),
   * each changed by its own "-"/"+" pair.
   */
  class StepAmounts {
    var damageAmount: int
    var sanityLossAmount: int
    var effortSpendAmount: int

    /** Every step amount is at least 1: the "-" buttons never go below it. */
    ghost predicate Valid()
      reads this
    {
      damageAmount >= 1 && sanityLossAmount >= 1 && effortSpendAmount >= 1
    }

    constructor ()
      ensures Valid()
      ensures damageAmount == 1 && sanityLossAmount == 1 && effortSpendAmount == 1
    {
      damageAmount, sanityLossAmount, effortSpendAmount := 1, 1, 1;
    }

    method DecreaseDamage()
      requires Valid()
      modifies this
      ensures Valid()
      ensures damageAmount == Counters.StepDown(old(damageAmount))
      ensures sanityLossAmount == old(sanityLossAmount) && effortSpendAmount == old(effortSpendAmount)
    {
      damageAmount := Counters.StepDown(damageAmount);
    }

    method IncreaseDamage()
      requires Valid()
      modifies this
      ensures Valid()
      ensures damageAmount == old(damageAmount) + 1
      ensures sanityLossAmount == old(sanityLossAmount) && effortSpendAmount == old(effortSpendAmount)
    {
      damageAmount := damageAmount + 1;
    }

    method DecreaseSanityLoss()
      requires Valid()
      modifies this
      ensures Valid()
      ensures sanityLossAmount == Counters.StepDown(old(sanityLossAmount))
      ensures damageAmount == old(damageAmount) && effortSpendAmount == old(effortSpendAmount)
    {
      sanityLossAmount := Counters.StepDown(sanityLossAmount);
    }

    method IncreaseSanityLoss()
      requires Valid()
      modifies this
      ensures Valid()
      ensures sanityLossAmount == old(sanityLossAmount) + 1
      ensures damageAmount == old(damageAmount) && effortSpendAmount == old(effortSpendAmount)
    {
      sanityLossAmount := sanityLossAmount + 1;
    }

    method DecreaseEffortSpend()
      requires Valid()
      modifies this
      ensures Valid()
      ensures effortSpendAmount == Counters.StepDown(old(effortSpendAmount))
      ensures damageAmount == old(damageAmount) && sanityLossAmount == old(sanityLossAmount)
    {
      effortSpendAmount := Counters.StepDown(effortSpendAmount);
    }

    method IncreaseEffortSpend()
      requires Valid()
      modifies this
      ensures Valid()
      ensures effortSpendAmount == old(effortSpendAmount) + 1
      ensures damageAmount == old(damageAmount) && sanityLossAmount == old(sanityLossAmount)
    {
      effortSpendAmount := effortSpendAmount + 1;
    }
  }
}
