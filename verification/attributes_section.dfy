/**
 * The attributes panel: the five attribute inputs (each clamped into 1..10),
 * the dice label under each, and the saving-throw checkboxes.
 */
module AttributesSection {
  import opened Types
  import opened Text
  import Counters
  import SkillsSection
  import WeaponsSection

  /** `Math.min(10, Math.max(1, Number.parseInt(text) || 1))` */
  function ClampAttributeInput(parsed: Option<int>): (v: int)
    ensures 1 <= v <= 10
    ensures parsed.Some? && 1 <= parsed.value <= 10 ==> v == parsed.value
    ensures parsed.Some? && parsed.value > 10 ==> v == 10
    ensures parsed.None? || parsed.value < 1 ==> v == 1
  {
    Counters.Min(10, Counters.Max(1, OrElse(parsed, 1)))
  }

  /** Attribute values an input can produce. */
  predicate InRange(attributes: Attributes) {
    forall a: Attribute :: 1 <= attributes.Get(a) <= 10
  }

  /** Typing into one attribute's input: only that attribute changes, to the clamped value. */
  function WriteAttribute(attributes: Attributes, a: Attribute, parsed: Option<int>): (r: Attributes)
    ensures r.Get(a) == ClampAttributeInput(parsed)
    ensures forall b :: b != a ==> r.Get(b) == attributes.Get(b)
  {
    attributes.Set(a, ClampAttributeInput(parsed))
  }

  /** Whatever is typed, attributes that were within 1..10 stay within 1..10. */
  lemma WriteKeepsRange(attributes: Attributes, a: Attribute, parsed: Option<int>)
    requires InRange(attributes)
    ensures InRange(WriteAttribute(attributes, a, parsed))
  {
    var r := WriteAttribute(attributes, a, parsed);
    forall b: Attribute ensures 1 <= r.Get(b) <= 10 {
      if b != a {
        assert r.Get(b) == attributes.Get(b);
      }
    }
  }

  /** The label under an input: `${value}d20`, or `1d20` for a value that is not positive. */
  function DiceLabel(value: int): string {
    if value > 0 then Decimal(value) + "d20" else "1d20"
  }

  /**
   * The label is dice notation that names exactly the pool a skill check on
   * that attribute rolls: as many d20s as `Math.max(1, value)`.
   */
  lemma DiceLabelNamesSkillPool(value: int)
    ensures WeaponsSection.ParseNotation(DiceLabel(value))
      == Some(WeaponsSection.DiceFormula(SkillsSection.DiceCount(value), 20, None))
  {
    var f := WeaponsSection.DiceFormula(SkillsSection.DiceCount(value), 20, None);
    assert Decimal(20) == "20";
    if value > 0 {
      assert WeaponsSection.Render(f) + "" == DiceLabel(value);
    } else {
      assert Decimal(1) == "1";
      assert WeaponsSection.Render(f) + "" == DiceLabel(value);
    }
    WeaponsSection.ParseRender(f, "");
  }

  /** A saving-throw checkbox: only that attribute's flag changes, to `checked === true`. */
  function ToggleSavingThrow(savingThrows: SavingThrows, a: Attribute, checked: bool): (r: SavingThrows)
    ensures r.Get(a) == checked
    ensures forall b :: b != a ==> r.Get(b) == savingThrows.Get(b)
  {
    savingThrows.Set(a, checked)
  }
}
