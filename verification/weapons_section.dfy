/**
 * The weapons list: adding a weapon from the form, removing one, the clamped
 * ammunition counter, and the damage roll that reads dice notation
 * (`NdM` or `NdM+B`) out of a weapon's free-text damage field.
 */
module WeaponsSection {
  import opened Types
  import opened Text
  import Counters
  import Lists

  /** The three captures of `(\d+)d(\d+)(?:\+(\d+))?`; the bonus group may not take part. */
  datatype DiceFormula = DiceFormula(count: nat, sides: nat, bonus: Option<nat>)

  /** The optional `(?:\+(\d+))?` group at the start of `t`: a `+` and at least one digit. */
  function BonusPrefix(t: string): (r: Option<nat>)
  {
    if t != [] && t[0] == '+' && LeadingDigits(t[1..]) > 0
    then Some(DecimalValue(t[1..][..LeadingDigits(t[1..])]))
    else None
  }

  /**
   * The notation matched when the regular expression is tried at the start of
   * `t` alone. Both `\d+` groups are greedy and whatever follows each run is
   * not a digit, so a shorter run can never be followed by the `d` (or the
   * match end) either: backtracking never changes the outcome.
   */
  function MatchPrefix(t: string): (r: Option<DiceFormula>)
  {
    var a := LeadingDigits(t);
    if a == 0 || a == |t| || t[a] != 'd' then None
    else
      var u := t[a + 1..];
      var b := LeadingDigits(u);
      if b == 0 then None
      else Some(DiceFormula(DecimalValue(t[..a]), DecimalValue(u[..b]), BonusPrefix(u[b..])))
  }

  /** The match the regular expression finds when tried at index `i`. */
  function MatchAt(s: string, i: nat): Option<DiceFormula>
    requires i <= |s|
  {
    MatchPrefix(s[i..])
  }

  /** The leftmost match at index `i` or later. */
  function Scan(s: string, i: nat): (r: Option<DiceFormula>)
    requires i <= |s|
    ensures r.Some? ==> exists k :: i <= k <= |s| && MatchAt(s, k) == r && forall j :: i <= j < k ==> MatchAt(s, j).None?
    ensures r.None? ==> forall k :: i <= k <= |s| ==> MatchAt(s, k).None?
    decreases |s| - i
  {
    if MatchAt(s, i).Some? then MatchAt(s, i)
    else if i == |s| then None
    else Scan(s, i + 1)
  }

  /** `damageFormula.match(/(\d+)d(\d+)(?:\+(\d+))?/)`: the match starting leftmost, if any. */
  function ParseNotation(s: string): (r: Option<DiceFormula>)
    ensures r.Some? ==> exists k :: 0 <= k <= |s| && MatchAt(s, k) == r && forall j :: 0 <= j < k ==> MatchAt(s, j).None?
    ensures r.None? ==> forall k :: 0 <= k <= |s| ==> MatchAt(s, k).None?
  {
    Scan(s, 0)
  }

  /** The text of the optional bonus group. */
  function BonusText(bonus: Option<nat>): string {
    if bonus.Some? then "+" + Decimal(bonus.value) else ""
  }

  /** The canonical notation of a formula: `NdM`, or `NdM+B` when there is a bonus. */
  function Render(f: DiceFormula): string {
    Decimal(f.count) + "d" + Decimal(f.sides) + BonusText(f.bonus)
  }

  /** A `+` followed by a run of digits that ends there: the bonus group takes the whole run. */
  lemma BonusPrefixDigits(ds: string, post: string)
    requires ds != [] && AllDigits(ds)
    requires post == [] || !IsDigit(post[0])
    ensures BonusPrefix(['+'] + (ds + post)) == Some(DecimalValue(ds))
  {
    var t := ['+'] + (ds + post);
    assert t[1..] == ds + post;
    LeadingDigitsOf(ds, post);
    assert t[1..][..|ds|] == ds;
  }

  /** The bonus group reads back the bonus it was rendered from, and what follows a bonus is no digit. */
  lemma BonusPrefixText(bonus: Option<nat>, post: string)
    requires post == [] || !IsDigit(post[0])
    requires bonus.None? ==> post == [] || post[0] != '+'
    ensures BonusPrefix(BonusText(bonus) + post) == bonus
    ensures var t := BonusText(bonus) + post; t == [] || !IsDigit(t[0])
  {
    if bonus.Some? {
      var ds := Decimal(bonus.value);
      assert BonusText(bonus) + post == ['+'] + (ds + post);
      BonusPrefixDigits(ds, post);
    }
  }

  /** A greedy `\d+` at the start of `digits + rest` takes exactly `digits` and leaves `rest`. */
  lemma SplitDigits(digits: string, rest: string)
    requires AllDigits(digits)
    requires rest == [] || !IsDigit(rest[0])
    ensures LeadingDigits(digits + rest) == |digits|
    ensures (digits + rest)[..|digits|] == digits && (digits + rest)[|digits|..] == rest
  {
    LeadingDigitsOf(digits, rest);
  }

  /** The match at the start of `t` once both digit runs and the `d` between them are located. */
  lemma MatchPrefixParts(t: string, n: nat, m: nat)
    requires 0 < n < |t| && LeadingDigits(t) == n && t[n] == 'd'
    requires 0 < m && LeadingDigits(t[n + 1..]) == m
    ensures MatchPrefix(t)
      == Some(DiceFormula(DecimalValue(t[..n]), DecimalValue(t[n + 1..][..m]), BonusPrefix(t[n + 1..][m..])))
  {
  }

  /** Count digits followed by `d`: the first run ends at the `d`. */
  lemma CountThenD(cs: string, u: string)
    requires cs != [] && AllDigits(cs)
    ensures var t := cs + (['d'] + u);
      && LeadingDigits(t) == |cs| < |t| && t[|cs|] == 'd'
      && t[..|cs|] == cs && t[|cs| + 1..] == u
  {
    SplitDigits(cs, ['d'] + u);
  }

  /** Count digits, `d`, sides digits, then text that does not start with a digit: the match reads both runs. */
  lemma MatchPrefixLayout(cs: string, ss: string, rest: string)
    requires cs != [] && AllDigits(cs) && ss != [] && AllDigits(ss)
    requires rest == [] || !IsDigit(rest[0])
    ensures MatchPrefix(cs + (['d'] + (ss + rest)))
      == Some(DiceFormula(DecimalValue(cs), DecimalValue(ss), BonusPrefix(rest)))
  {
    CountThenD(cs, ss + rest);
    SplitDigits(ss, rest);
    MatchPrefixParts(cs + (['d'] + (ss + rest)), |cs|, |ss|);
  }

  /** The notation of a formula matches at its first character. */
  lemma MatchPrefixRender(f: DiceFormula, post: string)
    requires post == [] || !IsDigit(post[0])
    requires f.bonus.None? ==> post == [] || post[0] != '+'
    ensures MatchPrefix(Render(f) + post) == Some(f)
  {
    var cs, ss, rest := Decimal(f.count), Decimal(f.sides), BonusText(f.bonus) + post;
    assert Render(f) + post == cs + (['d'] + (ss + rest));
    BonusPrefixText(f.bonus, post);
    MatchPrefixLayout(cs, ss, rest);
  }

  /**
   * Every formula is read back from its notation, also when the notation is
   * followed by text that does not extend it (a space, a damage type, `-1`).
   */
  lemma ParseRender(f: DiceFormula, post: string)
    requires post == [] || !IsDigit(post[0])
    requires f.bonus.None? ==> post == [] || post[0] != '+'
    ensures ParseNotation(Render(f) + post) == Some(f)
  {
    MatchPrefixRender(f, post);
    assert (Render(f) + post)[0..] == Render(f) + post;
  }

  /** The example of the source's comment, with its bonus. */
  lemma NotationWithBonus()
    ensures ParseNotation("2d6+3") == Some(DiceFormula(2, 6, Some(3)))
  {
    assert Decimal(2) == "2" && Decimal(6) == "6" && Decimal(3) == "3";
    assert Render(DiceFormula(2, 6, Some(3))) + "" == "2d6+3";
    ParseRender(DiceFormula(2, 6, Some(3)), "");
  }

  /** A `-` is not part of the syntax: the roll ignores a negative modifier. */
  lemma NotationNegativeModifierIgnored()
    ensures ParseNotation("2d6-1") == Some(DiceFormula(2, 6, None))
  {
    assert Decimal(2) == "2" && Decimal(6) == "6";
    assert Render(DiceFormula(2, 6, None)) + "-1" == "2d6-1";
    ParseRender(DiceFormula(2, 6, None), "-1");
  }

  /** Text without notation gives no roll. */
  lemma NotationMissing()
    ensures ParseNotation("d6") == None
  {
    assert MatchAt("d6", 0) == None;
    assert MatchAt("d6", 1) == None by {
      assert "d6"[1..] == "6";
    }
    assert MatchAt("d6", 2) == None by {
      assert "d6"[2..] == "";
    }
  }

  /** The sum of a list of die results. */
  function Sum(xs: seq<int>): int {
    if xs == [] then 0 else Sum(xs[..|xs| - 1]) + xs[|xs| - 1]
  }

  /**
   * One die of `sides` faces: `Math.floor(Math.random() * sides) + 1`. With
   * 0 faces that is always 1.
   */
  predicate IsDraw(sides: nat, value: int) {
    1 <= value <= Counters.Max(1, sides)
  }

  /**
   * The loop of `rollDamage`: one die per count, then the bonus when the
   * bonus group matched.
   */
  method RollDamage(f: DiceFormula, draws: seq<int>) returns (total: int)
    requires f.count <= |draws|
    requires forall i :: 0 <= i < f.count ==> IsDraw(f.sides, draws[i])
    ensures total == Sum(draws[..f.count]) + f.bonus.GetOr(0)
    ensures f.count + f.bonus.GetOr(0) <= total <= f.count * Counters.Max(1, f.sides) + f.bonus.GetOr(0)
    ensures f.count == 0 ==> total == f.bonus.GetOr(0)
  {
    var m := Counters.Max(1, f.sides);
    total := 0;
    for i := 0 to f.count
      invariant total == Sum(draws[..i])
      invariant i <= total <= i * m
    {
      assert draws[..i + 1][..i] == draws[..i];
      total := total + draws[i];
    }
    if f.bonus.Some? {
      total := total + f.bonus.value;
    }
  }

  /** `{ ...weapon, ammo: Math.max(0, Math.min(ammo, weapon.maxAmmo || 0)) }` on the weapon with that id. */
  function UpdateWeaponAmmo(weapons: seq<Weapon>, id: string, ammo: int): (r: seq<Weapon>)
    ensures |r| == |weapons|
    ensures forall i :: 0 <= i < |r| && weapons[i].id != id ==> r[i] == weapons[i]
    ensures forall i :: 0 <= i < |r| && weapons[i].id == id ==>
      r[i] == weapons[i].(ammo := Some(Counters.ClampToCeiling(ammo, OrElse(weapons[i].maxAmmo, 0))))
  {
    seq(|weapons|, i requires 0 <= i < |weapons| =>
      if weapons[i].id == id
      then weapons[i].(ammo := Some(Counters.ClampToCeiling(ammo, OrElse(weapons[i].maxAmmo, 0))))
      else weapons[i])
  }

  /** Ammo the counter shows: `weapon.ammo || 0`. */
  function AmmoShown(w: Weapon): int {
    OrElse(w.ammo, 0)
  }

  /**
   * Whatever is passed in, the stored ammo lies between 0 and the magazine
   * (0 when the weapon has none), and only the ammo field of the matching
   * weapons changes.
   */
  lemma AmmoStaysInMagazine(weapons: seq<Weapon>, id: string, ammo: int, i: nat)
    requires i < |weapons| && weapons[i].id == id
    ensures var w := UpdateWeaponAmmo(weapons, id, ammo)[i];
      && w.ammo.Some?
      && 0 <= w.ammo.value
      && (OrElse(weapons[i].maxAmmo, 0) >= 0 ==> w.ammo.value <= OrElse(weapons[i].maxAmmo, 0))
      && w.(ammo := weapons[i].ammo) == weapons[i]
  {
  }

  /**
   * The "-" and "+" ammo buttons on a weapon whose ammo is in range: "-" uses
   * one round and stops at 0, "+" adds one and stops at a full magazine.
   */
  lemma AmmoButtons(weapons: seq<Weapon>, i: nat)
    requires i < |weapons|
    requires forall j :: 0 <= j < |weapons| ==> weapons[j].id == weapons[i].id ==> j == i
    requires 0 <= AmmoShown(weapons[i]) <= OrElse(weapons[i].maxAmmo, 0)
    ensures var n, full := AmmoShown(weapons[i]), OrElse(weapons[i].maxAmmo, 0);
      && AmmoShown(UpdateWeaponAmmo(weapons, weapons[i].id, n - 1)[i]) == (if n > 0 then n - 1 else 0)
      && AmmoShown(UpdateWeaponAmmo(weapons, weapons[i].id, n + 1)[i]) == (if n < full then n + 1 else full)
  {
  }

  /** The add-weapon form; ammo fields hold `Number.parseInt(text) || 0`. */
  datatype WeaponForm = WeaponForm(
    name: string, weaponType: string, damage: string, damageType: string,
    range: string, properties: string, ammo: int, maxAmmo: int)

  const BlankWeaponForm: WeaponForm := WeaponForm("", "Corpo a Corpo", "", "Físico", "", "", 0, 0)

  /** Typing into one of the ammo inputs of the form. */
  function ParseAmmoInput(parsed: Option<int>): (v: int)
    ensures parsed.Some? ==> v == parsed.value
    ensures parsed.None? ==> v == 0
  {
    OrElse(parsed, 0)
  }

  /**
   * `addWeapon`: a form whose name is blank after trimming changes nothing;
   * otherwise the form becomes a weapon with the fresh id, appended at the
   * end, and the form is reset.
   */
  function AddWeapon(weapons: seq<Weapon>, form: WeaponForm, freshId: string): (r: (seq<Weapon>, WeaponForm))
    ensures IsBlank(form.name) ==> r == (weapons, form)
    ensures !IsBlank(form.name) ==>
      && |r.0| == |weapons| + 1
      && r.0[..|weapons|] == weapons
      && r.0[|weapons|] == Weapon(freshId, form.name, form.weaponType, form.damage, form.damageType,
                                  form.range, form.properties, Some(form.ammo), Some(form.maxAmmo))
      && r.1 == BlankWeaponForm
  {
    if IsBlank(form.name) then (weapons, form)
    else
      var w := Weapon(freshId, form.name, form.weaponType, form.damage, form.damageType,
                      form.range, form.properties, Some(form.ammo), Some(form.maxAmmo));
      (weapons + [w], BlankWeaponForm)
  }

  predicate NotWeapon(id: string, w: Weapon) { w.id != id }

  /** `weapons.filter((weapon) => weapon.id !== id)` */
  function RemoveWeapon(weapons: seq<Weapon>, id: string): (r: seq<Weapon>)
    ensures forall i :: 0 <= i < |r| ==> r[i].id != id && r[i] in weapons
    ensures forall i :: 0 <= i < |weapons| && weapons[i].id != id ==> weapons[i] in r
  {
    Lists.Filter(weapons, w => NotWeapon(id, w))
  }

  /** Removing a weapon keeps the other weapons in their order, each once. */
  lemma RemoveWeaponKeepsOrder(weapons: seq<Weapon>, id: string) returns (idx: seq<nat>)
    ensures Lists.IsSelection(weapons, RemoveWeapon(weapons, id), idx)
    ensures forall i :: 0 <= i < |weapons| && weapons[i].id != id ==> i in idx
  {
    idx := Lists.FilterSelection(weapons, w => NotWeapon(id, w));
  }

  /** The result shown beside a weapon after its damage roll. */
  datatype DamageRoll = DamageRoll(id: string, result: int)

  class WeaponsPanel {
    var diceResult: Option<DamageRoll>

    constructor ()
      ensures diceResult == None
    {
      diceResult := None;
    }

    /**
     * The dice button of a weapon: when its damage text holds notation, roll
     * it and show the total beside that weapon; otherwise nothing changes.
     */
    method RollWeaponDamage(id: string, damage: string, draws: seq<int>)
      requires ParseNotation(damage).Some? ==> ParseNotation(damage).value.count <= |draws|
      requires ParseNotation(damage).Some? ==>
        forall i :: 0 <= i < ParseNotation(damage).value.count ==> IsDraw(ParseNotation(damage).value.sides, draws[i])
      modifies this
      ensures ParseNotation(damage).None? ==> diceResult == old(diceResult)
      ensures ParseNotation(damage).Some? ==> var f := ParseNotation(damage).value;
        diceResult == Some(DamageRoll(id, Sum(draws[..f.count]) + f.bonus.GetOr(0)))
    {
      var parsed := ParseNotation(damage);
      if parsed.Some? {
        var total := RollDamage(parsed.value, draws);
        diceResult := Some(DamageRoll(id, total));
      }
    }
  }
}
