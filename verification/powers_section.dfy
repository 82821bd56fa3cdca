/**
 * The powers list: adding and removing powers, and the display that groups
 * them by level and shows the groups in ascending level order.
 */
module PowersSection {
  import opened Types
  import opened Text
  import Lists

  /** The add-power form. */
  datatype PowerForm = PowerForm(
    name: string, level: int, powerType: string, actionTime: string,
    range: string, requirements: string, duration: string, description: string)

  const BlankPowerForm: PowerForm := PowerForm("", 0, "", "", "", "", "", "")

  /** The levels the form's select offers. */
  const PowerLevels: seq<int> := [0, 1, 2, 3, 4, 5]

  /** The level select: picking the entry at `choice` sets the form's level to it. */
  function ChooseLevel(form: PowerForm, choice: nat): (r: PowerForm)
    requires choice < |PowerLevels|
    ensures 0 <= r.level <= 5 && r.level == choice
    ensures r.(level := form.level) == form
  {
    form.(level := PowerLevels[choice])
  }

  /**
   * `addPower`: a blank name (after trimming) changes nothing; otherwise the
   * form becomes a power with the fresh id, appended at the end, and the form
   * is reset.
   */
  function AddPower(powers: seq<Power>, form: PowerForm, freshId: string): (r: (seq<Power>, PowerForm))
    ensures IsBlank(form.name) ==> r == (powers, form)
    ensures !IsBlank(form.name) ==>
      && |r.0| == |powers| + 1
      && r.0[..|powers|] == powers
      && r.0[|powers|] == Power(freshId, form.name, form.level, form.powerType, form.actionTime,
                                form.range, form.requirements, form.duration, form.description)
      && r.1 == BlankPowerForm
  {
    if IsBlank(form.name) then (powers, form)
    else
      var p := Power(freshId, form.name, form.level, form.powerType, form.actionTime,
                     form.range, form.requirements, form.duration, form.description);
      (powers + [p], BlankPowerForm)
  }

  /** Only a form whose level came from the select adds a power, at a level from 0 to 5. */
  lemma AddedLevelOffered(powers: seq<Power>, form: PowerForm, freshId: string, choice: nat)
    requires choice < |PowerLevels| && !IsBlank(form.name)
    ensures var r := AddPower(powers, ChooseLevel(form, choice), freshId).0;
      r[|r| - 1].level in PowerLevels
  {
  }

  predicate NotPower(id: string, p: Power) { p.id != id }

  /** `powers.filter((power) => power.id !== id)` */
  function RemovePower(powers: seq<Power>, id: string): (r: seq<Power>)
    ensures forall i :: 0 <= i < |r| ==> r[i].id != id && r[i] in powers
    ensures forall i :: 0 <= i < |powers| && powers[i].id != id ==> powers[i] in r
  {
    Lists.Filter(powers, p => NotPower(id, p))
  }

  /** Removing a power keeps the other powers in their order, each once. */
  lemma RemovePowerKeepsOrder(powers: seq<Power>, id: string) returns (idx: seq<nat>)
    ensures Lists.IsSelection(powers, RemovePower(powers, id), idx)
    ensures forall i :: 0 <= i < |powers| && powers[i].id != id ==> i in idx
  {
    idx := Lists.FilterSelection(powers, p => NotPower(id, p));
  }

  predicate HasLevel(level: int, p: Power) { p.level == level }

  /** The powers of one level, in list order. */
  function AtLevel(powers: seq<Power>, level: int): (r: seq<Power>)
    ensures forall i :: 0 <= i < |r| ==> r[i].level == level && r[i] in powers
    ensures forall i :: 0 <= i < |powers| && powers[i].level == level ==> powers[i] in r
  {
    Lists.Filter(powers, p => HasLevel(level, p))
  }

  lemma AtLevelAppend(powers: seq<Power>, p: Power, level: int)
    ensures AtLevel(powers + [p], level) == AtLevel(powers, level) + (if p.level == level then [p] else [])
  {
    assert (powers + [p])[..|powers|] == powers;
  }

  /** The levels that occur in the list. */
  function Levels(powers: seq<Power>): set<int> {
    set i | 0 <= i < |powers| :: powers[i].level
  }

  /** The value of the `groupedPowers` reduce: one entry per occurring level, holding that level's powers. */
  function Grouped(powers: seq<Power>): map<int, seq<Power>> {
    map l | l in Levels(powers) :: AtLevel(powers, l)
  }

  lemma LevelsAppend(powers: seq<Power>, p: Power)
    ensures Levels(powers + [p]) == Levels(powers) + {p.level}
  {
    var s := powers + [p];
    assert s[|powers|] == p;
    forall l | l in Levels(s) ensures l in Levels(powers) + {p.level} {
      var i :| 0 <= i < |s| && s[i].level == l;
      if i < |powers| {
        assert powers[i] == s[i];
      }
    }
    forall l | l in Levels(powers) ensures l in Levels(s) {
      var i :| 0 <= i < |powers| && powers[i].level == l;
      assert s[i] == powers[i];
    }
  }

  lemma AtLevelAbsent(powers: seq<Power>, level: int)
    requires level !in Levels(powers)
    ensures AtLevel(powers, level) == []
  {
    assert forall i :: 0 <= i < |powers| ==> !HasLevel(level, powers[i]) by {
      forall i | 0 <= i < |powers| ensures !HasLevel(level, powers[i]) {
        assert powers[i].level in Levels(powers);
      }
    }
    Lists.FilterNone(powers, p => HasLevel(level, p));
  }

  /** `acc[level] ||= []; acc[level].push(power)`: append to the group of the power's level, creating it if missing. */
  function Push(groups: map<int, seq<Power>>, p: Power): map<int, seq<Power>> {
    groups[p.level := (if p.level in groups then groups[p.level] else []) + [p]]
  }

  /** One group of the grouping with one more power. */
  lemma GroupedEntryAppend(powers: seq<Power>, p: Power, l: int)
    requires l in Levels(powers + [p])
    ensures l in Grouped(powers + [p]) && l in Push(Grouped(powers), p)
    ensures Grouped(powers + [p])[l] == Push(Grouped(powers), p)[l]
  {
    LevelsAppend(powers, p);
    AtLevelAppend(powers, p, l);
    if l == p.level && l !in Levels(powers) {
      AtLevelAbsent(powers, l);
    }
  }

  /** Grouping one more power is pushing it onto the grouping of the others. */
  lemma GroupedAppend(powers: seq<Power>, p: Power)
    ensures Grouped(powers + [p]) == Push(Grouped(powers), p)
  {
    var lhs, rhs := Grouped(powers + [p]), Push(Grouped(powers), p);
    LevelsAppend(powers, p);
    assert lhs.Keys == rhs.Keys;
    forall l | l in lhs ensures lhs[l] == rhs[l] {
      GroupedEntryAppend(powers, p, l);
    }
  }

  /**
   * The `groupedPowers` reduce: for each power in turn, create its level's
   * array when missing and push the power onto it.
   */
  method GroupByLevel(powers: seq<Power>) returns (acc: map<int, seq<Power>>)
    ensures acc == Grouped(powers)
  {
    acc := map[];
    for i := 0 to |powers|
      invariant acc == Grouped(powers[..i])
    {
      var p := powers[i];
      ghost var before := acc;
      if p.level !in acc {
        acc := acc[p.level := []];
      }
      acc := acc[p.level := acc[p.level] + [p]];
      assert acc == Push(before, p);
      GroupedAppend(powers[..i], p);
      assert powers[..i + 1] == powers[..i] + [p];
    }
    assert powers[..|powers|] == powers;
  }

  /**
   * Every group is non-empty and holds powers of its own level only, and every
   * power is in the group of its level: there is no group for a level without
   * powers.
   */
  lemma GroupsExact(powers: seq<Power>)
    ensures Grouped(powers).Keys == Levels(powers)
    ensures forall l :: l in Grouped(powers) ==> Grouped(powers)[l] != []
    ensures forall l, k :: l in Grouped(powers) && 0 <= k < |Grouped(powers)[l]| ==> Grouped(powers)[l][k].level == l
    ensures forall i :: 0 <= i < |powers| ==> powers[i] in Grouped(powers)[powers[i].level]
  {
    forall l | l in Grouped(powers) ensures Grouped(powers)[l] != [] {
      var i :| 0 <= i < |powers| && powers[i].level == l;
      assert powers[i] in AtLevel(powers, l);
    }
  }

  /** Within a group, powers keep their list order, each once, and no power of that level is missing. */
  lemma GroupKeepsOrder(powers: seq<Power>, level: int) returns (idx: seq<nat>)
    ensures Lists.IsSelection(powers, AtLevel(powers, level), idx)
    ensures forall i :: 0 <= i < |powers| && powers[i].level == level ==> i in idx
  {
    idx := Lists.FilterSelection(powers, p => HasLevel(level, p));
  }

  predicate Ascending(levels: seq<int>) {
    forall i, j :: 0 <= i < j < |levels| ==> levels[i] < levels[j]
  }

  lemma MinExists(keys: set<int>)
    requires keys != {}
    ensures exists m :: m in keys && forall x :: x in keys ==> m <= x
  {
    if forall z :: z !in keys {
      // the branch cannot be taken; naming the quantifier lets the solver see an element exists
    }
    var y :| y in keys;
    if keys != {y} {
      var rest := keys - {y};
      assert keys == rest + {y};
      MinExists(rest);
      var m :| m in rest && forall x :: x in rest ==> m <= x;
      if y < m {
        assert forall x :: x in keys ==> y <= x;
      } else {
        assert forall x :: x in keys ==> m <= x;
      }
    }
  }

  /**
   * `.sort(([a], [b]) => Number.parseInt(a) - Number.parseInt(b))` over the
   * group keys: the keys in ascending order.
   */
  ghost function SortedKeys(keys: set<int>): (r: seq<int>)
    ensures Ascending(r)
    ensures forall l :: l in r <==> l in keys
    ensures |r| == |keys|
    decreases |keys|
  {
    if keys == {} then []
    else
      MinExists(keys);
      var m :| m in keys && forall x :: x in keys ==> m <= x;
      [m] + SortedKeys(keys - {m})
  }

  /** There is only one ascending arrangement of a set of levels, so the sort has one possible result. */
  lemma {:induction false} AscendingUnique(a: seq<int>, b: seq<int>)
    requires Ascending(a) && Ascending(b)
    requires forall l :: l in a <==> l in b
    ensures a == b
    decreases |a|
  {
    assert a != [] ==> a[0] in a && a[0] in b;
    assert b != [] ==> b[0] in b && b[0] in a;
    if a != [] && b != [] {
      assert a[0] == b[0] by {
        assert a[0] in b && b[0] in a;
      }
      forall l ensures l in a[1..] <==> l in b[1..] {
        if l in a[1..] {
          assert l in b && l != b[0];
        }
        if l in b[1..] {
          assert l in a && l != a[0];
        }
      }
      AscendingUnique(a[1..], b[1..]);
    }
  }

  function IndexOf(xs: seq<int>, x: int): (k: nat)
    requires x in xs
    ensures k < |xs| && xs[k] == x
  {
    if xs[0] == x then 0 else 1 + IndexOf(xs[1..], x)
  }

  /** The entries for `levels`, in that order: each level with its group. */
  function Entries(groups: map<int, seq<Power>>, levels: seq<int>): (r: seq<(int, seq<Power>)>)
    requires forall k :: 0 <= k < |levels| ==> levels[k] in groups
    ensures |r| == |levels|
    ensures forall k :: 0 <= k < |r| ==> r[k] == (levels[k], groups[levels[k]])
  {
    if levels == [] then [] else [(levels[0], groups[levels[0]])] + Entries(groups, levels[1..])
  }

  /** The entries shown, one per level, in ascending level order. */
  ghost function Display(groups: map<int, seq<Power>>): (r: seq<(int, seq<Power>)>)
    ensures |r| == |groups|
    ensures forall k :: 0 <= k < |r| ==> r[k].0 in groups && r[k].1 == groups[r[k].0]
    ensures forall i, j :: 0 <= i < j < |r| ==> r[i].0 < r[j].0
  {
    Entries(groups, SortedKeys(groups.Keys))
  }

  /** Every group appears among the entries shown. */
  lemma DisplayCovers(groups: map<int, seq<Power>>)
    ensures forall l :: l in groups ==> (l, groups[l]) in Display(groups)
  {
    var ks := SortedKeys(groups.Keys);
    var r := Display(groups);
    forall l | l in groups ensures (l, groups[l]) in r {
      var k := IndexOf(ks, l);
      assert r[k] == (l, groups[l]);
    }
  }

  /** The empty state shows exactly when there are no powers. */
  lemma EmptyState(powers: seq<Power>)
    ensures |Display(Grouped(powers))| == 0 <==> powers == []
  {
    if powers != [] {
      assert powers[0].level in Grouped(powers);
    }
  }

  /** The powers of the groups at `levels`, group after group. */
  function Flatten(powers: seq<Power>, levels: seq<int>): seq<Power> {
    if levels == [] then [] else AtLevel(powers, levels[0]) + Flatten(powers, levels[1..])
  }

  predicate Distinct(levels: seq<int>) {
    forall i, j :: 0 <= i < j < |levels| ==> levels[i] != levels[j]
  }

  lemma {:induction false} FlattenAppend(powers: seq<Power>, p: Power, levels: seq<int>)
    requires Distinct(levels)
    ensures multiset(Flatten(powers + [p], levels))
      == multiset(Flatten(powers, levels)) + (if p.level in levels then multiset{p} else multiset{})
    decreases |levels|
  {
    if levels != [] {
      var l, rest := levels[0], levels[1..];
      assert Distinct(rest);
      FlattenAppend(powers, p, rest);
      AtLevelAppend(powers, p, l);
      assert p.level in levels <==> p.level == l || p.level in rest;
      if p.level == l {
        assert p.level !in rest;
      }
    }
  }

  /** Groups at distinct levels that cover every level hold every power exactly once. */
  lemma {:induction false} FlattenCovers(powers: seq<Power>, levels: seq<int>)
    requires Distinct(levels)
    requires forall l :: l in Levels(powers) ==> l in levels
    ensures multiset(Flatten(powers, levels)) == multiset(powers)
    decreases |powers|
  {
    if powers == [] {
      FlattenEmpty(levels);
    } else {
      var init, p := powers[..|powers| - 1], powers[|powers| - 1];
      assert powers == init + [p];
      forall l | l in Levels(init) ensures l in levels {
        var i :| 0 <= i < |init| && init[i].level == l;
        assert powers[i].level == l;
      }
      FlattenCovers(init, levels);
      assert p.level in Levels(powers);
      FlattenAppend(init, p, levels);
    }
  }

  lemma {:induction false} FlattenEmpty(levels: seq<int>)
    ensures Flatten([], levels) == []
    decreases |levels|
  {
    if levels != [] {
      FlattenEmpty(levels[1..]);
    }
  }

  /**
   * The display shows every power exactly once, so the group sizes add up to
   * the number of powers.
   */
  lemma DisplayShowsEveryPower(powers: seq<Power>)
    ensures var ks := SortedKeys(Grouped(powers).Keys);
      && multiset(Flatten(powers, ks)) == multiset(powers)
      && |Flatten(powers, ks)| == |powers|
  {
    var ks := SortedKeys(Grouped(powers).Keys);
    GroupsExact(powers);
    FlattenCovers(powers, ks);
    assert |multiset(Flatten(powers, ks))| == |multiset(powers)|;
  }
}
