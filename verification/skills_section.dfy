/**
 * The skills panel: the fixed table of 22 skills and their governing
 * attributes, the pool-size lookup, the dice-pool skill check and the edits to
 * a skill's entry.
 */
module SkillsSection {
  import opened Types
  import Counters
  import Grading

  /** A skill's attribute: a fixed one, or ("variavel") the one Profissão's entry names. */
  datatype AttributeRef = Fixed(attribute: Attribute) | Variable

  datatype SkillInfo = SkillInfo(id: SkillId, name: string, attribute: AttributeRef)

  /** One row of `skillsData`. */
  function SkillInfoOf(id: SkillId): (info: SkillInfo)
    ensures info.id == id
    ensures info.attribute.Variable? <==> id == Profissao
  {
    match id
    case Atletismo => SkillInfo(id, "Atletismo", Fixed(Forca))
    case Culinaria => SkillInfo(id, "Culinária", Fixed(Agilidade))
    case Conhecimento => SkillInfo(id, "Conhecimento", Fixed(Intelecto))
    case Destreza => SkillInfo(id, "Destreza", Fixed(Agilidade))
    case Diplomacia => SkillInfo(id, "Diplomacia", Fixed(Disposicao))
    case Fortitude => SkillInfo(id, "Fortitude", Fixed(Vigor))
    case Furtividade => SkillInfo(id, "Furtividade", Fixed(Agilidade))
    case Intimidacao => SkillInfo(id, "Intimidação", Fixed(Disposicao))
    case Intuicao => SkillInfo(id, "Intuição", Fixed(Disposicao))
    case Investigacao => SkillInfo(id, "Investigação", Fixed(Intelecto))
    case Labia => SkillInfo(id, "Lábia", Fixed(Disposicao))
    case Luta => SkillInfo(id, "Luta", Fixed(Forca))
    case Medicina => SkillInfo(id, "Medicina", Fixed(Intelecto))
    case Ocultismo => SkillInfo(id, "Ocultismo", Fixed(Intelecto))
    case Percepcao => SkillInfo(id, "Percepção", Fixed(Disposicao))
    case Profissao => SkillInfo(id, "Profissão", Variable)
    case Pontaria => SkillInfo(id, "Pontaria", Fixed(Agilidade))
    case Reflexos => SkillInfo(id, "Reflexos", Fixed(Agilidade))
    case Religiao => SkillInfo(id, "Religião", Fixed(Intelecto))
    case Sobrevivencia => SkillInfo(id, "Sobrevivência", Fixed(Intelecto))
    case Tecnologia => SkillInfo(id, "Tecnologia", Fixed(Intelecto))
    case Vontade => SkillInfo(id, "Vontade", Fixed(Disposicao))
  }

  /** `skillsData`, in display order. */
  const SkillsData: seq<SkillInfo> := seq(|AllSkillIds|, i requires 0 <= i < |AllSkillIds| => SkillInfoOf(AllSkillIds[i]))

  /** The table has one row per skill, each skill once. */
  lemma SkillsDataCoversEverySkill(id: SkillId) returns (k: nat)
    ensures |SkillsData| == 22
    ensures k < |SkillsData| && SkillsData[k] == SkillInfoOf(id)
    ensures forall j :: 0 <= j < |SkillsData| && SkillsData[j].id == id ==> j == k
  {
    AllSkillIdsComplete(id);
    AllSkillIdsDistinct();
    k :| 0 <= k < |AllSkillIds| && AllSkillIds[k] == id;
  }

  /**
   * `getAttributeValue`: the pool size of a skill check. Profissão reads the
   * attribute its entry names; 0 or a value that is missing (an entry naming
   * no attribute) falls back to 1.
   */
  function AttributeValue(id: SkillId, attributes: Attributes, professionAttribute: string): (v: int)
    ensures v != 0
    ensures SkillInfoOf(id).attribute.Fixed? ==> var a := SkillInfoOf(id).attribute.attribute;
      v == if attributes.Get(a) == 0 then 1 else attributes.Get(a)
    ensures id == Profissao ==> var a := AttributeFromKey(professionAttribute);
      v == if a.Some? && attributes.Get(a.value) != 0 then attributes.Get(a.value) else 1
  {
    match SkillInfoOf(id).attribute
    case Variable =>
      var a := AttributeFromKey(professionAttribute);
      OrElse(if a.Some? then Some(attributes.Get(a.value)) else None, 1)
    case Fixed(a) =>
      OrElse(Some(attributes.Get(a)), 1)
  }

  /** `Math.max(1, attributeValue)`: how many d20s a check rolls. */
  function DiceCount(attributeValue: int): (n: nat)
    ensures n >= 1
    ensures attributeValue >= 1 ==> n == attributeValue
  {
    Counters.Max(1, attributeValue)
  }

  datatype DieResult = DieResult(value: int, isHighest: bool)

  /**
   * `rollSkillCheck`: roll the pool (the d20 results come from `draws`, in
   * order), take the highest value and mark every die showing it.
   */
  method RollPool(attributeValue: int, draws: seq<int>) returns (results: seq<DieResult>, highest: int)
    requires DiceCount(attributeValue) <= |draws|
    requires forall i :: 0 <= i < DiceCount(attributeValue) ==> 1 <= draws[i] <= 20
    ensures |results| == DiceCount(attributeValue)
    ensures forall i :: 0 <= i < |results| ==> results[i].value == draws[i] && 1 <= results[i].value <= 20
    ensures forall i :: 0 <= i < |results| ==> results[i].value <= highest
    ensures exists i :: 0 <= i < |results| && results[i].value == highest
    ensures forall i :: 0 <= i < |results| ==> (results[i].isHighest <==> results[i].value == highest)
    ensures exists i :: 0 <= i < |results| && results[i].isHighest
  {
    var diceCount := DiceCount(attributeValue);
    var rolled: seq<DieResult> := [];
    for i := 0 to diceCount
      invariant |rolled| == i
      invariant forall k :: 0 <= k < i ==> rolled[k] == DieResult(draws[k], false)
    {
      rolled := rolled + [DieResult(draws[i], false)];
    }
    highest := rolled[0].value;
    for i := 1 to |rolled|
      invariant exists k :: 0 <= k < i && rolled[k].value == highest
      invariant forall k :: 0 <= k < i ==> rolled[k].value <= highest
    {
      if rolled[i].value > highest {
        highest := rolled[i].value;
      }
    }
    results := [];
    for i := 0 to |rolled|
      invariant |results| == i
      invariant forall k :: 0 <= k < i ==> results[k] == DieResult(rolled[k].value, rolled[k].value == highest)
    {
      results := results + [rolled[i].(isHighest := rolled[i].value == highest)];
    }
  }

  /** `checked === true` on a skill's checkbox: only that skill's `trained` flag changes. */
  function SetTrained(skills: Skills, id: SkillId, checked: bool): (r: Skills)
    requires skills.Complete()
    ensures r.Complete()
    ensures r.entries[id] == SkillEntry(checked, skills.entries[id].bonus)
    ensures forall other :: other != id ==> r.entries[other] == skills.entries[other]
    ensures r.profissaoAttribute == skills.profissaoAttribute
  {
    skills.(entries := skills.entries[id := skills.entries[id].(trained := checked)])
  }

  /** `Number.parseInt(text) || 0` into a skill's bonus: only that bonus changes. */
  function SetBonus(skills: Skills, id: SkillId, parsed: Option<int>): (r: Skills)
    requires skills.Complete()
    ensures r.Complete()
    ensures r.entries[id].trained == skills.entries[id].trained
    ensures parsed.Some? ==> r.entries[id].bonus == parsed.value
    ensures parsed.None? ==> r.entries[id].bonus == 0
    ensures forall other :: other != id ==> r.entries[other] == skills.entries[other]
    ensures r.profissaoAttribute == skills.profissaoAttribute
  {
    skills.(entries := skills.entries[id := skills.entries[id].(bonus := OrElse(parsed, 0))])
  }

  /** Choosing Profissão's attribute in its select: only the `attribute` string changes. */
  function SetProfessionAttribute(skills: Skills, key: string): (r: Skills)
    ensures r.entries == skills.entries
    ensures r.profissaoAttribute == key
  {
    skills.(profissaoAttribute := key)
  }

  /** After choosing an attribute for Profissão, its checks roll that attribute's value (1 when it is 0). */
  lemma ProfessionRollsChosenAttribute(skills: Skills, a: Attribute, attributes: Attributes)
    ensures var v := AttributeValue(Profissao, attributes, SetProfessionAttribute(skills, AttributeKey(a)).profissaoAttribute);
      v == if attributes.Get(a) == 0 then 1 else attributes.Get(a)
  {
    assert AttributeFromKey(AttributeKey(a)) == Some(a);
  }

  /**
   * The result panel's state cells: the marked dice, the skill rolled and the
   * highest value.
   */
  class SkillsPanel {
    var diceResults: seq<DieResult>
    var rolledSkill: Option<SkillId>
    var highestResult: Option<int>

    constructor ()
      ensures diceResults == [] && rolledSkill == None && highestResult == None
    {
      diceResults, rolledSkill, highestResult := [], None, None;
    }

    /** Clicking a skill's dice button. */
    method RollSkillCheck(id: SkillId, attributes: Attributes, skills: Skills, draws: seq<int>)
      requires DiceCount(AttributeValue(id, attributes, skills.profissaoAttribute)) <= |draws|
      requires forall i :: 0 <= i < DiceCount(AttributeValue(id, attributes, skills.profissaoAttribute)) ==> 1 <= draws[i] <= 20
      modifies this
      ensures rolledSkill == Some(id) && highestResult.Some?
      ensures |diceResults| == DiceCount(AttributeValue(id, attributes, skills.profissaoAttribute))
      ensures forall i :: 0 <= i < |diceResults| ==> diceResults[i].value == draws[i]
      ensures forall i :: 0 <= i < |diceResults| ==> diceResults[i].value <= highestResult.value
      ensures forall i :: 0 <= i < |diceResults| ==> (diceResults[i].isHighest <==> diceResults[i].value == highestResult.value)
      ensures exists i :: 0 <= i < |diceResults| && diceResults[i].isHighest
    {
      var results, highest := RollPool(AttributeValue(id, attributes, skills.profissaoAttribute), draws);
      diceResults, rolledSkill, highestResult := results, Some(id), Some(highest);
    }

    /** The tier shown beside "Maior valor", once a check has been rolled. */
    function ShownTier(): (t: Option<Grading.Tier>)
      reads this
      ensures t.Some? <==> highestResult.Some? && rolledSkill.Some?
      ensures t.Some? ==> t.value == Grading.Grade(highestResult.value)
      ensures t.Some? ==> Grading.Reaches(highestResult.value, t.value)
      ensures t.Some? ==> forall u :: Grading.Reaches(highestResult.value, u) ==> Grading.Rank(u) <= Grading.Rank(t.value)
    {
      if highestResult.Some? && rolledSkill.Some? then Some(Grading.Grade(highestResult.value)) else None
    }
  }
}
