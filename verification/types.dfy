/**
 * The character record (`CharacterData` in lib/types.ts) and its parts.
 * Numbers the sheet parses from text are `int` (or `real` for weights);
 * optional fields are `Option`s.
 */
module Types {

  datatype Option<T> = None | Some(value: T) {
    function GetOr(default: T): T {
      match this
      case Some(v) => v
      case None => default
    }
  }

  /**
   * `x || fallback` on a number that may be missing or NaN (`None`): JavaScript
   * treats 0, NaN and undefined as false, so those three give the fallback.
   */
  function OrElse(x: Option<int>, fallback: int): (r: int)
    ensures x.Some? && x.value != 0 ==> r == x.value
    ensures x.None? || x.value == 0 ==> r == fallback
  {
    if x.Some? && x.value != 0 then x.value else fallback
  }

  /** The four values of the `class` field. `Unset` is the empty string. */
  datatype CharacterClass = Lutador | Pratico | Ocultista | Unset

  function ClassName(c: CharacterClass): string {
    match c
    case Lutador => "Lutador"
    case Pratico => "Prático"
    case Ocultista => "Ocultista"
    case Unset => ""
  }

  /** Reads a `class` string; only the four names of the union type are classes. */
  function ClassFromName(s: string): (r: Option<CharacterClass>)
    ensures r.Some? ==> ClassName(r.value) == s
    ensures (exists c :: ClassName(c) == s) ==> r.Some?
  {
    if s == "Lutador" then Some(Lutador)
    else if s == "Prático" then Some(Pratico)
    else if s == "Ocultista" then Some(Ocultista)
    else if s == "" then Some(Unset)
    else None
  }

  /** The five attributes; each one's value is a pool size of d20s. */
  datatype Attribute = Forca | Agilidade | Intelecto | Disposicao | Vigor

  /** The object key of each attribute. */
  function AttributeKey(a: Attribute): string {
    match a
    case Forca => "forca"
    case Agilidade => "agilidade"
    case Intelecto => "intelecto"
    case Disposicao => "disposicao"
    case Vigor => "vigor"
  }

  /** `key in attributes`: the attribute an arbitrary string names, if any. */
  function AttributeFromKey(key: string): (r: Option<Attribute>)
    ensures r.Some? ==> AttributeKey(r.value) == key
    ensures (exists a :: AttributeKey(a) == key) ==> r.Some?
  {
    if key == "forca" then Some(Forca)
    else if key == "agilidade" then Some(Agilidade)
    else if key == "intelecto" then Some(Intelecto)
    else if key == "disposicao" then Some(Disposicao)
    else if key == "vigor" then Some(Vigor)
    else None
  }

  datatype Attributes = Attributes(forca: int, agilidade: int, intelecto: int, disposicao: int, vigor: int) {
    /** `attributes[key]` */
    function Get(a: Attribute): int {
      match a
      case Forca => forca
      case Agilidade => agilidade
      case Intelecto => intelecto
      case Disposicao => disposicao
      case Vigor => vigor
    }

    /** `{ ...attributes, [key]: v }` */
    function Set(a: Attribute, v: int): (r: Attributes)
      ensures r.Get(a) == v
      ensures forall b :: b != a ==> r.Get(b) == Get(b)
    {
      match a
      case Forca => this.(forca := v)
      case Agilidade => this.(agilidade := v)
      case Intelecto => this.(intelecto := v)
      case Disposicao => this.(disposicao := v)
      case Vigor => this.(vigor := v)
    }
  }

  datatype SavingThrows = SavingThrows(forca: bool, agilidade: bool, intelecto: bool, disposicao: bool, vigor: bool) {
    function Get(a: Attribute): bool {
      match a
      case Forca => forca
      case Agilidade => agilidade
      case Intelecto => intelecto
      case Disposicao => disposicao
      case Vigor => vigor
    }

    function Set(a: Attribute, v: bool): (r: SavingThrows)
      ensures r.Get(a) == v
      ensures forall b :: b != a ==> r.Get(b) == Get(b)
    {
      match a
      case Forca => this.(forca := v)
      case Agilidade => this.(agilidade := v)
      case Intelecto => this.(intelecto := v)
      case Disposicao => this.(disposicao := v)
      case Vigor => this.(vigor := v)
    }
  }

  /** The 22 keys of the `skills` object. */
  datatype SkillId =
    | Atletismo | Culinaria | Conhecimento | Destreza | Diplomacia | Fortitude
    | Furtividade | Intimidacao | Intuicao | Investigacao | Labia | Luta
    | Medicina | Ocultismo | Percepcao | Profissao | Pontaria | Reflexos
    | Religiao | Sobrevivencia | Tecnologia | Vontade

  /** The skill keys in the order lib/types.ts declares them. */
  const AllSkillIds: seq<SkillId> := [
    Atletismo, Culinaria, Conhecimento, Destreza, Diplomacia, Fortitude,
    Furtividade, Intimidacao, Intuicao, Investigacao, Labia, Luta,
    Medicina, Ocultismo, Percepcao, Profissao, Pontaria, Reflexos,
    Religiao, Sobrevivencia, Tecnologia, Vontade]

  /** No skill key is listed twice. */
  lemma AllSkillIdsDistinct()
    ensures forall i, j :: 0 <= i < j < |AllSkillIds| ==> AllSkillIds[i] != AllSkillIds[j]
  {
  }

  /** The record type's 22 skills are all listed. */
  lemma AllSkillIdsComplete(id: SkillId)
    ensures id in AllSkillIds
    ensures |AllSkillIds| == 22
  {
    match id
    case Atletismo => assert AllSkillIds[0] == id;
    case Culinaria => assert AllSkillIds[1] == id;
    case Conhecimento => assert AllSkillIds[2] == id;
    case Destreza => assert AllSkillIds[3] == id;
    case Diplomacia => assert AllSkillIds[4] == id;
    case Fortitude => assert AllSkillIds[5] == id;
    case Furtividade => assert AllSkillIds[6] == id;
    case Intimidacao => assert AllSkillIds[7] == id;
    case Intuicao => assert AllSkillIds[8] == id;
    case Investigacao => assert AllSkillIds[9] == id;
    case Labia => assert AllSkillIds[10] == id;
    case Luta => assert AllSkillIds[11] == id;
    case Medicina => assert AllSkillIds[12] == id;
    case Ocultismo => assert AllSkillIds[13] == id;
    case Percepcao => assert AllSkillIds[14] == id;
    case Profissao => assert AllSkillIds[15] == id;
    case Pontaria => assert AllSkillIds[16] == id;
    case Reflexos => assert AllSkillIds[17] == id;
    case Religiao => assert AllSkillIds[18] == id;
    case Sobrevivencia => assert AllSkillIds[19] == id;
    case Tecnologia => assert AllSkillIds[20] == id;
    case Vontade => assert AllSkillIds[21] == id;
  }

  datatype SkillEntry = SkillEntry(trained: bool, bonus: int)

  /**
   * The `skills` object: one entry per skill, and the extra `attribute` string
   * that only `profissao` carries.
   */
  datatype Skills = Skills(entries: map<SkillId, SkillEntry>, profissaoAttribute: string) {
    /** Every skill key is present, as the record type demands. */
    predicate Complete() {
      forall id: SkillId :: id in entries
    }
  }

  datatype InventoryItem = InventoryItem(id: string, name: string, quantity: int, weight: real, description: string)

  datatype Power = Power(
    id: string, name: string, level: int, powerType: string, actionTime: string,
    range: string, requirements: string, duration: string, description: string)

  /** `ammo` and `maxAmmo` are optional in the record type. */
  datatype Weapon = Weapon(
    id: string, name: string, weaponType: string, damage: string, damageType: string,
    range: string, properties: string, ammo: Option<int>, maxAmmo: Option<int>)

  /** Only health carries `temporary`. */
  datatype Health = Health(current: int, maximum: int, temporary: int)

  /** Sanity and effort points: `current` and `maximum` only. */
  datatype Pool = Pool(current: int, maximum: int)

  datatype CharacterData = CharacterData(
    name: string,
    charClass: CharacterClass,
    race: string,
    level: int,
    background: string,
    alignment: string,
    experience: int,
    ntp: int,
    attributes: Attributes,
    skills: Skills,
    inventory: seq<InventoryItem>,
    powers: seq<Power>,
    notes: string,
    health: Health,
    sanity: Pool,
    effortPoints: Pool,
    savingThrows: SavingThrows,
    armorClass: int,
    initiative: int,
    speed: int,
    weapons: seq<Weapon>)
}
