/**
 * The character sheet: the record it starts from, the derived-stats
 * recomputation its effect runs, and the `update*` setters that replace the
 * record held in its state cell.
 */
module CharacterSheet {
  import opened Types

  /** The record the sheet starts from. */
  const Initial: CharacterData := CharacterData(
    name := "",
    charClass := Unset,
    race := "",
    level := 1,
    background := "",
    alignment := "",
    experience := 0,
    ntp := 5,
    attributes := Attributes(1, 1, 1, 1, 1),
    skills := Skills(map id | id in AllSkillIds :: SkillEntry(false, 0), "intelecto"),
    inventory := [],
    powers := [],
    notes := "",
    health := Health(10, 10, 0),
    sanity := Pool(12, 12),
    effortPoints := Pool(2, 2),
    savingThrows := SavingThrows(false, false, false, false, false),
    armorClass := 10,
    initiative := 0,
    speed := 30,
    weapons := [])

  /** The initial record has every skill key, untrained with no bonus, and Profissão reads Intelecto. */
  lemma InitialSkills()
    ensures Initial.skills.Complete()
    ensures forall id :: Initial.skills.entries[id] == SkillEntry(false, 0)
    ensures Initial.skills.profissaoAttribute == AttributeKey(Intelecto)
  {
    forall id: SkillId ensures id in Initial.skills.entries {
      AllSkillIdsComplete(id);
    }
  }

  /**
   * The terror tier `Math.floor(ntp / 5)`. Dafny's `/` by a positive divisor
   * rounds down, as `Math.floor` of the quotient does, negative `ntp` included.
   */
  function Tier(ntp: int): int {
    ntp / 5
  }

  lemma TierIsFloor(ntp: int)
    ensures 5 * Tier(ntp) <= ntp < 5 * Tier(ntp) + 5
  {
  }

  datatype Maxima = Maxima(health: int, sanity: int, effort: int)

  /** The per-class formulas of the `switch`. */
  function ClassMaxima(c: CharacterClass, vigor: int, disposicao: int, tier: int): Maxima
    requires c != Unset
  {
    match c
    case Lutador =>
      Maxima(20 + vigor + tier * (4 + vigor), 12 + tier * 3, 2 + disposicao + tier * (2 + disposicao))
    case Pratico =>
      Maxima(16 + vigor + tier * (3 + vigor), 16 + tier * 4, 3 + disposicao + tier * (3 + disposicao))
    case Ocultista =>
      Maxima(12 + vigor + tier * (2 + vigor), 20 + tier * 5, 4 + disposicao + tier * (4 + disposicao))
  }

  /** The maxima a record's class, attributes and terror level call for. */
  function TargetMaxima(ch: CharacterData): Maxima
    requires ch.charClass != Unset
  {
    ClassMaxima(ch.charClass, ch.attributes.vigor, ch.attributes.disposicao, Tier(ch.ntp))
  }

  /**
   * The derived-stats effect as one explicit step: nothing when no class is
   * chosen; otherwise the new maxima, each current lowered to its new maximum
   * (health to `maximum` alone, `temporary` ignored) and defense `10 + forca`.
   */
  function Recompute(ch: CharacterData): CharacterData {
    if ch.charClass == Unset then ch
    else
      var m := TargetMaxima(ch);
      ch.(
        health := ch.health.(
          maximum := m.health,
          current := if ch.health.current > m.health then m.health else ch.health.current),
        sanity := ch.sanity.(
          maximum := m.sanity,
          current := if ch.sanity.current > m.sanity then m.sanity else ch.sanity.current),
        effortPoints := ch.effortPoints.(
          maximum := m.effort,
          current := if ch.effortPoints.current > m.effort then m.effort else ch.effortPoints.current),
        armorClass := 10 + ch.attributes.forca)
  }

  /**
   * A record whose derived stats agree with its class: maxima from the
   * formulas, currents at or below them, defense `10 + forca`.
   */
  predicate InSync(ch: CharacterData)
    requires ch.charClass != Unset
  {
    var m := TargetMaxima(ch);
    && ch.health.maximum == m.health && ch.health.current <= m.health
    && ch.sanity.maximum == m.sanity && ch.sanity.current <= m.sanity
    && ch.effortPoints.maximum == m.effort && ch.effortPoints.current <= m.effort
    && ch.armorClass == 10 + ch.attributes.forca
  }

  /** With no class the effect returns early: maxima, currents and armorClass stay as they were. */
  lemma RecomputeUnsetIsIdentity(ch: CharacterData)
    requires ch.charClass == Unset
    ensures Recompute(ch) == ch
  {
  }

  /** Lutador: health 20+vig+t(4+vig), sanity 12+3t, effort 2+dis+t(2+dis), t = floor(ntp/5). */
  lemma RecomputeLutador(ch: CharacterData)
    requires ch.charClass == Lutador
    ensures var r, t, vig, dis := Recompute(ch), ch.ntp / 5, ch.attributes.vigor, ch.attributes.disposicao;
      && r.health.maximum == 20 + vig + t * (4 + vig)
      && r.sanity.maximum == 12 + 3 * t
      && r.effortPoints.maximum == 2 + dis + t * (2 + dis)
      && r.armorClass == 10 + ch.attributes.forca
  {
  }

  /** Prático: health 16+vig+t(3+vig), sanity 16+4t, effort 3+dis+t(3+dis). */
  lemma RecomputePratico(ch: CharacterData)
    requires ch.charClass == Pratico
    ensures var r, t, vig, dis := Recompute(ch), ch.ntp / 5, ch.attributes.vigor, ch.attributes.disposicao;
      && r.health.maximum == 16 + vig + t * (3 + vig)
      && r.sanity.maximum == 16 + 4 * t
      && r.effortPoints.maximum == 3 + dis + t * (3 + dis)
      && r.armorClass == 10 + ch.attributes.forca
  {
  }

  /** Ocultista: health 12+vig+t(2+vig), sanity 20+5t, effort 4+dis+t(4+dis). */
  lemma RecomputeOcultista(ch: CharacterData)
    requires ch.charClass == Ocultista
    ensures var r, t, vig, dis := Recompute(ch), ch.ntp / 5, ch.attributes.vigor, ch.attributes.disposicao;
      && r.health.maximum == 12 + vig + t * (2 + vig)
      && r.sanity.maximum == 20 + 5 * t
      && r.effortPoints.maximum == 4 + dis + t * (4 + dis)
      && r.armorClass == 10 + ch.attributes.forca
  {
  }

  /**
   * Each further terror tier (every 5% of NTP) adds the class step plus vigor
   * to maximum health, the class step to sanity, and the class step plus
   * disposição to effort; with attributes of at least 1 all three grow.
   */
  lemma TierStepGrowsMaxima(c: CharacterClass, vig: int, dis: int, t: int)
    requires c != Unset
    ensures var cur, next := ClassMaxima(c, vig, dis, t), ClassMaxima(c, vig, dis, t + 1);
      && next.health - cur.health == vig + (match c case Lutador => 4 case Pratico => 3 case _ => 2)
      && next.sanity - cur.sanity == (match c case Lutador => 3 case Pratico => 4 case _ => 5)
      && next.effort - cur.effort == dis + (match c case Lutador => 2 case Pratico => 3 case _ => 4)
    ensures vig >= 1 && dis >= 1 ==> var cur, next := ClassMaxima(c, vig, dis, t), ClassMaxima(c, vig, dis, t + 1);
      next.health > cur.health && next.sanity > cur.sanity && next.effort > cur.effort
  {
  }

  /** Maximum health reads only vigor and the tier; no other attribute changes it. */
  lemma HealthReadsOnlyVigor(a: CharacterData, b: CharacterData)
    requires a.charClass == b.charClass != Unset
    requires a.attributes.vigor == b.attributes.vigor && Tier(a.ntp) == Tier(b.ntp)
    ensures Recompute(a).health.maximum == Recompute(b).health.maximum
  {
  }

  /**
   * Each current becomes `min(old current, new maximum)`: lowered when above,
   * never raised. Health is capped by `maximum` even when `temporary` is positive.
   */
  lemma RecomputeLowersCurrents(ch: CharacterData)
    ensures var r := Recompute(ch);
      && r.health.current <= ch.health.current
      && r.sanity.current <= ch.sanity.current
      && r.effortPoints.current <= ch.effortPoints.current
    ensures ch.charClass != Unset ==> var r := Recompute(ch);
      && r.health.current <= r.health.maximum
      && (ch.health.current <= r.health.maximum ==> r.health.current == ch.health.current)
      && (ch.health.current > r.health.maximum ==> r.health.current == r.health.maximum)
      && r.sanity.current <= r.sanity.maximum
      && (ch.sanity.current <= r.sanity.maximum ==> r.sanity.current == ch.sanity.current)
      && (ch.sanity.current > r.sanity.maximum ==> r.sanity.current == r.sanity.maximum)
      && r.effortPoints.current <= r.effortPoints.maximum
      && (ch.effortPoints.current <= r.effortPoints.maximum ==> r.effortPoints.current == ch.effortPoints.current)
      && (ch.effortPoints.current > r.effortPoints.maximum ==> r.effortPoints.current == r.effortPoints.maximum)
  {
  }

  /** Only maxima, currents and armorClass change; `temporary` and every other field are kept. */
  lemma RecomputeChangesOnlyDerived(ch: CharacterData)
    ensures var r := Recompute(ch);
      && r.(health := ch.health, sanity := ch.sanity, effortPoints := ch.effortPoints, armorClass := ch.armorClass) == ch
      && r.health.temporary == ch.health.temporary
  {
  }

  /** With a class set, the result is in sync, and a record is left alone exactly when it already is. */
  lemma RecomputeSyncs(ch: CharacterData)
    requires ch.charClass != Unset
    ensures InSync(Recompute(ch))
    ensures Recompute(ch) == ch <==> InSync(ch)
  {
  }

  /** Running the effect again on its own output changes nothing. */
  lemma RecomputeIdempotent(ch: CharacterData)
    ensures Recompute(Recompute(ch)) == Recompute(ch)
  {
    if ch.charClass != Unset {
      RecomputeSyncs(ch);
      RecomputeSyncs(Recompute(ch));
    }
  }

  /** Lutador with vigor 3, disposição 2 and 15% terror: 44 health, 21 sanity, 16 effort. */
  lemma LutadorExample(ch: CharacterData)
    requires ch.charClass == Lutador && ch.ntp == 15
    requires ch.attributes.vigor == 3 && ch.attributes.disposicao == 2
    ensures var r := Recompute(ch);
      r.health.maximum == 44 && r.sanity.maximum == 21 && r.effortPoints.maximum == 16
  {
  }

  /** The fields `updateCharacter` receives, one per call site. */
  datatype InfoUpdate =
    | SetName(name: string)
    | SetClass(charClass: CharacterClass)
    | SetRace(race: string)
    | SetLevel(level: int)
    | SetBackground(background: string)
    | SetAlignment(alignment: string)
    | SetExperience(experience: int)
    | SetNtp(ntp: int)
    | SetInitiative(initiative: int)
    | SetSpeed(speed: int)

  /** `{ ...prev, ...updates }` */
  function ApplyInfo(ch: CharacterData, u: InfoUpdate): CharacterData {
    match u
    case SetName(v) => ch.(name := v)
    case SetClass(v) => ch.(charClass := v)
    case SetRace(v) => ch.(race := v)
    case SetLevel(v) => ch.(level := v)
    case SetBackground(v) => ch.(background := v)
    case SetAlignment(v) => ch.(alignment := v)
    case SetExperience(v) => ch.(experience := v)
    case SetNtp(v) => ch.(ntp := v)
    case SetInitiative(v) => ch.(initiative := v)
    case SetSpeed(v) => ch.(speed := v)
  }

  /**
   * The sheet's `character` state cell. The derived-stats effect depends on
   * `class`, `attributes` and `ntp`: it runs after a setter changes one of them
   * (a new attributes object is passed on every attribute edit).
   */
  class Sheet {
    var character: CharacterData

    /** The initial record; the effect's first run returns early because no class is set. */
    constructor ()
      ensures character == Initial
      ensures Recompute(character) == character
    {
      character := Initial;
    }

    method UpdateCharacter(u: InfoUpdate)
      modifies this
      ensures var c := ApplyInfo(old(character), u);
        character == if c.charClass != old(character).charClass || c.ntp != old(character).ntp then Recompute(c) else c
      ensures character.charClass != Unset
        && ((u.SetClass? && u.charClass != old(character).charClass) || (u.SetNtp? && u.ntp != old(character).ntp))
        ==> InSync(character)
    {
      var prev := character;
      character := ApplyInfo(character, u);
      if character.charClass != prev.charClass || character.ntp != prev.ntp {
        character := Recompute(character);
        if character.charClass != Unset {
          RecomputeSyncs(ApplyInfo(prev, u));
        }
      }
    }

    method UpdateAttributes(attributes: Attributes)
      modifies this
      ensures character == Recompute(old(character).(attributes := attributes))
      ensures character.attributes == attributes
      ensures character.charClass != Unset ==> InSync(character)
    {
      character := character.(attributes := attributes);
      character := Recompute(character);
      if character.charClass != Unset {
        RecomputeSyncs(old(character).(attributes := attributes));
      }
    }

    method UpdateSkills(skills: Skills)
      modifies this
      ensures character == old(character).(skills := skills)
    {
      character := character.(skills := skills);
    }

    method UpdateInventory(inventory: seq<InventoryItem>)
      modifies this
      ensures character == old(character).(inventory := inventory)
    {
      character := character.(inventory := inventory);
    }

    method UpdatePowers(powers: seq<Power>)
      modifies this
      ensures character == old(character).(powers := powers)
    {
      character := character.(powers := powers);
    }

    method UpdateNotes(notes: string)
      modifies this
      ensures character == old(character).(notes := notes)
    {
      character := character.(notes := notes);
    }

    method UpdateHealth(health: Health)
      modifies this
      ensures character == old(character).(health := health)
    {
      character := character.(health := health);
    }

    method UpdateSanity(sanity: Pool)
      modifies this
      ensures character == old(character).(sanity := sanity)
    {
      character := character.(sanity := sanity);
    }

    method UpdateEffortPoints(effortPoints: Pool)
      modifies this
      ensures character == old(character).(effortPoints := effortPoints)
    {
      character := character.(effortPoints := effortPoints);
    }

    method UpdateSavingThrows(savingThrows: SavingThrows)
      modifies this
      ensures character == old(character).(savingThrows := savingThrows)
    {
      character := character.(savingThrows := savingThrows);
    }

    method UpdateWeapons(weapons: seq<Weapon>)
      modifies this
      ensures character == old(character).(weapons := weapons)
    {
      character := character.(weapons := weapons);
    }
  }
}
