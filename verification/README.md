# Circula character sheet — rules engine in Dafny

This project models the rules behind Circula, a browser character sheet for a
tabletop horror RPG. A character has a class (Lutador, Prático, Ocultista or
none yet), five attributes, 22 skills, inventory, powers, weapons, and three
resources: health, sanity and effort points. The model covers:

- the derived-stats recomputation the sheet runs whenever the class, the
  attributes or the terror percentage (NTP) change: class maxima per terror
  tier, currents lowered to the new maxima, defense `10 + força`;
- the skill check: a pool of d20s as large as the attribute, keeping and
  marking the highest die, graded into the Falha / Básico / Garantido / Alto /
  Extremo tiers;
- the free dice roller, with a history of its 10 most recent results, newest
  first;
- weapon damage rolled from `NdM[+B]` notation found in free text, the
  clamped ammunition counter, and adding and removing weapons;
- the stats bar's clamped damage/healing, sanity loss and effort spend, and
  its step-amount steppers;
- attribute inputs clamped into 1..10, their dice labels, and the
  saving-throw toggles;
- inventory add/remove and total weight;
- powers add/remove, grouped by level and shown in ascending level order;
- the sanity test's four-way classification and the sanity edits;
- the save-slot list: save upserts by name, delete filters by name.

Randomness is an input. Every operation that rolls a pool of dice takes a
sequence `draws` of die results, each between 1 and the number of faces; the
single d20 of the sanity test (`SanitySection.SanityPanel.RollSanityCheck`)
takes one `draw` between 1 and 20. A die of 0 faces
counts as 1, because `Math.floor(r * 0) + 1` is 1. Timestamp-based ids are
a `freshId` parameter, and the model claims nothing about their uniqueness.
Text inputs enter already parsed. `Number.parseInt` gives an
`Option<int>`, `Number.parseFloat` an `Option<real>`. The JavaScript
`x || fallback` on such a number is `Types.OrElse`: 0, NaN and a missing
value all take the fallback.

Modules follow the source files: `CharacterSheet`, `SkillsSection`,
`DiceRoller`, `WeaponsSection`, `StatsBar`, `AttributesSection`,
`InventorySection`, `PowersSection`, `SanitySection`, `SaveLoadSystem`, and
`Types` for `lib/types.ts`. Four helper modules hold what several files
share:

- `Text`: trimming and decimal digits;
- `Lists`: an order-keeping filter, and the proof that it keeps positions;
- `Counters`: the clamp and stepper expressions;
- `Grading`: the success tiers, which the skills panel and the dice roller
  each define identically.

Where the sheet holds state, the model is a class whose methods update
fields:

- the `character` cell;
- the roller's history and quantity;
- the result cells of the skills, weapons and sanity panels;
- the step amounts;
- the save panel's name, list and stored copy.

Computations that only build new values are functions. The two loops of the
source are methods proved against specification functions:

- the dice pools (`SkillsSection.RollPool`, `DiceRoller.RollBatch`,
  `WeaponsSection.RollDamage`);
- the `groupedPowers` reduce (`PowersSection.GroupByLevel`).

Three behaviours of the code worth noting:

- With no class chosen, the recomputation returns before it computes anything,
  so defense is not recomputed either (components/character-sheet.tsx:89).
- The recomputation lowers current health to `maximum` alone, ignoring
  `temporary` (components/character-sheet.tsx:124). The stats bar heals up to
  `maximum + temporary` (components/stats-bar.tsx:53), so healing into the
  temporary points is undone by the next attribute, class or NTP edit. The
  lemma `StatsBar.TemporaryHeadroomLostOnRecompute` states this.
- Damage notation is found anywhere in the text: the leftmost match, with no
  anchors. A `-` modifier is not part of the expression, so "2d6-1" rolls
  plain 2d6.

## Model

| member | source | states |
|---|---|---|
| Types.OrElse | components/inventory-section.tsx:64 | a non-zero parsed number is kept; a missing value or 0 gives the fallback |
| Types.ClassFromName | lib/types.ts:3 | a string is a class exactly when it is one of the four names of the union, and the class reads back to it |
| Types.AttributeFromKey | lib/types.ts:10-16 | a string names an attribute exactly when it is one of the five keys |
| Types.Attributes.Set | lib/types.ts:10-16 | writing one attribute changes that attribute only |
| Types.SavingThrows.Set | lib/types.ts:73-79 | writing one saving-throw flag changes that flag only |
| Types.AllSkillIdsComplete | lib/types.ts:17-40 | the record has exactly 22 skill keys, and every skill is among them |
| Types.AllSkillIdsDistinct | lib/types.ts:17-40 | no skill key is listed twice |
| CharacterSheet.InitialSkills | components/character-sheet.tsx:18-85 | the initial record has every skill, untrained with bonus 0, and Profissão reads Intelecto |
| CharacterSheet.TierIsFloor | components/character-sheet.tsx:92 | the terror tier is the floor of ntp/5, negative ntp included |
| CharacterSheet.RecomputeUnsetIsIdentity | components/character-sheet.tsx:89 | with no class the effect changes nothing, defense included |
| CharacterSheet.RecomputeLutador | components/character-sheet.tsx:99-103 | Lutador maxima 20+vig+t(4+vig), 12+3t, 2+dis+t(2+dis); defense 10+força |
| CharacterSheet.RecomputePratico | components/character-sheet.tsx:104-108 | Prático maxima 16+vig+t(3+vig), 16+4t, 3+dis+t(3+dis); defense 10+força |
| CharacterSheet.RecomputeOcultista | components/character-sheet.tsx:109-113 | Ocultista maxima 12+vig+t(2+vig), 20+5t, 4+dis+t(4+dis); defense 10+força |
| CharacterSheet.TierStepGrowsMaxima | components/character-sheet.tsx:98-114 | each further tier adds the class step (plus vigor or disposição) to each maximum, so with attributes of at least 1 all three grow |
| CharacterSheet.HealthReadsOnlyVigor | components/character-sheet.tsx:100-110 | maximum health depends on class, vigor and tier only |
| CharacterSheet.RecomputeLowersCurrents | components/character-sheet.tsx:119-135 | each current becomes the smaller of itself and its new maximum, never raised; health ignores temporary points |
| CharacterSheet.RecomputeChangesOnlyDerived | components/character-sheet.tsx:119-137 | only maxima, currents and armorClass change; temporary health and all other fields are kept |
| CharacterSheet.RecomputeSyncs | components/character-sheet.tsx:88-138 | with a class, the result is in sync with its formulas, and a record is left unchanged exactly when it already is |
| CharacterSheet.RecomputeIdempotent | components/character-sheet.tsx:88-138 | running the effect on its own output changes nothing |
| CharacterSheet.LutadorExample | components/character-sheet.tsx:99-103 | Lutador with vigor 3, disposição 2 and 15% NTP has 44 health, 21 sanity, 16 effort |
| CharacterSheet.Sheet.constructor | components/character-sheet.tsx:18-85 | the sheet starts from the initial record, on which the effect does nothing |
| CharacterSheet.Sheet.UpdateCharacter | components/character-sheet.tsx:140-142 | merges one info field, then recomputes exactly when class or NTP changed; a new class or NTP leaves the record in sync |
| CharacterSheet.Sheet.UpdateAttributes | components/character-sheet.tsx:144-146 | stores the attributes and always recomputes; with a class the record is then in sync |
| CharacterSheet.Sheet.UpdateSkills | components/character-sheet.tsx:148-150 | replaces the skills and nothing else |
| CharacterSheet.Sheet.UpdateInventory | components/character-sheet.tsx:152-154 | replaces the inventory and nothing else |
| CharacterSheet.Sheet.UpdatePowers | components/character-sheet.tsx:156-158 | replaces the powers and nothing else |
| CharacterSheet.Sheet.UpdateNotes | components/character-sheet.tsx:160-162 | replaces the notes and nothing else |
| CharacterSheet.Sheet.UpdateHealth | components/character-sheet.tsx:164-166 | replaces health and nothing else; no recomputation follows |
| CharacterSheet.Sheet.UpdateSanity | components/character-sheet.tsx:168-170 | replaces sanity and nothing else |
| CharacterSheet.Sheet.UpdateEffortPoints | components/character-sheet.tsx:172-174 | replaces effort points and nothing else |
| CharacterSheet.Sheet.UpdateSavingThrows | components/character-sheet.tsx:176-178 | replaces the saving throws and nothing else |
| CharacterSheet.Sheet.UpdateWeapons | components/character-sheet.tsx:180-182 | replaces the weapons and nothing else |
| Grading.Grade | components/skills-section.tsx:107-113 | the tier is the highest one whose threshold (12, 15, 18, 20) the result reaches |
| Grading.TierTextDistinct | components/skills-section.tsx:107-113 | the five labels are pairwise different, so the text shown identifies the tier |
| Grading.TierTextOfResult | components/skills-section.tsx:107-113 | "Extremo!" is shown exactly from 20 up and "Falha" exactly below 12 |
| Grading.GradeMonotone | components/dice-roller.tsx:28-34 | a higher result never gets a lower tier |
| Grading.GradeBoundaries | components/dice-roller.tsx:28-34 | each threshold value falls in the higher tier |
| SkillsSection.SkillInfoOf | components/skills-section.tsx:22-45 | each skill's row; only Profissão has a variable attribute |
| SkillsSection.SkillsDataCoversEverySkill | components/skills-section.tsx:22-45 | the table has 22 rows and each skill appears in exactly one |
| SkillsSection.AttributeValue | components/skills-section.tsx:59-66 | the pool size is the governing attribute (for Profissão, the one its entry names), and 1 when that is 0 or names no attribute |
| SkillsSection.DiceCount | components/skills-section.tsx:70 | at least one die; an attribute of 1 or more gives that many dice |
| SkillsSection.RollPool | components/skills-section.tsx:68-93 | one die per draw in order; the highest is the maximum of the dice, shown by one of them; exactly the dice equal to it are marked |
| SkillsSection.SetTrained | components/skills-section.tsx:154-162 | only that skill's trained flag changes |
| SkillsSection.SetBonus | components/skills-section.tsx:203-210 | only that skill's bonus changes, to the parsed number or 0 |
| SkillsSection.SetProfessionAttribute | components/skills-section.tsx:177-185 | only Profissão's attribute key changes |
| SkillsSection.ProfessionRollsChosenAttribute | components/skills-section.tsx:59-64 | after choosing an attribute for Profissão its checks roll that attribute (1 when it is 0) |
| SkillsSection.SkillsPanel.constructor | components/skills-section.tsx:18-20 | no dice, no skill and no highest result before the first check |
| SkillsSection.SkillsPanel.RollSkillCheck | components/skills-section.tsx:68-93 | the panel shows the skill, the marked dice and their maximum |
| SkillsSection.SkillsPanel.ShownTier | components/skills-section.tsx:119-138 | a tier is shown exactly once a check was rolled, and it is the grade of the highest die: the highest tier that result reaches |
| DiceRoller.DieSizesExactlyDiceTypes | components/dice-roller.tsx:7-94 | the die buttons offer exactly the sizes of `DiceType`, in ascending order, each once |
| DiceRoller.Batch | components/dice-roller.tsx:15-23 | one record per die, with the die size, the draw and the timestamp now+i |
| DiceRoller.KeepRecent | components/dice-roller.tsx:24 | keeps the first min(n, 10) entries |
| DiceRoller.NewestFirst | components/dice-roller.tsx:24 | a roll of at most 10 dice is kept whole at the front, followed by as much of the old history as still fits, in its order |
| DiceRoller.RollBatch | components/dice-roller.tsx:15-23 | the loop builds exactly the batch, each value between 1 and the die size |
| DiceRoller.SuccessLabel | components/dice-roller.tsx:111 | a tier is shown exactly for d20 results |
| DiceRoller.Roller.constructor | components/dice-roller.tsx:10-12 | empty history, quantity 1, results hidden |
| DiceRoller.Roller.RollDice | components/dice-roller.tsx:14-26 | the new results go in front of the history, which is cut to 10; results are shown |
| DiceRoller.Roller.DecreaseQuantity | components/dice-roller.tsx:77 | quantity goes down by one but never below 1 |
| DiceRoller.Roller.IncreaseQuantity | components/dice-roller.tsx:86 | quantity goes up by one |
| WeaponsSection.Scan | components/weapons-section.tsx:61 | the match found from a position is the leftmost one, and none is found only when no position matches |
| WeaponsSection.ParseNotation | components/weapons-section.tsx:61 | the regular expression's result is the leftmost match in the text, or none when no position matches |
| WeaponsSection.ParseRender | components/weapons-section.tsx:61 | the notation written for any formula (count, sides, optional bonus) reads back as that formula, whatever non-digit text follows |
| WeaponsSection.NotationWithBonus | components/weapons-section.tsx:61-70 | "2d6+3" reads as two d6 plus 3 |
| WeaponsSection.NotationNegativeModifierIgnored | components/weapons-section.tsx:61 | "2d6-1" reads as plain 2d6 |
| WeaponsSection.NotationMissing | components/weapons-section.tsx:61-62 | "d6" holds no notation, so nothing is rolled |
| WeaponsSection.RollDamage | components/weapons-section.tsx:64-70 | the total is the sum of the dice plus the bonus when present, between count+bonus and count·sides+bonus |
| WeaponsSection.UpdateWeaponAmmo | components/weapons-section.tsx:50-56 | the matching weapons get ammo clamped into [0, maxAmmo or 0]; all others are unchanged |
| WeaponsSection.AmmoStaysInMagazine | components/weapons-section.tsx:53 | stored ammo lies between 0 and the magazine, and only the ammo field changes |
| WeaponsSection.AmmoButtons | components/weapons-section.tsx:262-273 | "-" spends one round and stops at 0; "+" adds one and stops at a full magazine |
| WeaponsSection.ParseAmmoInput | components/weapons-section.tsx:182 | the form's ammo field is the parsed number, or 0 when it does not parse |
| WeaponsSection.AddWeapon | components/weapons-section.tsx:30-44 | a blank name changes nothing; otherwise the new weapon is appended after the unchanged list and the form is reset |
| WeaponsSection.RemoveWeapon | components/weapons-section.tsx:46-48 | the result holds no weapon with the id and keeps every other weapon |
| WeaponsSection.RemoveWeaponKeepsOrder | components/weapons-section.tsx:47 | the weapons kept are exactly those with another id, in their order, each once |
| WeaponsSection.WeaponsPanel.constructor | components/weapons-section.tsx:28 | no damage result before the first roll |
| WeaponsSection.WeaponsPanel.RollWeaponDamage | components/weapons-section.tsx:58-76 | with notation, the roll's total is shown beside that weapon; without, nothing changes |
| Counters.ClampToCeiling | components/stats-bar.tsx:53 | the result is the value when it lies in [0, ceiling]; otherwise the nearer bound (0 when the ceiling is negative) |
| Counters.ClampMonotone | components/stats-bar.tsx:61 | a larger amount never gives a smaller clamped value |
| Counters.StepDown | components/stats-bar.tsx:131 | a stepper's "-" goes down by one but never below 1 |
| StatsBar.AdjustHealth | components/stats-bar.tsx:52-58 | the new current is the clamp of current+amount into [0, maximum+temporary]; maximum and temporary stay |
| StatsBar.AdjustPool | components/stats-bar.tsx:60-74 | sanity and effort: the new current is the clamp into [0, maximum]; maximum stays |
| StatsBar.AdjustHealthBounds | components/stats-bar.tsx:52-58 | with a non-negative ceiling health ends in bounds, and an in-bounds change is applied exactly |
| StatsBar.AdjustPoolBounds | components/stats-bar.tsx:60-74 | with a non-negative maximum the pool ends in bounds, and an in-bounds change is applied exactly |
| StatsBar.DamageAndHealing | components/stats-bar.tsx:150-158 | "-" never raises health and stops at 0; "+" never lowers it and stops at maximum+temporary |
| StatsBar.LossAndRecovery | components/stats-bar.tsx:214-222 | the same for sanity and effort, stopping at 0 and maximum |
| StatsBar.TemporaryHeadroomLostOnRecompute | components/character-sheet.tsx:124 | healing into the temporary points is clamped back to maximum by the next recomputation |
| StatsBar.StepAmounts.constructor | components/stats-bar.tsx:48-50 | all three step amounts start at 1 |
| StatsBar.StepAmounts.DecreaseDamage | components/stats-bar.tsx:131 | the damage amount steps down, not below 1; the others stay |
| StatsBar.StepAmounts.IncreaseDamage | components/stats-bar.tsx:140 | the damage amount goes up by one; the others stay |
| StatsBar.StepAmounts.DecreaseSanityLoss | components/stats-bar.tsx:195 | the sanity-loss amount steps down, not below 1; the others stay |
| StatsBar.StepAmounts.IncreaseSanityLoss | components/stats-bar.tsx:204 | the sanity-loss amount goes up by one; the others stay |
| StatsBar.StepAmounts.DecreaseEffortSpend | components/stats-bar.tsx:259 | the effort-spend amount steps down, not below 1; the others stay |
| StatsBar.StepAmounts.IncreaseEffortSpend | components/stats-bar.tsx:268 | the effort-spend amount goes up by one; the others stay |
| AttributesSection.ClampAttributeInput | components/attributes-section.tsx:62 | the value lies in 1..10: the parsed number when it does, 10 above, 1 below or when it does not parse |
| AttributesSection.WriteAttribute | components/attributes-section.tsx:62-65 | only the edited attribute changes, to the clamped value |
| AttributesSection.WriteKeepsRange | components/attributes-section.tsx:62-65 | attributes within 1..10 stay within 1..10 whatever is typed |
| AttributesSection.DiceLabelNamesSkillPool | components/attributes-section.tsx:69 | the label under an attribute is dice notation for exactly the d20 pool a check on it rolls |
| AttributesSection.ToggleSavingThrow | components/attributes-section.tsx:76-80 | only that attribute's saving-throw flag changes |
| InventorySection.TotalWeightAppend | components/inventory-section.tsx:40 | the total of two lists one after the other is the sum of their totals |
| InventorySection.TotalWeightAdd | components/inventory-section.tsx:40 | one more item adds its weight times its quantity |
| InventorySection.TotalWeightExample | components/inventory-section.tsx:40 | 3 × 2.5 plus 1 × 1.5 weighs 9.0 |
| InventorySection.ParseQuantityInput | components/inventory-section.tsx:64 | the quantity is the parsed number, or 1 when it is missing or 0 |
| InventorySection.ParseWeightInput | components/inventory-section.tsx:75 | the weight is the parsed number, or 0 when it does not parse |
| InventorySection.AddItem | components/inventory-section.tsx:24-34 | a blank name changes nothing; otherwise the item is appended after the unchanged list and the form is reset |
| InventorySection.AddItemWeight | components/inventory-section.tsx:24-40 | adding an item raises the total by its weight times its quantity |
| InventorySection.RemoveItem | components/inventory-section.tsx:36-38 | no item with the id remains, and every other item is kept |
| InventorySection.RemoveItemWeight | components/inventory-section.tsx:36-40 | the total falls by exactly the weight of the items removed |
| PowersSection.AddPower | components/powers-section.tsx:42-56 | a blank name changes nothing; otherwise the power is appended after the unchanged list and the form is reset |
| PowersSection.ChooseLevel | components/powers-section.tsx:29-104 | the select sets only the level, to one of 0 to 5 |
| PowersSection.AddedLevelOffered | components/powers-section.tsx:29-56 | a power added from a form whose level came from the select has a level the select offers |
| PowersSection.RemovePower | components/powers-section.tsx:58-60 | no power with the id remains, and every other power is kept |
| PowersSection.RemovePowerKeepsOrder | components/powers-section.tsx:59 | the powers kept are exactly those with another id, in their order, each once |
| PowersSection.AtLevel | components/powers-section.tsx:62-72 | a level's group holds exactly the powers of that level |
| PowersSection.GroupedAppend | components/powers-section.tsx:63-69 | grouping one more power pushes it onto its level's group, creating the group if missing |
| PowersSection.GroupByLevel | components/powers-section.tsx:62-72 | the reduce yields one group per occurring level, holding that level's powers in list order |
| PowersSection.GroupsExact | components/powers-section.tsx:62-72 | the groups are exactly the occurring levels, none empty, each holding only its level, and every power is in its level's group |
| PowersSection.GroupKeepsOrder | components/powers-section.tsx:68 | a group keeps its powers in list order, each once, and misses none of its level |
| PowersSection.SortedKeys | components/powers-section.tsx:189-190 | the levels in ascending order, each once |
| PowersSection.AscendingUnique | components/powers-section.tsx:189-190 | there is one ascending arrangement of a set of levels, so the sort's result is determined |
| PowersSection.Display | components/powers-section.tsx:189-191 | one entry per group, each holding its own group, in strictly ascending level order |
| PowersSection.DisplayCovers | components/powers-section.tsx:189-191 | every group appears among the entries shown |
| PowersSection.EmptyState | components/powers-section.tsx:186 | the empty-state message shows exactly when there are no powers |
| PowersSection.DisplayShowsEveryPower | components/powers-section.tsx:186-194 | the groups shown hold every power exactly once |
| SanitySection.SanityBands | components/sanity-section.tsx:76-84 | on a d20: 1 is a critical success, 2..15 a possible success, 16..19 a possible failure, 20 a critical failure |
| SanitySection.SanityMonotone | components/sanity-section.tsx:76-84 | a higher result is never a better sanity outcome |
| SanitySection.SanityOppositeOfSuccess | components/sanity-section.tsx:76-84 | the natural 20 is Extremo as a skill result and a critical failure as a sanity result |
| SanitySection.SetSanityCurrent | components/sanity-section.tsx:30-34 | only current changes, to the parsed number or 0 |
| SanitySection.SetSanityMaximum | components/sanity-section.tsx:44-48 | only maximum changes, to the parsed number or 0 |
| SanitySection.CurrentEditUnbounded | components/sanity-section.tsx:30-34 | the direct edit may store a current above the maximum |
| SanitySection.SanityPanel.constructor | components/sanity-section.tsx:14 | no result before the first test |
| SanitySection.SanityPanel.RollSanityCheck | components/sanity-section.tsx:16-19 | the panel shows the d20 result drawn |
| SanitySection.SanityPanel.ShownOutcome | components/sanity-section.tsx:74-84 | an outcome is shown exactly once a test was rolled, and it is the result's classification |
| SaveLoadSystem.WithoutName | components/save-load-system.tsx:30 | no slot with the name remains, and every other slot is kept |
| SaveLoadSystem.BlankSaveIgnored | components/save-load-system.tsx:27 | saving under a name of only whitespace leaves the list unchanged |
| SaveLoadSystem.SaveIsUpsert | components/save-load-system.tsx:29-32 | after a save exactly one slot has the name: the last, holding the new data |
| SaveLoadSystem.SaveKeepsOthers | components/save-load-system.tsx:30 | a save keeps exactly the slots of other names, with their data, in their order, each once |
| SaveLoadSystem.SaveTwice | components/save-load-system.tsx:29-32 | saving twice under one name is the same as saving the second data once |
| SaveLoadSystem.UnconfirmedDeleteIgnored | components/save-load-system.tsx:52 | a delete the user does not confirm changes nothing |
| SaveLoadSystem.ConfirmedDelete | components/save-load-system.tsx:52-53 | a confirmed delete removes every slot with the name and keeps exactly the others, in order |
| SaveLoadSystem.DeleteAfterSave | components/save-load-system.tsx:29-53 | deleting a name just saved leaves the list without any slot of that name |
| SaveLoadSystem.SavePanel.constructor | components/save-load-system.tsx:17-24 | the list starts as the stored copy and the name as "" |
| SaveLoadSystem.SavePanel.SetSaveName | components/save-load-system.tsx:101 | typing changes the name only; the list and the stored copy stay |
| SaveLoadSystem.SavePanel.SaveCharacter | components/save-load-system.tsx:26-38 | a blank name changes nothing; otherwise the upserted list is stored and shown, and the name is cleared |
| SaveLoadSystem.SavePanel.DeleteCharacter | components/save-load-system.tsx:51-57 | a confirmed delete filters the name out and stores the list shown; an unconfirmed one changes nothing |
| Text.BlankIffAllWhitespace | components/inventory-section.tsx:25 | a name is blank after `trim()` exactly when every character is whitespace |
| Text.Decimal | components/attributes-section.tsx:69 | the decimal text of a number is non-empty, all digits, and reads back as the number |
| Lists.FilterSelection | components/inventory-section.tsx:37 | `filter` keeps exactly the elements that pass, in their order, each once |

## Left out

- Rendering is not modelled: JSX, icons, colour bands, and the health, sanity,
  effort and ammo bar widths. These are presentation only, and use float
  division.
- `InventorySection.TotalWeight`: the sum of `weight * quantity` is exact
  `real` arithmetic, while the reduce in components/inventory-section.tsx:40
  sums binary doubles (so `0.1 * 3` is not `0.3` there). The source rounds only
  when it displays the total with `toFixed(2)`, which is not modelled either.
  Elsewhere numbers are unbounded `int`s rather than doubles.
- Turning text into numbers is not modelled. Inputs arrive as already-parsed
  `Option`s, and only the fallbacks are modelled.
- Storage and browser I/O are not modelled: `localStorage`, `JSON.stringify`
  and `JSON.parse`, `loadCharacter`, export as a data URI, import through
  `FileReader`, and `alert`. Slot data is an opaque string, and `confirm` is
  a boolean input.
- The slot list read from storage when the panel mounts is a constructor
  parameter. A missing or empty entry corresponds to passing `[]`; an entry
  that is not valid JSON makes `JSON.parse` throw while the panel mounts
  (components/save-load-system.tsx:21), which is not modelled.
- The `try`/`catch` around damage rolls is not modelled, because nothing in
  the model throws.
- React scheduling is not modelled: effect timing, batching, and the
  dependency array. The recomputation is an explicit step after each setter
  that changes class, attributes or NTP.
- `WeaponsSection.RollDamage`: counts and sides are unbounded naturals.
  `Number()` of a very long digit string loses precision in JavaScript, and
  the loop would never end for such a count.
- `Math.random` and `Date.now()` are inputs. There is no claim that ids are
  unique, since two adds in the same millisecond collide.
- The condition under which the ammo widget is shown is not modelled (only for
  firearms and thrown weapons with a magazine); it is presentation only. The
  widget's "-"/"+" buttons are modelled by `WeaponsSection.AmmoButtons`.
- `PowersSection.SortedKeys` is a specification of the sort's outcome, not
  the comparison sort itself. It is the ascending arrangement of the levels,
  which `PowersSection.AscendingUnique` proves is the only possible one.
- Spells, free-form character info, notes and the page layout are not part
  of this model. They are form plumbing, or code no screen uses.
