# Over-time monster effects and character skills

A Dafny model of two parts of a character and monster importer for a virtual
tabletop (D&D 5e rules data into tabletop documents).

**Over-time effects** (`over_time_effect.dfy`, module `OverTimeEffect`). These
functions read a monster feature's rules text and build an active effect:
- A saving-throw phrase ("DC 15 Wisdom saving throw or be frightened …") adds a
  status change for the condition it names. The phrase can also set a
  special-duration tag: "turnEnd" or "turnStartSource".
- Recurring damage at "the start/end of each" turn adds a recurring-damage change
  (`flags.midi-qol.OverTime`). The inputs are:
  - the save;
  - the "taking … damage" parts;
  - the duration ("for N minute", else "for N round", else 60 seconds);
  - overrides from the document's `monsterMunch.overTime.*` flags.
- The effect is attached to the item document. The actor is flagged.
- A direct builder makes start-of-turn and/or end-of-turn changes from given
  arguments.

**Skills** (`skills.dfy`, module `Skills`). This builds one entry per dictionary
skill of an imported character. Each entry holds:
- the proficiency level: expertise, then proficiency, then half proficiency
  (Jack of All Trades or a round-up feature);
- the per-character overrides of proficiency (type 26), ability (type 27) and
  bonus (types 24/25);
- the modifier, computed from ability score, proficiency bonus and skill bonus;
- the text of the `check` bonus.

Ability overrides are also collected as changes on one "Skill Ability Changes"
effect of the character. That effect is found by label or created. The "Silver
Tongue" subclass feature sets a minimum of 10 on Perception and Deception.

Shared modules:
- `Wrappers` holds Option and Result.
- `JsArrays` holds `find`, `findIndex` and summing `reduce`.
- `TextSearch` holds substring search, digit runs, ASCII case, first-only
  `replace`, and decimal rendering and parsing.
- `Host` holds the document model: flag values, change records, and the mutable
  `Effect`, `Document` and `Actor` objects.

Objects the source mutates in place are classes whose methods carry `modifies`
clauses. Everything else is functions and lemmas.

Where the rules text in the comments and the code disagree, the model follows
the code:
- "DC 15 Constitution saving throw or die." leaves capture group 4 unmatched, so
  the condition lookup throws before the "die" branch is reached whenever the
  dictionary has any condition (`DieWithoutConditionWordThrows`).
- The default damage roll starts with " + ", because the join starts from "".
- The damage text is the piece between the first and the second "taking".
- The recurring-damage value always says `turn=end`. The start/end word only
  appears, capitalised, in the label.
- A missing duration phrase does not stop the builder: the duration defaults to
  60 seconds. The builder stops early only when:
  - the turn phrase is missing;
  - the DC is falsy;
  - the damage phrases are missing.

## Model

| member | source | states |
|---|---|---|
| OverTimeEffect.OverTime | src/effects/monsterFeatures/overTimeEffect.js:9-16 | the change has key `flags.midi-qol.OverTime`, override mode, priority "20"; its value is `turn=end,` followed by `label=<name> (<Turn> of Turn),damageRoll=`, the damage with `,damageType=…,saveRemove=…`, and `,saveDC=<dc>,saveAbility=…,saveDamage=…`, which together make up the whole value |
| OverTimeEffect.OverTimeTurnOnlyInLabel | src/effects/monsterFeatures/overTimeEffect.js:13 | the turn word influences the change only through its capitalised form in the label |
| OverTimeEffect.FireSaveLabel | src/effects/monsterFeatures/overTimeEffect.js:13 | for a start-of-turn fire save the label field reads `label=<name> (Start of Turn),damageRoll=` |
| OverTimeEffect.FireSaveDamage | src/effects/monsterFeatures/overTimeEffect.js:13 | for that save the damage fields read ` + 3d6[fire],damageType=fire,saveRemove=true` |
| OverTimeEffect.FireSaveSave | src/effects/monsterFeatures/overTimeEffect.js:13 | for that save the save fields read `,saveDC=15,saveAbility=con,saveDamage=nodamage` |
| OverTimeEffect.StartOrEnd | src/effects/monsterFeatures/overTimeEffect.js:18-26 | no word exactly when no case-insensitive "at the start/end of each" occurs; the word lower-cases to "start" or "end" |
| OverTimeEffect.StartOrEndSpec | src/effects/monsterFeatures/overTimeEffect.js:18-26 | `undefined` exactly when no case-insensitive "at the start/end of each" occurs; otherwise the captured word of the first occurrence, which lower-cases to "start" or "end" |
| OverTimeEffect.TurnWordLower | src/effects/monsterFeatures/overTimeEffect.js:19-22 | the word captured at a match reads "start" or "end" once lower-cased |
| OverTimeEffect.GetDuration | src/effects/monsterFeatures/overTimeEffect.js:28-41 | 60 × the count of the first "for N minute"; failing that 6 × the count of the first "for N round"; failing both, 60 |
| OverTimeEffect.MinutePhraseRoundTrip | src/effects/monsterFeatures/overTimeEffect.js:29-32 | a text starting with the rendered "for N minute" yields N × 60 seconds, whatever follows |
| OverTimeEffect.TakingSegment | src/effects/monsterFeatures/overTimeEffect.js:119 | the segment begins right after the first "taking" |
| OverTimeEffect.TakingSegmentSpec | src/effects/monsterFeatures/overTimeEffect.js:119 | `split("taking")[1]` is the text after the first "taking" up to the next one or the end; it contains no "taking" itself |
| OverTimeEffect.GetOvertimeDamage | src/effects/monsterFeatures/overTimeEffect.js:117-123 | damage is returned exactly when the text contains "taking" and "on a failed save" or "damage on a failure", and it is the damage of the taking segment |
| OverTimeEffect.DamageRoll | src/effects/monsterFeatures/overTimeEffect.js:162-165 | the roll is empty exactly when there are no parts, and otherwise starts with " + " |
| OverTimeEffect.DamageRollAppend | src/effects/monsterFeatures/overTimeEffect.js:162-165 | the rolls of consecutive part lists concatenate |
| OverTimeEffect.DamageRollOfOne | src/effects/monsterFeatures/overTimeEffect.js:163 | each part contributes " + formula[type]" |
| OverTimeEffect.ResolveOverrides | src/effects/monsterFeatures/overTimeEffect.js:160-183 | each setting is the document flag when present, else its default (joined roll, first part's type, true, the text's duration, "nodamage"); it throws exactly when the damage-type flag is absent and there are no parts |
| OverTimeEffect.SpecialDurationOf | src/effects/monsterFeatures/overTimeEffect.js:74-85 | "turnEnd" exactly when the trailing group mentions the end of its or the target's next turn; "turnStartSource" exactly when it does not but mentions "until the start of the"; else no tag |
| OverTimeEffect.GetSpecialDuration | src/effects/monsterFeatures/overTimeEffect.js:74-85 | the effect's special duration becomes the tag the trailing group calls for, or stays; nothing else changes |
| OverTimeEffect.FindCondition | src/effects/monsterFeatures/overTimeEffect.js:103-105 | the first kind-1 dictionary entry whose name or value equals the word ignoring case; none exactly when no entry does |
| OverTimeEffect.ConditionStep | src/effects/monsterFeatures/overTimeEffect.js:92-113 | no match adds nothing; it throws exactly when group 4 is unmatched and the dictionary has conditions; a status exactly when group 4 names a condition (the first one, with its special duration); "Dead" exactly for the verb "die" with no condition named |
| OverTimeEffect.DieWithoutConditionWordThrows | src/effects/monsterFeatures/overTimeEffect.js:103-111 | "or die." with unmatched group 4 throws whenever the dictionary has a condition |
| OverTimeEffect.GenerateConditionEffect | src/effects/monsterFeatures/overTimeEffect.js:87-115 | the outcome is the condition step on the text with its first curly apostrophe replaced; on success the effect's changes gain exactly the status change and its special duration is updated; on failure the effect is unchanged |
| OverTimeEffect.OverTimePlan | src/effects/monsterFeatures/overTimeEffect.js:132-185 | the builder stops exactly when the turn phrase, a DC or the damage is missing; it crashes, with the missing-parts error, exactly when it does not stop, the damage-type flag is absent and there are no parts; the attached change is `overTime` of the name, the turn word, the resolved damage, damage type, save removal and save damage, and the save's ability and DC, with the resolved duration |
| OverTimeEffect.FireSaveAtStartOfTurn | src/effects/monsterFeatures/overTimeEffect.js:132-185 | a start-of-turn text with one 3d6 fire part, a DC 15 Constitution save and no flags attaches `overTime` with roll " + 3d6[fire]", type "fire", save removal "true", save damage "nodamage", DC 15 and ability "con", for the text's duration |
| OverTimeEffect.GenerateOverTimeEffect | src/effects/monsterFeatures/overTimeEffect.js:125-194 | a throw leaves document and actor unchanged; an early exit appends the effect only when it holds changes and leaves the actor alone; the full path appends one fresh effect holding the shell, the status change and the recurring change, sets its duration and flags the actor |
| OverTimeEffect.RunTwiceAppendsTwice | src/effects/monsterFeatures/overTimeEffect.js:190 | running the builder twice attaches two distinct effects |
| OverTimeEffect.TurnChanges | src/effects/monsterFeatures/overTimeEffect.js:202-207 | one change per requested trigger, the start-of-turn change first and the end-of-turn change last, all with the over-time key and `turn=end,` |
| OverTimeEffect.DamageOverTimeEffect | src/effects/monsterFeatures/overTimeEffect.js:197-213 | without a trigger the document is unchanged; otherwise one fresh effect is appended holding the shell and the requested changes (save removal and save damage default to true and "nodamage") with the given duration and no special duration |
| TextSearch.ReplaceFirst | src/effects/monsterFeatures/overTimeEffect.js:91 | only the first occurrence of the character is replaced; the text is unchanged without one |
| TextSearch.Contains | src/effects/monsterFeatures/overTimeEffect.js:118 | `includes` holds exactly when the pattern occurs at some index |
| Skills.SkillMatches | src/parser/character/skills.js:29-31 | a type is listed exactly when some modifier naming the skill's label has it |
| Skills.HalfProficiencyRoundedUpSpec | src/parser/character/skills.js:7-16 | the round-up query is asked about `<long>-ability-checks` of the first dictionary ability whose value is the skill's ability, or about `undefined-ability-checks` when none matches |
| Skills.HalfProficiencyFound | src/parser/character/skills.js:33-41 | found exactly when a modifier grants half proficiency on ability checks, or the round-up query holds and there is at least one modifier |
| Skills.GetSkillProficiency | src/parser/character/skills.js:18-46 | the level is none, half, proficient or expert |
| Skills.GetSkillProficiencySpec | src/parser/character/skills.js:18-46 | expert exactly when an expertise modifier names the skill; proficient exactly when a proficiency one does and no expertise one; half exactly when neither and half proficiency is found; none otherwise |
| Skills.GetCustomSkillProficiency | src/parser/character/skills.js:48-60 | without character values there is no override |
| Skills.CustomSkillProficiencySpec | src/parser/character/skills.js:48-60 | no override exactly when no set type-26 value names the skill; otherwise the level of the first dictionary entry for the FIRST such value; the TypeError exactly when the dictionary has no entry for that first value |
| Skills.GetCustomSkillAbility | src/parser/character/skills.js:62-76 | without character values there is no custom ability |
| Skills.CustomSkillAbilitySpec | src/parser/character/skills.js:62-76 | a custom ability is the value of the first dictionary ability whose id is the value of the first type-27 value for the skill; there is none exactly when there is no such value or its id is unknown, whatever later values say |
| Skills.BonusValues | src/parser/character/skills.js:81-85 | no more values than entries; none when no type-24/25 value names the skill |
| Skills.BonusValuesAppend | src/parser/character/skills.js:81-85 | filtering distributes over concatenated value lists |
| Skills.GetCustomSkillBonus | src/parser/character/skills.js:78-92 | 0 without character values or without matching entries |
| Skills.CustomSkillBonusAppend | src/parser/character/skills.js:81-91 | the bonus of concatenated value lists is the sum of their bonuses |
| Skills.CustomSkillBonusOfOne | src/parser/character/skills.js:81-85 | a single value contributes its value (null as 0) exactly when it is a bonus override for the skill |
| Skills.ProficiencyBonus | src/parser/character/skills.js:188-190 | ceil and floor of 2 × prof × proficient both equal prof × the level in halves |
| Skills.SkillRecordSpec | src/parser/character/skills.js:183-236 | the entry carries the label, the custom or computed proficiency, mod = calculateModifier(score + prof × level + skill bonus), the `check` bonus text that parses back to the skill bonus, the custom ability or the skill's own, and null minimum |
| Skills.SkillRecords | src/parser/character/skills.js:182-237 | the result has exactly one key per dictionary skill name |
| Skills.SkillRecordsEntry | src/parser/character/skills.js:224-236 | a skill's entry is its own record unless a later skill shares its name |
| Skills.SkillRecordsDistinct | src/parser/character/skills.js:182-237 | with distinct names every skill's entry is its own record |
| Skills.AbilityChanges | src/parser/character/skills.js:204-222 | at most one change per skill, each an override with priority "20" keyed `data.skills.<name>.ability` for some skill |
| Skills.AbilityChangeOfSpec | src/parser/character/skills.js:205-212 | a skill adds at most one change, and one exactly when its custom ability is a non-empty name: the override of `data.skills.<name>.ability` with that name |
| Skills.AbilityChangesSpec | src/parser/character/skills.js:204-222 | every skill that sets an ability has its change in the list, after the changes of all earlier skills; every change in the list is the change of some skill that sets an ability |
| Skills.FindAbilityEffect | src/parser/character/skills.js:214 | the index of the first effect labelled "Skill Ability Changes", none exactly when no effect has that label |
| Skills.FindAbilityEffectAfterAppend | src/parser/character/skills.js:214-220 | once the labelled effect is created it is the one later skills find |
| Skills.AddAbilityChange | src/parser/character/skills.js:214-221 | the change is pushed onto the first labelled effect, or a fresh labelled effect holding shell plus change, without durations, is appended; no other effect's changes move and no existing effect's durations change |
| Skills.ApplyCustomAbility | src/parser/character/skills.js:201-222 | a skill with a non-empty custom ability adds its override change; any other skill changes nothing; durations are kept |
| Skills.ImportSkills | src/parser/character/skills.js:182-237 | the result is the records of all skills, and the labelled effect (found or created) holds exactly the ability changes in skill order; other effects' changes are unchanged, every existing effect keeps its durations, and only the labelled effect is modified |
| Skills.WithSilverTongueIdempotent | src/parser/character/skills.js:103-106 | setting the minimums twice equals setting them once |
| Skills.SilverTongueMinimums | src/parser/character/skills.js:94-110 | with a Silver Tongue feature at or below a class's level, Perception and Deception get minimum 10; every other entry, and everything without one, is unchanged |
| Skills.SkillTable.SetSpecial | src/parser/character/skills.js:94-110 | after the loop over classes the entries are the Silver Tongue minimums of the old entries |
| Skills.SpecialSkills | src/parser/character/skills.js:241 | the table holds the Silver Tongue minimums of the loop's result |
| Skills.FlagForCustomization | src/parser/character/skills.js:180 | the skill-customization flag is set to `{}` exactly when the effects module is inactive; the effect list is untouched |
| Skills.GetSkills | src/parser/character/skills.js:176-243 | the table is the Silver Tongue minimums of all skill records; the skill-customization flag is set to `{}` exactly when the effects module is inactive; the ability overrides end up on the labelled effect as in ImportSkills, the only effect modified, and every existing effect keeps its durations |

## Left out

- Logging (`console.warn`, `logger.debug`) and `async`/`await` are not modelled: neither affects a result.
- The composite saving-throw regex is the parameter `search`, which returns the capture groups or nothing. The regex engine itself is not modelled. The three short regexes are written out by hand.
- Case-insensitive matching and `toLowerCase` cover ASCII letters only. Unicode case mapping is not modelled.
- `getFeatSave`, `getDamage`, `generateStatusEffectChange`, `baseMonsterFeatureEffect`, `generateBaseSkillEffect`, the `DDBHelper` modifier queries and `utils.calculateModifier` are called but defined elsewhere. They are parameters. A fresh effect is modelled by the changes it starts with (`shell`) and its label.
- The `results` object of `generateConditionEffect` (success, save, condition) is built and then discarded by the source. It is not modelled.
- `if (!document.effects) document.effects = []` is not modelled: the document's effect list is always present.
- A falsy DC from `getFeatSave` (0, undefined, NaN) is modelled as DC 0.
- `getCustomSkills` (the custom-skills module's extra skills) is not modelled: the model takes that module as inactive, where it returns the result unchanged.
- Loose `==` between ids and values is modelled as integer equality, with null equal to nothing.
- The proficiency level is stored in halves (0, 1, 2, 4 for 0, 0.5, 1, 2). An entry's `proficient` is twice the source's `value`.
- Skills.GetSkills: requires every dictionary skill to have an ability score and a known custom proficiency level. Where the source throws a TypeError part-way through the loop, the model does not model that crash.
- Skills.GetSkills: requires "per" and "dec" among the skills when Silver Tongue applies. Where the source throws writing their minimum, the model does not model that crash.
- Skills.SkillTable.SetSpecial: requires the same two entries when Silver Tongue applies, for the same reason.
- Numbers are unbounded integers: JavaScript's floating-point arithmetic for very large counts and bonuses is not modelled.
