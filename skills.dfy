/** Skill proficiencies and bonuses of an imported character: the proficiency
    level from modifiers (expertise over proficiency over half proficiency), the
    per-character overrides for proficiency, ability and bonus, one result entry
    per dictionary skill, one labelled effect collecting the ability overrides,
    and the "Silver Tongue" minimums.

    Proficiency levels 0, 1/2, 1 and 2 are counted in halves: 0, 1, 2 and 4.
    The character-builder queries (`DDBHelper`) and `utils.calculateModifier` are
    parameters; the dictionaries are data. */
module Skills {
  import opened Wrappers
  import opened JsArrays
  import opened TextSearch
  import opened Host

  const NOT_PROFICIENT: nat := 0
  const HALF_PROFICIENT: nat := 1
  const PROFICIENT: nat := 2
  const EXPERT: nat := 4

  const ABILITY_EFFECT_LABEL := "Skill Ability Changes"
  const SKILL_CUSTOMIZATION_FLAG := "skill-customization-5e"
  const SILVER_TONGUE := "Silver Tongue"

  datatype Modifier = Modifier(kind: string, subType: string, friendlySubtypeName: string)
  datatype Skill = Skill(name: string, labelText: string, ability: string, subType: string, valueId: int)
  datatype Ability = Ability(id: int, value: string, long: string)
  datatype CustomProficiency = CustomProficiency(value: int, halves: nat)
  /** One entry of `characterValues`; `value` is `None` for null. */
  datatype CharacterValue = CharacterValue(typeId: int, valueId: int, value: Option<int>)
  datatype ClassFeature = ClassFeature(name: string, requiredLevel: int)
  /** A character class; `subclassFeatures` is `None` without a subclass definition. */
  datatype CharacterClass = CharacterClass(level: int, subclassFeatures: Option<seq<ClassFeature>>)

  datatype Dictionary = Dictionary(
    skills: seq<Skill>, abilities: seq<Ability>, customSkillProficiencies: seq<CustomProficiency>)

  /** Everything the per-skill computation reads. */
  datatype SkillContext = SkillContext(
    dict: Dictionary,
    characterValues: Option<seq<CharacterValue>>,
    modifiers: seq<Modifier>,          // the class, race, background, feat and item modifiers
    roundUpAmong: string -> bool,      // filterModifiers(modifiers, "half-proficiency-round-up", sub) is non-empty
    roundUpBase: string -> bool,       // filterBaseModifiers(data, "half-proficiency-round-up", sub, ...) is non-empty
    bonusValues: string -> seq<int>,   // values of filterBaseModifiers(data, "bonus", subType)
    calculateModifier: int -> int,
    prof: int,                         // system.attributes.prof
    abilityScores: map<string, int>)   // system.abilities[*].value

  datatype SkillsError = UnknownCustomProficiency

  // ---------------------------------------------------------------------------
  // getSkillProficiency

  /** `abilities[k]` is the first dictionary ability whose value is the skill's ability. */
  predicate FirstAbilityFor(abilities: seq<Ability>, skill: Skill, k: int)
  {
    0 <= k < |abilities| && abilities[k].value == skill.ability
    && forall j :: 0 <= j < k ==> abilities[j].value != skill.ability
  }

  /** The sub-type the round-up query asks for: `${longAbility}-ability-checks`,
      where a missing ability reads "undefined". */
  function AbilityChecksSubType(abilities: seq<Ability>, skill: Skill): string
  {
    match FindIndex(abilities, (a: Ability) => a.value == skill.ability)
    case Some(k) => abilities[k].long + "-ability-checks"
    case None => "undefined-ability-checks"
  }

  /** `isHalfProficiencyRoundedUp`, given which query answers it. */
  function HalfProficiencyRoundedUp(abilities: seq<Ability>, skill: Skill, query: string -> bool): bool
  {
    query(AbilityChecksSubType(abilities, skill))
  }

  /** The round-up query is asked about the ability checks of the first dictionary
      ability whose value is the skill's ability, by its long name, or about
      "undefined-ability-checks" when no ability matches. */
  lemma HalfProficiencyRoundedUpSpec(abilities: seq<Ability>, skill: Skill, query: string -> bool)
    ensures (forall a :: a in abilities ==> a.value != skill.ability) ==>
              (HalfProficiencyRoundedUp(abilities, skill, query) <==> query("undefined-ability-checks"))
    ensures forall k :: FirstAbilityFor(abilities, skill, k) ==>
              (HalfProficiencyRoundedUp(abilities, skill, query) <==> query(abilities[k].long + "-ability-checks"))
  {
    var r := FindIndex(abilities, (a: Ability) => a.value == skill.ability);
    if r.Some? {
      assert forall k :: FirstAbilityFor(abilities, skill, k) ==> k == r.value;
    }
  }

  /** The types of the modifiers that name the skill, in order. */
  function SkillMatches(modifiers: seq<Modifier>, labelText: string): (kinds: seq<string>)
    ensures forall k :: k in kinds <==> exists m :: m in modifiers && m.friendlySubtypeName == labelText && m.kind == k
  {
    if modifiers == [] then []
    else
      var rest := SkillMatches(modifiers[1..], labelText);
      assert forall m :: m in modifiers <==> m == modifiers[0] || m in modifiers[1..];
      (if modifiers[0].friendlySubtypeName == labelText then [modifiers[0].kind] else []) + rest
  }

  predicate NamesSkill(modifiers: seq<Modifier>, skill: Skill, kind: string)
  {
    exists m :: m in modifiers && m.friendlySubtypeName == skill.labelText && m.kind == kind
  }

  predicate IsHalfProficiency(m: Modifier)
  {
    m.kind == "half-proficiency" && m.subType == "ability-checks"
  }

  /** Whether `modifiers.find(m => half-proficiency on ability checks || roundUp)`
      finds something. */
  function HalfProficiencyFound(modifiers: seq<Modifier>, roundUp: bool): (found: bool)
    ensures found <==> (exists m :: m in modifiers && IsHalfProficiency(m)) || (modifiers != [] && roundUp)
  {
    var half := Find(modifiers, (m: Modifier) => IsHalfProficiency(m) || roundUp);
    assert half.Some? <==> (exists m :: m in modifiers && IsHalfProficiency(m)) || (modifiers != [] && roundUp) by {
      if modifiers != [] && roundUp {
        assert IsHalfProficiency(modifiers[0]) || roundUp;
      }
      if m :| m in modifiers && IsHalfProficiency(m) {
        var k :| 0 <= k < |modifiers| && modifiers[k] == m;
      }
    }
    half.Some?
  }

  /** `getSkillProficiency`, in halves. */
  function GetSkillProficiency(abilities: seq<Ability>, skill: Skill, modifiers: seq<Modifier>,
                               roundUpAmong: string -> bool): (halves: nat)
    ensures halves in {NOT_PROFICIENT, HALF_PROFICIENT, PROFICIENT, EXPERT}
  {
    var skillMatches := SkillMatches(modifiers, skill.labelText);
    var halfProficiency :=
      if HalfProficiencyFound(modifiers, HalfProficiencyRoundedUp(abilities, skill, roundUpAmong))
      then HALF_PROFICIENT else NOT_PROFICIENT;
    if "expertise" in skillMatches then EXPERT
    else if "proficiency" in skillMatches then PROFICIENT
    else halfProficiency
  }

  /** The level `getSkillProficiency` gives: expertise over proficiency among the
      modifiers naming the skill; otherwise half when some modifier grants half
      proficiency on ability checks, or when there is any modifier at all and the
      round-up query holds; otherwise none. */
  lemma GetSkillProficiencySpec(abilities: seq<Ability>, skill: Skill, modifiers: seq<Modifier>,
                                roundUpAmong: string -> bool)
    ensures var halves := GetSkillProficiency(abilities, skill, modifiers, roundUpAmong);
            && (halves == EXPERT <==> NamesSkill(modifiers, skill, "expertise"))
            && (halves == PROFICIENT <==>
                  !NamesSkill(modifiers, skill, "expertise") && NamesSkill(modifiers, skill, "proficiency"))
            && (halves == HALF_PROFICIENT <==>
                  && !NamesSkill(modifiers, skill, "expertise") && !NamesSkill(modifiers, skill, "proficiency")
                  && ((exists m :: m in modifiers && IsHalfProficiency(m))
                      || (modifiers != [] && HalfProficiencyRoundedUp(abilities, skill, roundUpAmong))))
            && (halves == NOT_PROFICIENT <==>
                  && !NamesSkill(modifiers, skill, "expertise") && !NamesSkill(modifiers, skill, "proficiency")
                  && (forall m :: m in modifiers ==> !IsHalfProficiency(m))
                  && (modifiers == [] || !HalfProficiencyRoundedUp(abilities, skill, roundUpAmong)))
  {
  }

  // ---------------------------------------------------------------------------
  // The per-character overrides

  predicate IsProficiencyOverride(cv: CharacterValue, skill: Skill)
  {
    cv.typeId == 26 && cv.valueId == skill.valueId && cv.value.Some? && cv.value.value != 0
  }

  predicate IsAbilityOverride(cv: CharacterValue, skill: Skill)
  {
    cv.typeId == 27 && cv.valueId == skill.valueId
  }

  predicate IsBonusOverride(cv: CharacterValue, skill: Skill)
  {
    (cv.typeId == 24 || cv.typeId == 25) && cv.valueId == skill.valueId
  }

  /** `getCustomSkillProficiency`: the level the dictionary gives the first
      set proficiency override for the skill; `undefined` without one; a
      TypeError when the dictionary has no entry for its value. */
  function GetCustomSkillProficiency(dict: Dictionary, values: Option<seq<CharacterValue>>, skill: Skill)
    : (r: Result<Option<nat>, SkillsError>)
    ensures values.None? ==> r == Success(None)
  {
    match values
    case None => Success(None)
    case Some(vs) =>
      match Find(vs, (cv: CharacterValue) => IsProficiencyOverride(cv, skill))
      case None => Success(None)
      case Some(cv) =>
        match Find(dict.customSkillProficiencies, (p: CustomProficiency) => Some(p.value) == cv.value)
        case None => Failure(UnknownCustomProficiency)
        case Some(p) => Success(Some(p.halves))
  }

  /** `vs[k]` is the first set proficiency override for the skill. */
  predicate FirstProficiencyOverride(vs: seq<CharacterValue>, skill: Skill, k: int)
  {
    0 <= k < |vs| && IsProficiencyOverride(vs[k], skill)
    && forall j :: 0 <= j < k ==> !IsProficiencyOverride(vs[j], skill)
  }

  /** What `getCustomSkillProficiency` yields: nothing exactly when no set
      proficiency override names the skill; otherwise the level of the first
      dictionary entry for the first such override's value; and a failure exactly
      when the dictionary has no entry for that value. */
  lemma CustomSkillProficiencySpec(dict: Dictionary, values: Option<seq<CharacterValue>>, skill: Skill)
    ensures var r := GetCustomSkillProficiency(dict, values, skill);
            && (values.Some? ==>
                  (r == Success(None) <==> forall cv :: cv in values.value ==> !IsProficiencyOverride(cv, skill)))
            && (r.Success? && r.value.Some? ==>
                  exists k :: (FirstProficiencyOverride(values.value, skill, k)
                               && exists m :: (0 <= m < |dict.customSkillProficiencies|
                                               && Some(dict.customSkillProficiencies[m].value) == values.value[k].value
                                               && (forall n :: 0 <= n < m ==>
                                                     Some(dict.customSkillProficiencies[n].value) != values.value[k].value)
                                               && r.value.value == dict.customSkillProficiencies[m].halves)))
            && (r.Failure? <==>
                  values.Some?
                  && exists k :: (FirstProficiencyOverride(values.value, skill, k)
                                  && forall p :: p in dict.customSkillProficiencies ==> Some(p.value) != values.value[k].value))
  {
    if values.Some? {
      var vs := values.value;
      match FindIndex(vs, (cv: CharacterValue) => IsProficiencyOverride(cv, skill))
      case None =>
      case Some(k) =>
        assert vs[k] == Find(vs, (cv: CharacterValue) => IsProficiencyOverride(cv, skill)).value;
        assert forall k' :: FirstProficiencyOverride(vs, skill, k') ==> k' == k;
        var cv := vs[k];
        match FindIndex(dict.customSkillProficiencies, (p: CustomProficiency) => Some(p.value) == cv.value)
        case None =>
        case Some(m) =>
    }
  }

  /** `getCustomSkillAbility`: only the first ability override for the skill is
      consulted; when its value is no known ability id the result is `undefined`,
      whatever later entries say. */
  function GetCustomSkillAbility(dict: Dictionary, values: Option<seq<CharacterValue>>, skill: Skill)
    : (r: Option<string>)
    ensures values.None? ==> r.None?
  {
    match values
    case None => None
    case Some(vs) =>
      match FindIndex(vs, (cv: CharacterValue) => IsAbilityOverride(cv, skill))
      case None => None
      case Some(k) =>
        var first := vs[k];
        match Find(dict.abilities, (a: Ability) => first.value == Some(a.id))
        case None => None
        case Some(a) => Some(a.value)
  }

  /** `vs[k]` is the first ability override for the skill. */
  predicate FirstAbilityOverride(vs: seq<CharacterValue>, skill: Skill, k: int)
  {
    0 <= k < |vs| && IsAbilityOverride(vs[k], skill)
    && forall j :: 0 <= j < k ==> !IsAbilityOverride(vs[j], skill)
  }

  /** `abilities[m]` is the first ability whose id is `v`. */
  predicate FirstAbilityWithId(abilities: seq<Ability>, v: Option<int>, m: int)
  {
    0 <= m < |abilities| && v == Some(abilities[m].id)
    && forall n :: 0 <= n < m ==> v != Some(abilities[n].id)
  }

  /** A custom ability is the value of the first known ability whose id is the
      value of the first ability override for the skill; there is none exactly
      when there is no such override or its value is no known id, whatever later
      overrides say. */
  lemma CustomSkillAbilitySpec(dict: Dictionary, values: Option<seq<CharacterValue>>, skill: Skill)
    ensures var r := GetCustomSkillAbility(dict, values, skill);
            && (r.Some? ==>
                  exists k, m :: (FirstAbilityOverride(values.value, skill, k)
                                  && FirstAbilityWithId(dict.abilities, values.value[k].value, m)
                                  && r.value == dict.abilities[m].value))
            && (r.None? <==>
                  values.None?
                  || forall k :: FirstAbilityOverride(values.value, skill, k) ==>
                       forall a :: a in dict.abilities ==> values.value[k].value != Some(a.id))
  {
    if values.Some? {
      var vs := values.value;
      match FindIndex(vs, (cv: CharacterValue) => IsAbilityOverride(cv, skill))
      case None =>
      case Some(k) =>
        assert forall k' :: FirstAbilityOverride(vs, skill, k') ==> k' == k;
        var id := vs[k].value;
        match FindIndex(dict.abilities, (a: Ability) => id == Some(a.id))
        case None =>
        case Some(m) =>
          assert Find(dict.abilities, (a: Ability) => id == Some(a.id)) == Some(dict.abilities[m]);
          assert FirstAbilityOverride(vs, skill, k) && FirstAbilityWithId(dict.abilities, id, m);
    }
  }

  /** The values the bonus overrides for the skill add, null counting as 0. */
  function BonusValues(vs: seq<CharacterValue>, skill: Skill): (bonuses: seq<int>)
    ensures |bonuses| <= |vs|
    ensures (forall cv :: cv in vs ==> !IsBonusOverride(cv, skill)) ==> bonuses == []
  {
    if vs == [] then []
    else (if IsBonusOverride(vs[0], skill) then [vs[0].value.GetOr(0)] else []) + BonusValues(vs[1..], skill)
  }

  lemma {:induction false} BonusValuesAppend(a: seq<CharacterValue>, b: seq<CharacterValue>, skill: Skill)
    ensures BonusValues(a + b, skill) == BonusValues(a, skill) + BonusValues(b, skill)
    decreases |a|
  {
    if a != [] {
      assert (a + b)[0] == a[0];
      assert (a + b)[1..] == a[1..] + b;
      BonusValuesAppend(a[1..], b, skill);
      var head := if IsBonusOverride(a[0], skill) then [a[0].value.GetOr(0)] else [];
      assert BonusValues(a + b, skill) == head + BonusValues(a[1..] + b, skill);
      assert BonusValues(a, skill) == head + BonusValues(a[1..], skill);
    } else {
      assert a + b == b;
    }
  }

  /** `getCustomSkillBonus`: the sum of the values of the bonus overrides for the
      skill, 0 without `characterValues`. */
  function GetCustomSkillBonus(values: Option<seq<CharacterValue>>, skill: Skill): (total: int)
    ensures values.None? ==> total == 0
    ensures values.Some? && (forall cv :: cv in values.value ==> !IsBonusOverride(cv, skill)) ==> total == 0
  {
    match values
    case None => 0
    case Some(vs) => Sum(BonusValues(vs, skill))
  }

  /** Bonus totals add up over consecutive entry lists... */
  lemma CustomSkillBonusAppend(a: seq<CharacterValue>, b: seq<CharacterValue>, skill: Skill)
    ensures GetCustomSkillBonus(Some(a + b), skill) == GetCustomSkillBonus(Some(a), skill) + GetCustomSkillBonus(Some(b), skill)
  {
    BonusValuesAppend(a, b, skill);
    SumAppend(BonusValues(a, skill), BonusValues(b, skill));
  }

  /** ...and a single entry contributes its value exactly when it is a bonus
      override for the skill, so the total is the sum over the matching entries. */
  lemma CustomSkillBonusOfOne(cv: CharacterValue, skill: Skill)
    ensures GetCustomSkillBonus(Some([cv]), skill) == if IsBonusOverride(cv, skill) then cv.value.GetOr(0) else 0
  {
    assert [cv][1..] == [];
    var v := cv.value.GetOr(0);
    assert BonusValues([cv], skill) == (if IsBonusOverride(cv, skill) then [v] else []) + BonusValues([], skill);
    assert [v][..0] == [];
    assert Sum([v]) == Sum([]) + v;
  }

  // ---------------------------------------------------------------------------
  // One result entry per skill

  /** Math.ceil / Math.floor of 2 * prof * proficient. With `proficient` counted in
      halves that product is prof * halves, so `doubled` is twice the product and
      both roundings of its half agree. */
  function ProficiencyBonus(prof: int, halves: nat, roundUp: bool): (bonus: int)
    ensures bonus == prof * halves
  {
    var doubled := 2 * (prof * halves);
    if roundUp then -((-doubled) / 2) else doubled / 2
  }

  datatype SkillBonuses = SkillBonuses(check: string, passive: string, minimum: Option<int>)

  /** One entry of the result; `proficient` in halves. */
  datatype SkillEntry = SkillEntry(
    entryType: string, labelText: string, ability: string, proficient: nat, mod: int, bonus: int,
    bonuses: SkillBonuses)

  predicate Ready(ctx: SkillContext, skill: Skill)
  {
    skill.ability in ctx.abilityScores
    && GetCustomSkillProficiency(ctx.dict, ctx.characterValues, skill).Success?
  }

  function Proficient(ctx: SkillContext, skill: Skill): nat
    requires Ready(ctx, skill)
  {
    match GetCustomSkillProficiency(ctx.dict, ctx.characterValues, skill).value
    case Some(halves) => halves
    case None => GetSkillProficiency(ctx.dict.abilities, skill, ctx.modifiers, ctx.roundUpAmong)
  }

  function SkillBonus(ctx: SkillContext, skill: Skill): int
  {
    Sum(ctx.bonusValues(skill.subType)) + GetCustomSkillBonus(ctx.characterValues, skill)
  }

  /** The result entry `getSkills` builds for one dictionary skill. */
  function SkillRecord(ctx: SkillContext, skill: Skill): SkillEntry
    requires Ready(ctx, skill)
  {
    var proficient := Proficient(ctx, skill);
    var proficiencyBonus :=
      ProficiencyBonus(ctx.prof, proficient, HalfProficiencyRoundedUp(ctx.dict.abilities, skill, ctx.roundUpBase));
    var skillBonus := SkillBonus(ctx, skill);
    var value := ctx.abilityScores[skill.ability] + proficiencyBonus + skillBonus;
    SkillEntry("Number", skill.labelText, GetCustomSkillAbility(ctx.dict, ctx.characterValues, skill).GetOr(skill.ability),
               proficient, ctx.calculateModifier(value), 0, SkillBonuses(IntToString(skillBonus), "", None))
  }

  /** The entry of a skill: its label; the custom proficiency when one is set,
      the computed one otherwise; a modifier computed from the ability score plus
      prof times the proficiency plus the skill bonus, whichever way the half is
      rounded; the `check` bonus as the decimal text of the skill bonus; the custom
      ability when one is known. */
  lemma SkillRecordSpec(ctx: SkillContext, skill: Skill)
    requires Ready(ctx, skill)
    ensures var e := SkillRecord(ctx, skill);
            && e.entryType == "Number" && e.labelText == skill.labelText && e.bonus == 0
            && ParseInt(e.bonuses.check) == Some(SkillBonus(ctx, skill))
            && e.bonuses.passive == "" && e.bonuses.minimum == None
            && (GetCustomSkillProficiency(ctx.dict, ctx.characterValues, skill).value.Some? ==>
                  e.proficient == GetCustomSkillProficiency(ctx.dict, ctx.characterValues, skill).value.value)
            && (GetCustomSkillProficiency(ctx.dict, ctx.characterValues, skill).value.None? ==>
                  e.proficient == GetSkillProficiency(ctx.dict.abilities, skill, ctx.modifiers, ctx.roundUpAmong))
            && e.mod == ctx.calculateModifier(ctx.abilityScores[skill.ability] + ctx.prof * e.proficient + SkillBonus(ctx, skill))
            && e.ability == GetCustomSkillAbility(ctx.dict, ctx.characterValues, skill).GetOr(skill.ability)
  {
    IntToStringRoundTrip(SkillBonus(ctx, skill));
    var proficient := Proficient(ctx, skill);
    var roundUp := HalfProficiencyRoundedUp(ctx.dict.abilities, skill, ctx.roundUpBase);
    assert SkillRecord(ctx, skill).proficient == proficient;
    assert ProficiencyBonus(ctx.prof, proficient, roundUp) == ctx.prof * proficient;
  }

  /** The result object after the loop over `skills`: one entry per skill name. */
  function SkillRecords(ctx: SkillContext, skills: seq<Skill>): (result: map<string, SkillEntry>)
    requires forall s :: s in skills ==> Ready(ctx, s)
    ensures result.Keys == set s | s in skills :: s.name
  {
    if skills == [] then map[]
    else
      var last := skills[|skills| - 1];
      var before := SkillRecords(ctx, skills[..|skills| - 1]);
      assert forall s :: s in skills <==> s in skills[..|skills| - 1] || s == last;
      before[last.name := SkillRecord(ctx, last)]
  }

  lemma SkillRecordsStep(ctx: SkillContext, skills: seq<Skill>, i: nat)
    requires i < |skills| && forall s :: s in skills ==> Ready(ctx, s)
    ensures forall s :: s in skills[..i + 1] ==> Ready(ctx, s)
    ensures SkillRecords(ctx, skills[..i + 1]) == SkillRecords(ctx, skills[..i])[skills[i].name := SkillRecord(ctx, skills[i])]
  {
    assert skills[..i + 1][..i] == skills[..i];
    assert forall s :: s in skills[..i + 1] ==> s in skills;
  }

  /** A skill's entry is its own record unless a later skill has the same name. */
  lemma {:induction false} SkillRecordsEntry(ctx: SkillContext, skills: seq<Skill>, k: nat)
    requires forall s :: s in skills ==> Ready(ctx, s)
    requires k < |skills| && forall j :: k < j < |skills| ==> skills[j].name != skills[k].name
    ensures SkillRecords(ctx, skills)[skills[k].name] == SkillRecord(ctx, skills[k])
    decreases |skills|
  {
    if k < |skills| - 1 {
      var init := skills[..|skills| - 1];
      assert init[k] == skills[k];
      SkillRecordsEntry(ctx, init, k);
    }
  }

  /** With distinct names, every dictionary skill has exactly its own record. */
  lemma SkillRecordsDistinct(ctx: SkillContext, skills: seq<Skill>)
    requires forall s :: s in skills ==> Ready(ctx, s)
    requires forall i, j :: 0 <= i < j < |skills| ==> skills[i].name != skills[j].name
    ensures forall k :: 0 <= k < |skills| ==> SkillRecords(ctx, skills)[skills[k].name] == SkillRecord(ctx, skills[k])
  {
    forall k | 0 <= k < |skills| ensures SkillRecords(ctx, skills)[skills[k].name] == SkillRecord(ctx, skills[k]) {
      SkillRecordsEntry(ctx, skills, k);
    }
  }

  // ---------------------------------------------------------------------------
  // The custom-ability effect

  function AbilityChange(skill: Skill, ability: string): Change
  {
    Change("data.skills." + skill.name + ".ability", Override, ability, "20")
  }

  /** The changes the loop over `skills` adds, in order: one per skill whose custom
      ability is set (a non-empty ability name). */
  function AbilityChanges(ctx: SkillContext, skills: seq<Skill>): (changes: seq<Change>)
    ensures |changes| <= |skills|
    ensures forall c :: c in changes ==>
              && c.mode == Override && c.priority == "20"
              && exists s :: s in skills && c.key == "data.skills." + s.name + ".ability"
  {
    if skills == [] then []
    else
      var before := AbilityChanges(ctx, skills[..|skills| - 1]);
      assert forall s :: s in skills[..|skills| - 1] ==> s in skills;
      before + AbilityChangeOf(ctx, skills[|skills| - 1])
  }

  /** The change one skill adds to the ability effect, if any. */
  function AbilityChangeOf(ctx: SkillContext, skill: Skill): seq<Change>
  {
    if SetsAbility(ctx, skill)
    then [AbilityChange(skill, GetCustomSkillAbility(ctx.dict, ctx.characterValues, skill).value)]
    else []
  }

  lemma AbilityChangesStep(ctx: SkillContext, skills: seq<Skill>, i: nat)
    requires i < |skills|
    ensures AbilityChanges(ctx, skills[..i + 1]) == AbilityChanges(ctx, skills[..i]) + AbilityChangeOf(ctx, skills[i])
  {
    assert skills[..i + 1][..i] == skills[..i];
  }

  /** The skill has a custom ability, and it is a non-empty name (`if (customAbility)`). */
  predicate SetsAbility(ctx: SkillContext, skill: Skill)
  {
    GetCustomSkillAbility(ctx.dict, ctx.characterValues, skill).Some?
    && GetCustomSkillAbility(ctx.dict, ctx.characterValues, skill).value != ""
  }

  /** A skill adds one change exactly when it sets an ability: the override of
      its `ability` key with the custom ability's name. */
  lemma AbilityChangeOfSpec(ctx: SkillContext, skill: Skill)
    ensures |AbilityChangeOf(ctx, skill)| <= 1
    ensures AbilityChangeOf(ctx, skill) != [] <==> SetsAbility(ctx, skill)
    ensures SetsAbility(ctx, skill) ==>
              AbilityChangeOf(ctx, skill)
              == [AbilityChange(skill, GetCustomSkillAbility(ctx.dict, ctx.characterValues, skill).value)]
  {
  }

  /** Where the change of `skills[i]` lands: after those of the skills before it. */
  function ChangePos(ctx: SkillContext, skills: seq<Skill>, i: nat): nat
    requires i <= |skills|
  {
    |AbilityChanges(ctx, skills[..i])|
  }

  /** The changes of a shorter prefix of the skills begin those of a longer one. */
  lemma {:induction false} AbilityChangesPrefix(ctx: SkillContext, skills: seq<Skill>, i: nat, j: nat)
    requires i <= j <= |skills|
    ensures AbilityChanges(ctx, skills[..i]) <= AbilityChanges(ctx, skills[..j])
    decreases j - i
  {
    if i < j {
      AbilityChangesStep(ctx, skills, j - 1);
      AbilityChangesPrefix(ctx, skills, i, j - 1);
      PrefixOfAppend(AbilityChanges(ctx, skills[..i]), AbilityChanges(ctx, skills[..j - 1]),
                     AbilityChangeOf(ctx, skills[j - 1]));
    }
  }

  lemma PrefixOfPrefix<T>(s: seq<T>, n: nat, i: nat)
    requires i < n <= |s|
    ensures s[..n][..i] == s[..i] && s[..n][i] == s[i]
  {
  }

  lemma PrefixOfAppend<T>(a: seq<T>, b: seq<T>, c: seq<T>)
    requires a <= b
    ensures a <= b + c
  {
    assert (b + c)[..|a|] == b[..|a|];
  }

  /** A skill that sets an ability has its own change, holding that ability, at its
      position. */
  lemma AbilityChangePlaced(ctx: SkillContext, skills: seq<Skill>, i: nat)
    requires i < |skills| && SetsAbility(ctx, skills[i])
    ensures ChangePos(ctx, skills, i) < |AbilityChanges(ctx, skills)|
    ensures AbilityChanges(ctx, skills)[ChangePos(ctx, skills, i)]
            == AbilityChange(skills[i], GetCustomSkillAbility(ctx.dict, ctx.characterValues, skills[i]).value)
  {
    AbilityChangesStep(ctx, skills, i);
    AbilityChangesPrefix(ctx, skills, i + 1, |skills|);
    assert skills[..|skills|] == skills;
  }

  /** Changes come in skill order. */
  lemma AbilityChangesOrdered(ctx: SkillContext, skills: seq<Skill>, i: nat, j: nat)
    requires i < j <= |skills| && SetsAbility(ctx, skills[i])
    ensures ChangePos(ctx, skills, i) < ChangePos(ctx, skills, j)
  {
    AbilityChangesStep(ctx, skills, i);
    AbilityChangesPrefix(ctx, skills, i + 1, j);
  }

  /** Every change is the change of some skill that sets an ability. */
  lemma {:induction false} AbilityChangeCovered(ctx: SkillContext, skills: seq<Skill>, k: nat)
    requires k < |AbilityChanges(ctx, skills)|
    ensures exists i :: 0 <= i < |skills| && SetsAbility(ctx, skills[i]) && ChangePos(ctx, skills, i) == k
                        && AbilityChanges(ctx, skills)[k]
                           == AbilityChange(skills[i], GetCustomSkillAbility(ctx.dict, ctx.characterValues, skills[i]).value)
    decreases |skills|
  {
    var n := |skills| - 1;
    var init := skills[..n];
    AbilityChangesStep(ctx, skills, n);
    assert skills[..n + 1] == skills;
    if k < |AbilityChanges(ctx, init)| {
      AbilityChangeCovered(ctx, init, k);
      var i :| 0 <= i < |init| && SetsAbility(ctx, init[i]) && ChangePos(ctx, init, i) == k;
      PrefixOfPrefix(skills, n, i);
      AbilityChangePlaced(ctx, skills, i);
    } else {
      assert SetsAbility(ctx, skills[n]) && ChangePos(ctx, skills, n) == k;
      AbilityChangePlaced(ctx, skills, n);
    }
  }

  /** The ability changes are exactly one per skill that sets an ability, in skill
      order: such a skill's change (keyed by its own name, holding its custom
      ability) sits at its position, positions grow with the skills, and every
      change is the change of one of them. */
  lemma AbilityChangesSpec(ctx: SkillContext, skills: seq<Skill>)
    ensures forall i :: 0 <= i < |skills| && SetsAbility(ctx, skills[i]) ==>
              && ChangePos(ctx, skills, i) < |AbilityChanges(ctx, skills)|
              && AbilityChanges(ctx, skills)[ChangePos(ctx, skills, i)]
                 == AbilityChange(skills[i], GetCustomSkillAbility(ctx.dict, ctx.characterValues, skills[i]).value)
    ensures forall i, j :: 0 <= i < j < |skills| && SetsAbility(ctx, skills[i]) ==>
              ChangePos(ctx, skills, i) < ChangePos(ctx, skills, j)
    ensures forall c :: c in AbilityChanges(ctx, skills) ==>
              exists i :: 0 <= i < |skills| && SetsAbility(ctx, skills[i])
                          && c == AbilityChange(skills[i], GetCustomSkillAbility(ctx.dict, ctx.characterValues, skills[i]).value)
  {
    forall i | 0 <= i < |skills| && SetsAbility(ctx, skills[i])
      ensures ChangePos(ctx, skills, i) < |AbilityChanges(ctx, skills)|
      ensures AbilityChanges(ctx, skills)[ChangePos(ctx, skills, i)]
              == AbilityChange(skills[i], GetCustomSkillAbility(ctx.dict, ctx.characterValues, skills[i]).value)
    {
      AbilityChangePlaced(ctx, skills, i);
    }
    forall i, j | 0 <= i < j < |skills| && SetsAbility(ctx, skills[i])
      ensures ChangePos(ctx, skills, i) < ChangePos(ctx, skills, j)
    {
      AbilityChangesOrdered(ctx, skills, i, j);
    }
    forall c | c in AbilityChanges(ctx, skills)
      ensures exists i :: 0 <= i < |skills| && SetsAbility(ctx, skills[i])
                          && c == AbilityChange(skills[i], GetCustomSkillAbility(ctx.dict, ctx.characterValues, skills[i]).value)
    {
      var k :| 0 <= k < |AbilityChanges(ctx, skills)| && AbilityChanges(ctx, skills)[k] == c;
      AbilityChangeCovered(ctx, skills, k);
    }
  }

  /** The first effect labelled "Skill Ability Changes". */
  function FindAbilityEffect(effects: seq<Effect>): (r: Option<nat>)
    ensures r.Some? ==> r.value < |effects| && effects[r.value].labelText == ABILITY_EFFECT_LABEL
    ensures r.Some? ==> forall j :: 0 <= j < r.value ==> effects[j].labelText != ABILITY_EFFECT_LABEL
    ensures r.None? <==> forall j :: 0 <= j < |effects| ==> effects[j].labelText != ABILITY_EFFECT_LABEL
  {
    FindIndex(effects, (e: Effect) => e.labelText == ABILITY_EFFECT_LABEL)
  }

  /** The character the skills are imported into: its flags and its effects. */
  class Character {
    var flags: map<string, FlagValue>
    var effects: seq<Effect>

    constructor (flags: map<string, FlagValue>, effects: seq<Effect>)
      ensures this.flags == flags && this.effects == effects
    {
      this.flags := flags;
      this.effects := effects;
    }
  }

  /** Once the effect list has no labelled effect, appending one makes that the
      first labelled effect. */
  lemma FindAbilityEffectAfterAppend(effects: seq<Effect>, e: Effect)
    requires FindAbilityEffect(effects).None? && e.labelText == ABILITY_EFFECT_LABEL
    ensures FindAbilityEffect(effects + [e]) == Some(|effects|)
  {
    var r := FindAbilityEffect(effects + [e]);
    assert (effects + [e])[|effects|] == e;
  }

  // ---------------------------------------------------------------------------
  // setSpecial

  predicate GrantsSilverTongue(klass: CharacterClass)
  {
    klass.subclassFeatures.Some?
    && exists f :: f in klass.subclassFeatures.value && f.name == SILVER_TONGUE && klass.level >= f.requiredLevel
  }

  predicate AnySilverTongue(classes: seq<CharacterClass>)
  {
    exists c :: c in classes && GrantsSilverTongue(c)
  }

  function WithMinimum(entries: map<string, SkillEntry>, key: string): (r: map<string, SkillEntry>)
    requires key in entries
    ensures r.Keys == entries.Keys
  {
    entries[key := entries[key].(bonuses := entries[key].bonuses.(minimum := Some(10)))]
  }

  /** Perception and Deception with a minimum of 10. */
  function WithSilverTongue(entries: map<string, SkillEntry>): (r: map<string, SkillEntry>)
    requires "per" in entries && "dec" in entries
    ensures r.Keys == entries.Keys
  {
    WithMinimum(WithMinimum(entries, "per"), "dec")
  }

  /** Granting the minimums a second time changes nothing. */
  lemma WithSilverTongueIdempotent(entries: map<string, SkillEntry>)
    requires "per" in entries && "dec" in entries
    ensures WithSilverTongue(WithSilverTongue(entries)) == WithSilverTongue(entries)
  {
  }

  /** What `setSpecial` makes of the entries: with Silver Tongue, Perception and
      Deception get a minimum of 10; every other entry and field stays. */
  function SilverTongueMinimums(classes: seq<CharacterClass>, entries: map<string, SkillEntry>)
    : (r: map<string, SkillEntry>)
    requires AnySilverTongue(classes) ==> "per" in entries && "dec" in entries
    ensures r.Keys == entries.Keys
    ensures forall k :: k in entries && k != "per" && k != "dec" ==> r[k] == entries[k]
    ensures !AnySilverTongue(classes) ==> r == entries
    ensures AnySilverTongue(classes) ==>
              forall k :: k in entries && (k == "per" || k == "dec") ==>
                r[k] == entries[k].(bonuses := entries[k].bonuses.(minimum := Some(10)))
  {
    if AnySilverTongue(classes) then WithSilverTongue(entries) else entries
  }

  lemma SilverTongueStep(classes: seq<CharacterClass>, i: nat, entries: map<string, SkillEntry>)
    requires i < |classes|
    requires AnySilverTongue(classes) ==> "per" in entries && "dec" in entries
    ensures AnySilverTongue(classes[..i]) ==> AnySilverTongue(classes)
    ensures GrantsSilverTongue(classes[i]) ==> AnySilverTongue(classes)
    ensures GrantsSilverTongue(classes[i]) ==>
              SilverTongueMinimums(classes[..i + 1], entries) == WithSilverTongue(SilverTongueMinimums(classes[..i], entries))
    ensures !GrantsSilverTongue(classes[i]) ==>
              SilverTongueMinimums(classes[..i + 1], entries) == SilverTongueMinimums(classes[..i], entries)
  {
    assert classes[..i + 1] == classes[..i] + [classes[i]];
    assert classes[i] in classes;
    assert forall c :: c in classes[..i] ==> c in classes;
    if GrantsSilverTongue(classes[i]) {
      assert classes[i] in classes[..i + 1];
      if AnySilverTongue(classes[..i]) {
        WithSilverTongueIdempotent(entries);
      }
    } else {
      assert forall c :: c in classes[..i + 1] ==> c in classes[..i] || c == classes[i];
    }
  }

  /** The result object of `getSkills`, whose entries `setSpecial` updates in place. */
  class SkillTable {
    var entries: map<string, SkillEntry>

    constructor (entries: map<string, SkillEntry>)
      ensures this.entries == entries
    {
      this.entries := entries;
    }

    /** `setSpecial`. */
    method SetSpecial(classes: seq<CharacterClass>)
      requires AnySilverTongue(classes) ==> "per" in entries && "dec" in entries
      modifies this
      ensures entries == SilverTongueMinimums(classes, old(entries))
    {
      for i := 0 to |classes|
        invariant entries == SilverTongueMinimums(classes[..i], old(entries))
      {
        SilverTongueStep(classes, i, old(entries));
        var klass := classes[i];
        if klass.subclassFeatures.Some? {
          var silverTongue := exists f :: f in klass.subclassFeatures.value && f.name == SILVER_TONGUE
                                          && klass.level >= f.requiredLevel;
          if silverTongue {
            entries := WithSilverTongue(entries);
          }
        }
      }
      assert classes[..|classes|] == classes;
    }
  }

  // ---------------------------------------------------------------------------
  // getSkills

  /** The change lists of `effects`, one per effect. */
  ghost function ChangesOf(effects: seq<Effect>): (r: seq<seq<Change>>)
    reads effects
    ensures |r| == |effects| && forall j :: 0 <= j < |effects| ==> r[j] == effects[j].changes
  {
    if effects == [] then [] else ChangesOf(effects[..|effects| - 1]) + [effects[|effects| - 1].changes]
  }

  /** The character's effects once the ability overrides `pending` were added to
      `before`, whose change lists were `beforeChanges` and whose first labelled
      effect is `k`: the labelled effect got them, or a new labelled effect made
      from `shell`, without durations, holds them; no other change list changed.
      The steps below also keep every existing effect's durations. */
  ghost predicate AbilityEffectsAdded(character: Character, before: seq<Effect>, beforeChanges: seq<seq<Change>>,
                                      k: Option<nat>, shell: seq<Change>, pending: seq<Change>)
    reads character, character.effects, before
  {
    && |beforeChanges| == |before|
    && (k.Some? ==>
          && k.value < |before|
          && character.effects == before
          && before[k.value].changes == beforeChanges[k.value] + pending)
    && (k.None? && pending == [] ==> character.effects == before)
    && (k.None? && pending != [] ==>
          && |character.effects| == |before| + 1
          && character.effects[..|before|] == before
          && var e := character.effects[|before|];
          && e !in before && e.labelText == ABILITY_EFFECT_LABEL && e.changes == shell + pending
          && e.specialDuration == None && e.durationSeconds == None)
    && (forall j :: 0 <= j < |before| && (k.None? || before[j] != before[k.value]) ==>
          before[j].changes == beforeChanges[j])
  }

  /** Every effect of `effects` has the durations it had in the old state. */
  twostate predicate DurationsKept(effects: seq<Effect>)
    reads effects
  {
    forall e :: e in effects ==> e.durationSeconds == old(e.durationSeconds) && e.specialDuration == old(e.specialDuration)
  }

  /** The effect the find-or-create step pushes onto, if there is one. */
  function AbilityEffectTarget(effects: seq<Effect>): (target: set<Effect>)
    ensures forall e :: e in target ==> e in effects
  {
    match FindAbilityEffect(effects)
    case Some(k) => {effects[k]}
    case None => {}
  }

  /** The find-or-create step: pushes `change` onto the first "Skill Ability
      Changes" effect, or creates that effect from `shell` holding the change. In
      terms of the effects the loop started from: the overrides added so far are
      followed by this one. */
  method AddAbilityChange(character: Character, change: Change, shell: seq<Change>,
                          ghost before: seq<Effect>, ghost beforeChanges: seq<seq<Change>>, ghost pending: seq<Change>)
    requires AbilityEffectsAdded(character, before, beforeChanges, FindAbilityEffect(before), shell, pending)
    modifies character, AbilityEffectTarget(character.effects)
    ensures character.flags == old(character.flags)
    ensures AbilityEffectsAdded(character, before, beforeChanges, FindAbilityEffect(before), shell, pending + [change])
    ensures forall e :: e in character.effects ==> e in old(character.effects) || fresh(e)
    ensures DurationsKept(old(character.effects))
    ensures forall e :: e in AbilityEffectTarget(character.effects) ==>
              e in old(AbilityEffectTarget(character.effects)) || fresh(e)
  {
    var changeIndex := FindAbilityEffect(character.effects);
    if FindAbilityEffect(before).None? && pending != [] {
      assert character.effects == before + [character.effects[|before|]];
      FindAbilityEffectAfterAppend(before, character.effects[|before|]);
    }
    if changeIndex.Some? {
      character.effects[changeIndex.value].PushChange(change);
    } else {
      var skillEffect := new Effect(ABILITY_EFFECT_LABEL, shell);
      skillEffect.PushChange(change);
      FindAbilityEffectAfterAppend(character.effects, skillEffect);
      character.effects := character.effects + [skillEffect];
    }
  }

  /** The custom-ability step of the loop for one skill: when the skill has a
      custom ability, its override goes onto the "Skill Ability Changes" effect. */
  method ApplyCustomAbility(ctx: SkillContext, skill: Skill, character: Character, shell: seq<Change>,
                            ghost before: seq<Effect>, ghost beforeChanges: seq<seq<Change>>, ghost pending: seq<Change>)
    requires AbilityEffectsAdded(character, before, beforeChanges, FindAbilityEffect(before), shell, pending)
    modifies character, AbilityEffectTarget(character.effects)
    ensures character.flags == old(character.flags)
    ensures AbilityEffectsAdded(character, before, beforeChanges, FindAbilityEffect(before), shell,
                                pending + AbilityChangeOf(ctx, skill))
    ensures forall e :: e in character.effects ==> e in old(character.effects) || fresh(e)
    ensures DurationsKept(old(character.effects))
    ensures forall e :: e in AbilityEffectTarget(character.effects) ==>
              e in old(AbilityEffectTarget(character.effects)) || fresh(e)
  {
    var customAbility := GetCustomSkillAbility(ctx.dict, ctx.characterValues, skill);
    if customAbility.Some? && customAbility.value != "" {
      AddAbilityChange(character, AbilityChange(skill, customAbility.value), shell, before, beforeChanges, pending);
    } else {
      assert pending + AbilityChangeOf(ctx, skill) == pending;
    }
  }

  /** The per-skill loop of `getSkills`: one entry per dictionary skill, and the
      custom-ability overrides collected on the "Skill Ability Changes" effect. */
  method ImportSkills(ctx: SkillContext, character: Character, shell: seq<Change>)
    returns (result: map<string, SkillEntry>)
    requires forall s :: s in ctx.dict.skills ==> Ready(ctx, s)
    modifies character, AbilityEffectTarget(character.effects)
    ensures result == SkillRecords(ctx, ctx.dict.skills)
    ensures character.flags == old(character.flags)
    ensures AbilityEffectsAdded(character, old(character.effects), old(ChangesOf(character.effects)),
                                FindAbilityEffect(old(character.effects)), shell, AbilityChanges(ctx, ctx.dict.skills))
    ensures forall e :: e in character.effects ==> e in old(character.effects) || fresh(e)
    ensures DurationsKept(old(character.effects))
  {
    var skills := ctx.dict.skills;
    ghost var before := character.effects;
    ghost var beforeChanges := ChangesOf(character.effects);
    result := map[];
    for i := 0 to |skills|
      invariant character.flags == old(character.flags)
      invariant result == SkillRecords(ctx, skills[..i])
      invariant AbilityEffectsAdded(character, before, beforeChanges, FindAbilityEffect(before), shell,
                                    AbilityChanges(ctx, skills[..i]))
      invariant before == old(character.effects)
      invariant forall e :: e in character.effects ==> e in old(character.effects) || fresh(e)
      invariant forall e :: e in AbilityEffectTarget(character.effects) ==> e in AbilityEffectTarget(before) || fresh(e)
      invariant DurationsKept(before)
    {
      AbilityChangesStep(ctx, skills, i);
      SkillRecordsStep(ctx, skills, i);
      var skill := skills[i];
      ApplyCustomAbility(ctx, skill, character, shell, before, beforeChanges, AbilityChanges(ctx, skills[..i]));
      result := result[skill.name := SkillRecord(ctx, skill)];
    }
    assert skills[..|skills|] == skills;
  }

  /** The result object of the loop, handed to `setSpecial`. */
  method SpecialSkills(entries: map<string, SkillEntry>, classes: seq<CharacterClass>) returns (table: SkillTable)
    requires AnySilverTongue(classes) ==> "per" in entries && "dec" in entries
    ensures fresh(table)
    ensures table.entries == SilverTongueMinimums(classes, entries)
  {
    table := new SkillTable(entries);
    table.SetSpecial(classes);
  }

  /** `if (!addEffects) character.flags['skill-customization-5e'] = {}`. */
  method FlagForCustomization(character: Character, daeActive: bool)
    modifies character
    ensures character.flags ==
              if daeActive then old(character.flags) else old(character.flags)[SKILL_CUSTOMIZATION_FLAG := EmptyRecord]
    ensures character.effects == old(character.effects)
  {
    if !daeActive {
      character.flags := character.flags[SKILL_CUSTOMIZATION_FLAG := EmptyRecord];
    }
  }

  /** `getSkills`: the per-skill loop followed by `setSpecial` (the custom-skills
      module being inactive, `getCustomSkills` returns the result as it is). When
      the effects module is inactive the character is flagged for the skill
      customization module instead. */
  method GetSkills(ctx: SkillContext, classes: seq<CharacterClass>, character: Character, daeActive: bool,
                   shell: seq<Change>)
    returns (table: SkillTable)
    requires forall s :: s in ctx.dict.skills ==> Ready(ctx, s)
    requires AnySilverTongue(classes) ==>
               (exists s :: s in ctx.dict.skills && s.name == "per") && (exists s :: s in ctx.dict.skills && s.name == "dec")
    modifies character, AbilityEffectTarget(character.effects)
    ensures fresh(table)
    ensures table.entries == SilverTongueMinimums(classes, SkillRecords(ctx, ctx.dict.skills))
    ensures character.flags ==
              if daeActive then old(character.flags) else old(character.flags)[SKILL_CUSTOMIZATION_FLAG := EmptyRecord]
    ensures AbilityEffectsAdded(character, old(character.effects), old(ChangesOf(character.effects)),
                                FindAbilityEffect(old(character.effects)), shell, AbilityChanges(ctx, ctx.dict.skills))
    ensures forall e :: e in character.effects ==> e in old(character.effects) || fresh(e)
    ensures DurationsKept(old(character.effects))
  {
    FlagForCustomization(character, daeActive);
    var result := ImportSkills(ctx, character, shell);
    assert AnySilverTongue(classes) ==> "per" in result && "dec" in result;
    table := SpecialSkills(result, classes);
  }
}
