/** The monster-feature "over-time" effect builder: reads a feature's rules text,
    attaches a status change when a saving-throw phrase names a condition, and
    attaches a recurring damage-and-save change when the text says the damage
    recurs at the start or end of each turn.

    Collaborators the builder calls but does not define are parameters:
    the composite condition regex (`search`, an optional tuple of capture groups),
    `getFeatSave`, `getDamage`, `generateStatusEffectChange`, the changes that
    `baseMonsterFeatureEffect` puts in a fresh effect, and the damage-type/condition
    dictionary. */
module OverTimeEffect {
  import opened Wrappers
  import opened JsArrays
  import opened TextSearch
  import opened Host

  const DEFAULT_DURATION: nat := 60
  const OVER_TIME_KEY := "flags.midi-qol.OverTime"
  const ACTOR_FLAG := "monsterMunch.overTimeEffect"
  const FLAG_DAMAGE := "monsterMunch.overTime.damage"
  const FLAG_DAMAGE_TYPE := "monsterMunch.overTime.damageType"
  const FLAG_SAVE_REMOVE := "monsterMunch.overTime.saveRemove"
  const FLAG_DURATION := "monsterMunch.overTime.durationSeconds"
  const FLAG_SAVE_DAMAGE := "monsterMunch.overTime.saveDamage"
  const CURLY_APOSTROPHE: char := '\U{2019}'

  /** The ways the builder throws a TypeError. */
  datatype OverTimeError =
    | MissingConditionWord   // `match[4].toLowerCase()` with capture group 4 unmatched
    | NoDamageParts          // `dmg.parts[0][1]` with no damage parts

  // ---------------------------------------------------------------------------
  // The recurring-damage change record

  datatype OverTimeArgs = OverTimeArgs(
    name: string, turn: string, damage: string, damageType: string,
    saveAbility: string, saveRemove: string, saveDamage: string, dc: int)

  function TurnLabel(name: string, turn: string): string
  {
    name + " (" + Capitalize(turn) + " of Turn)"
  }

  /** The `label=…,damageRoll=` field that follows `turn=end,`. */
  function LabelField(a: OverTimeArgs): string
  {
    "label=" + TurnLabel(a.name, a.turn) + ",damageRoll="
  }

  /** The `,damageType=…,saveRemove=…` fields that follow the damage roll. */
  function DamageTypeField(a: OverTimeArgs): string
  {
    ",damageType=" + a.damageType + ",saveRemove=" + a.saveRemove
  }

  /** The `,saveDC=…,saveAbility=…,saveDamage=…` fields that end the value. */
  function SaveField(a: OverTimeArgs): string
  {
    ",saveDC=" + IntToString(a.dc) + ",saveAbility=" + a.saveAbility + ",saveDamage=" + a.saveDamage
  }

  /** `overTime`: the change that makes the rules engine roll damage and a save each
      turn. The value always begins `turn=end,`, whatever `turn` is; `turn` only
      shows, capitalised, inside the label. The label, the damage roll with the
      damage type and save removal, and the save fields follow one another and
      make up the whole value. */
  function OverTime(a: OverTimeArgs): (c: Change)
    ensures c.key == OVER_TIME_KEY && c.mode == Override && c.priority == "20"
    ensures "turn=end," <= c.value
    ensures OccursAt(c.value, LabelField(a), 9)
    ensures OccursAt(c.value, a.damage + DamageTypeField(a), 9 + |LabelField(a)|)
    ensures OccursAt(c.value, SaveField(a), |c.value| - |SaveField(a)|)
    ensures |c.value| == 9 + |LabelField(a)| + |a.damage| + |DamageTypeField(a)| + |SaveField(a)|
  {
    var labelPart, damagePart, savePart := LabelField(a), a.damage + DamageTypeField(a), SaveField(a);
    var value := "turn=end," + labelPart + damagePart + savePart;
    assert value[9..9 + |labelPart|] == labelPart;
    assert value[9 + |labelPart|..9 + |labelPart| + |damagePart|] == damagePart;
    assert value[|value| - |savePart|..] == savePart;
    Change(OVER_TIME_KEY, Override, value, "20")
  }

  /** Two turn words that capitalise alike give the same change: the turn has no
      other influence on the record. */
  lemma OverTimeTurnOnlyInLabel(a: OverTimeArgs, turn: string)
    requires Capitalize(turn) == Capitalize(a.turn)
    ensures OverTime(a.(turn := turn)) == OverTime(a)
  {
  }

  // ---------------------------------------------------------------------------
  // startOrEnd: /at the (start|end) of each/i

  const START_PHRASE := "at the start of each"
  const END_PHRASE := "at the end of each"

  /** The lower-case pattern `p` occurs at `i` in `s` when ASCII case is ignored. */
  predicate OccursAtIgnoringCase(s: string, p: string, i: int)
  {
    0 <= i && i + |p| <= |s| && Lower(s[i..i + |p|]) == p
  }

  predicate TurnPhraseAt(text: string, i: int)
  {
    OccursAtIgnoringCase(text, START_PHRASE, i) || OccursAtIgnoringCase(text, END_PHRASE, i)
  }

  function FindTurnPhrase(text: string, from: nat): (r: Option<nat>)
    ensures r.Some? ==> from <= r.value && TurnPhraseAt(text, r.value)
    ensures forall j :: from <= j && (r.None? || j < r.value) ==> !TurnPhraseAt(text, j)
    decreases |text| - from
  {
    if from >= |text| then None
    else if TurnPhraseAt(text, from) then Some(from)
    else FindTurnPhrase(text, from + 1)
  }

  /** The capture group of a match at `i`, in the text's own casing. */
  function TurnWordAt(text: string, i: int): string
    requires TurnPhraseAt(text, i)
  {
    if OccursAtIgnoringCase(text, START_PHRASE, i) then text[i + 7..i + 12] else text[i + 7..i + 10]
  }

  lemma LowerOfSlice(s: string, i: nat, n: nat, a: nat, b: nat)
    requires i + n <= |s| && a <= b <= n
    ensures Lower(s[i..i + n])[a..b] == Lower(s[i + a..i + b])
  {
    var u := Lower(s[i..i + n])[a..b];
    var v := Lower(s[i + a..i + b]);
    assert |u| == |v| == b - a;
    forall x | 0 <= x < b - a ensures u[x] == v[x] {
      var w := s[i..i + n];
      assert Lower(w)[a + x] == LowerChar(w[a + x]);
      assert w[a + x] == s[i + a + x];
      assert s[i + a..i + b][x] == s[i + a + x];
    }
  }

  /** `startOrEnd`: the word captured by the first case-insensitive
      "at the start|end of each", or `undefined`. */
  function StartOrEnd(text: string): (r: Option<string>)
    ensures r.None? <==> forall i :: !TurnPhraseAt(text, i)
    ensures r.Some? ==> Lower(r.value) == "start" || Lower(r.value) == "end"
  {
    match FindTurnPhrase(text, 0)
    case None => None
    case Some(i) =>
      TurnWordLower(text, i);
      Some(TurnWordAt(text, i))
  }

  /** There is a turn word exactly when the text has the phrase; it is the word of
      the first occurrence, and it reads "start" or "end" once lower-cased. */
  lemma StartOrEndSpec(text: string)
    ensures var r := StartOrEnd(text);
            && (r.None? <==> forall i :: !TurnPhraseAt(text, i))
            && (r.Some? ==> exists i :: TurnPhraseAt(text, i) && (forall j :: 0 <= j < i ==> !TurnPhraseAt(text, j))
                                       && r.value == TurnWordAt(text, i))
            && (r.Some? ==> Lower(r.value) == "start" || Lower(r.value) == "end")
  {
    match FindTurnPhrase(text, 0)
    case None =>
    case Some(i) => TurnWordLower(text, i);
  }

  /** The captured word lower-cases to "start" or "end". */
  lemma TurnWordLower(text: string, i: int)
    requires TurnPhraseAt(text, i)
    ensures Lower(TurnWordAt(text, i)) == "start" || Lower(TurnWordAt(text, i)) == "end"
  {
    if OccursAtIgnoringCase(text, START_PHRASE, i) {
      LowerOfSlice(text, i, |START_PHRASE|, 7, 12);
      assert START_PHRASE[7..12] == "start" by {
        forall k | 0 <= k < 5 ensures START_PHRASE[7..12][k] == "start"[k] { }
      }
    } else {
      LowerOfSlice(text, i, |END_PHRASE|, 7, 10);
      assert END_PHRASE[7..10] == "end" by {
        forall k | 0 <= k < 3 ensures END_PHRASE[7..10][k] == "end"[k] { }
      }
    }
  }

  // ---------------------------------------------------------------------------
  // getDuration: /for (\d+) minute/, then /for (\d+) round/, else 60

  /** A match of `/for (\d+) <unit>/` starts at `i`. Because `\d+` is followed by a
      space, only the maximal digit run can be the one that matches. */
  predicate CountPhraseAt(text: string, unit: string, i: nat)
  {
    OccursAt(text, "for ", i)
    && DigitRunLength(text, i + 4) > 0
    && OccursAt(text, " " + unit, i + 4 + DigitRunLength(text, i + 4))
  }

  predicate FirstCountPhrase(text: string, unit: string, i: nat)
  {
    CountPhraseAt(text, unit, i) && forall j: nat :: j < i ==> !CountPhraseAt(text, unit, j)
  }

  /** The number captured by the match at `i`. */
  function CountAt(text: string, i: nat): nat
    requires i + 4 <= |text|
  {
    var n := DigitRunLength(text, i + 4);
    var digits := text[i + 4..i + 4 + n];
    assert AllDigits(digits);
    DecimalValue(digits)
  }

  function FindCountPhrase(text: string, unit: string, from: nat): (r: Option<nat>)
    ensures r.Some? ==> from <= r.value && CountPhraseAt(text, unit, r.value)
    ensures forall j: nat :: from <= j && (r.None? || j < r.value) ==> !CountPhraseAt(text, unit, j)
    decreases |text| - from
  {
    if from + 4 > |text| then None
    else if CountPhraseAt(text, unit, from) then Some(from)
    else FindCountPhrase(text, unit, from + 1)
  }

  /** `getDuration`: seconds from the first "for N minute", else from the first
      "for N round", else the default. A minute phrase wins wherever a round
      phrase stands. */
  function GetDuration(text: string): (seconds: nat)
    ensures (exists i: nat :: CountPhraseAt(text, "minute", i)) ==>
              exists i: nat :: FirstCountPhrase(text, "minute", i) && seconds == CountAt(text, i) * 60
    ensures (forall i: nat :: !CountPhraseAt(text, "minute", i)) && (exists i: nat :: CountPhraseAt(text, "round", i)) ==>
              exists i: nat :: FirstCountPhrase(text, "round", i) && seconds == CountAt(text, i) * 6
    ensures (forall i: nat :: !CountPhraseAt(text, "minute", i) && !CountPhraseAt(text, "round", i)) ==>
              seconds == DEFAULT_DURATION
  {
    match FindCountPhrase(text, "minute", 0)
    case Some(i) => CountAt(text, i) * 60
    case None =>
      match FindCountPhrase(text, "round", 0)
      case Some(i) => CountAt(text, i) * 6
      case None => DEFAULT_DURATION
  }

  lemma {:induction false} DigitRunOfDigits(pre: string, ds: string, rest: string)
    requires AllDigits(ds)
    requires rest == [] || !IsDigit(rest[0])
    ensures DigitRunLength(pre + ds + rest, |pre|) == |ds|
    decreases |ds|
  {
    if ds != [] {
      assert pre + ds + rest == (pre + ds[..1]) + ds[1..] + rest;
      DigitRunOfDigits(pre + ds[..1], ds[1..], rest);
    }
  }

  /** A rendered "for N minute" phrase at the start of the text is read back as
      N minutes, whatever follows it. */
  lemma MinutePhraseRoundTrip(n: nat, rest: string)
    ensures GetDuration("for " + NatToString(n) + " minute" + rest) == n * 60
  {
    var ds := NatToString(n);
    var text := "for " + ds + " minute" + rest;
    assert text == "for " + ds + (" minute" + rest);
    DigitRunOfDigits("for ", ds, " minute" + rest);
    assert text[4..4 + |ds|] == ds;
    assert OccursAt(text, " minute", 4 + |ds|) by {
      assert text[4 + |ds|..4 + |ds| + 7] == " minute";
    }
    assert OccursAt(text, "for ", 0) by {
      assert text[..4] == "for ";
    }
    assert CountPhraseAt(text, "minute", 0);
    NatToStringRoundTrip(n);
    assert CountAt(text, 0) == n;
  }

  // ---------------------------------------------------------------------------
  // getOvertimeDamage

  const TAKING := "taking"

  datatype DamagePart = DamagePart(formula: string, damageType: string)

  lemma NoOccurrenceInSlice(s: string, p: string, a: nat, b: nat)
    requires a <= b <= |s|
    requires forall j :: a <= j && j + |p| <= b ==> !OccursAt(s, p, j)
    ensures !Contains(s[a..b], p)
  {
    var t := s[a..b];
    forall k | 0 <= k ensures !OccursAt(t, p, k) {
      if k + |p| <= |t| {
        var u, v := t[k..k + |p|], s[a + k..a + k + |p|];
        forall x | 0 <= x < |p| ensures u[x] == v[x] {
          assert t[k + x] == s[a + k + x];
        }
        assert u == v;
        assert !OccursAt(s, p, a + k);
      }
    }
  }

  lemma SplitAround(s: string, p: string, i: nat, end: nat)
    requires OccursAt(s, p, i) && i + |p| <= end <= |s|
    ensures s == s[..i] + p + s[i + |p|..end] + s[end..]
  {
    assert s[i..] == s[i..i + |p|] + s[i + |p|..];
    assert s[i + |p|..] == s[i + |p|..end] + s[end..];
    assert s == s[..i] + s[i..];
  }

  lemma OccursAtIsPrefix(s: string, p: string, k: nat)
    requires OccursAt(s, p, k)
    ensures p <= s[k..]
  {
    assert s[k..][..|p|] == s[k..k + |p|];
  }

  /** The pieces `text.split("taking")` cuts around its second element. */
  lemma TakingPieces(text: string) returns (i: nat, end: nat)
    requires Contains(text, TAKING)
    ensures i + 6 <= end <= |text|
    ensures text == text[..i] + TAKING + text[i + 6..end] + text[end..]
    ensures !Contains(text[..i], TAKING) && !Contains(text[i + 6..end], TAKING)
    ensures end == |text| || TAKING <= text[end..]
    ensures IndexOfFrom(text, TAKING, 0) == Some(i)
    ensures end == (match IndexOfFrom(text, TAKING, i + 6) case Some(j) => j case None => |text|)
  {
    i := IndexOfFrom(text, TAKING, 0).value;
    var next := IndexOfFrom(text, TAKING, i + 6);
    end := if next.Some? then next.value else |text|;
    SplitAround(text, TAKING, i, end);
    NoOccurrenceInSlice(text, TAKING, 0, i);
    assert text[0..i] == text[..i];
    NoOccurrenceInSlice(text, TAKING, i + 6, end);
    if next.Some? {
      OccursAtIsPrefix(text, TAKING, end);
    }
  }

  /** `text.split("taking")[1]`. */
  function TakingSegment(text: string): (seg: string)
    requires Contains(text, TAKING)
    ensures seg <= text[IndexOfFrom(text, TAKING, 0).value + 6..]
  {
    var i := IndexOfFrom(text, TAKING, 0).value;
    var next := IndexOfFrom(text, TAKING, i + 6);
    var end := if next.Some? then next.value else |text|;
    text[i + 6..end]
  }

  /** The segment is the text strictly between the first and the second "taking",
      or to the end of the text when there is only one. */
  lemma TakingSegmentSpec(text: string)
    requires Contains(text, TAKING)
    ensures var seg := TakingSegment(text);
            && (exists pre, post :: text == pre + TAKING + seg + post && !Contains(pre, TAKING)
                                   && (post == [] || TAKING <= post))
            && !Contains(seg, TAKING)
  {
    var i, end := TakingPieces(text);
    var seg := TakingSegment(text);
    assert seg == text[i + 6..end];
    assert text == text[..i] + TAKING + seg + text[end..];
  }

  /** `getOvertimeDamage`: the damage parts of the "taking" segment, but only when
      the text has "taking" and one of the failed-save phrases. */
  function GetOvertimeDamage(text: string, getDamage: string -> seq<DamagePart>): (r: Option<seq<DamagePart>>)
    ensures r.Some? <==> Contains(text, TAKING)
                         && (Contains(text, "on a failed save") || Contains(text, "damage on a failure"))
    ensures r.Some? ==> r.value == getDamage(TakingSegment(text))
  {
    if Contains(text, TAKING) && (Contains(text, "on a failed save") || Contains(text, "damage on a failure")) then
      Some(getDamage(TakingSegment(text)))
    else None
  }

  // ---------------------------------------------------------------------------
  // Override resolution

  function PartText(p: DamagePart): string
  {
    p.formula + "[" + p.damageType + "]"
  }

  /** The default damage roll: `reduce` joining `total` and each part with " + ",
      starting from "", so a non-empty roll starts with " + ". */
  function DamageRoll(parts: seq<DamagePart>): (roll: string)
    ensures parts == [] <==> roll == ""
    ensures parts != [] ==> " + " <= roll
  {
    if parts == [] then "" else DamageRoll(parts[..|parts| - 1]) + " + " + PartText(parts[|parts| - 1])
  }

  /** Damage rolls of consecutive part lists concatenate. */
  lemma {:induction false} DamageRollAppend(a: seq<DamagePart>, b: seq<DamagePart>)
    ensures DamageRoll(a + b) == DamageRoll(a) + DamageRoll(b)
    decreases |b|
  {
    if b == [] {
      assert a + b == a;
    } else {
      assert (a + b)[..|a + b| - 1] == a + b[..|b| - 1];
      DamageRollAppend(a, b[..|b| - 1]);
    }
  }

  /** Every part contributes " + formula[type]", in order. */
  lemma DamageRollOfOne(p: DamagePart)
    ensures DamageRoll([p]) == " + " + PartText(p)
  {
    assert [p][..0] == [];
  }

  datatype Overrides = Overrides(
    damage: FlagValue, damageType: FlagValue, saveRemove: FlagValue,
    durationSeconds: FlagValue, saveDamage: FlagValue)

  function FlagOr(flags: map<string, FlagValue>, key: string, default: FlagValue): FlagValue
  {
    if key in flags then flags[key] else default
  }

  /** Each setting takes the document's flag when present, else its default; the
      default damage type reads the first part, which throws when there is none. */
  function ResolveOverrides(flags: map<string, FlagValue>, parts: seq<DamagePart>, text: string)
    : (r: Result<Overrides, OverTimeError>)
    ensures r.Failure? <==> FLAG_DAMAGE_TYPE !in flags && parts == []
    ensures r.Failure? ==> r.error == NoDamageParts
    ensures r.Success? ==>
      && r.value.damage == (if FLAG_DAMAGE in flags then flags[FLAG_DAMAGE] else Text(DamageRoll(parts)))
      && r.value.damageType == (if FLAG_DAMAGE_TYPE in flags then flags[FLAG_DAMAGE_TYPE] else Text(parts[0].damageType))
      && r.value.saveRemove == (if FLAG_SAVE_REMOVE in flags then flags[FLAG_SAVE_REMOVE] else Flag(true))
      && r.value.durationSeconds == (if FLAG_DURATION in flags then flags[FLAG_DURATION] else Number(GetDuration(text)))
      && r.value.saveDamage == (if FLAG_SAVE_DAMAGE in flags then flags[FLAG_SAVE_DAMAGE] else Text("nodamage"))
  {
    if FLAG_DAMAGE_TYPE !in flags && parts == [] then Failure(NoDamageParts)
    else
      var damageType := if FLAG_DAMAGE_TYPE in flags then flags[FLAG_DAMAGE_TYPE] else Text(parts[0].damageType);
      Success(Overrides(
        FlagOr(flags, FLAG_DAMAGE, Text(DamageRoll(parts))),
        damageType,
        FlagOr(flags, FLAG_SAVE_REMOVE, Flag(true)),
        FlagOr(flags, FLAG_DURATION, Number(GetDuration(text))),
        FlagOr(flags, FLAG_SAVE_DAMAGE, Text("nodamage"))))
  }

  // ---------------------------------------------------------------------------
  // getSpecialDuration and generateConditionEffect

  const END_OF_ITS_TURN := "until the end of its next turn"
  const END_OF_TARGETS_TURN := "until the end of the target's next turn"
  const START_OF_THE := "until the start of the"

  /** The special-duration tags that capture group 7 (the trailing text) calls for. */
  function SpecialDurationOf(trailer: Option<string>): (tags: Option<seq<string>>)
    ensures tags == Some(["turnEnd"]) <==>
              trailer.Some? && (Contains(trailer.value, END_OF_ITS_TURN) || Contains(trailer.value, END_OF_TARGETS_TURN))
    ensures tags == Some(["turnStartSource"]) <==>
              trailer.Some? && !Contains(trailer.value, END_OF_ITS_TURN) && !Contains(trailer.value, END_OF_TARGETS_TURN)
              && Contains(trailer.value, START_OF_THE)
    ensures tags.None? || tags == Some(["turnEnd"]) || tags == Some(["turnStartSource"])
  {
    match trailer
    case None => None
    case Some(t) =>
      if Contains(t, END_OF_ITS_TURN) || Contains(t, END_OF_TARGETS_TURN) then Some(["turnEnd"])
      else if Contains(t, START_OF_THE) then Some(["turnStartSource"])
      else None
  }

  /** One entry of the damage-type dictionary; conditions are the entries of kind 1. */
  datatype ConditionEntry = ConditionEntry(name: string, value: string, kind: int)

  /** The capture groups of the composite saving-throw regex: DC, ability, verb
      phrase, condition word, duration count and unit, trailing text. */
  datatype Captures = Captures(
    dc: string, ability: string, verb: string, condition: Option<string>,
    count: Option<string>, unit: Option<string>, trailer: Option<string>)

  /** What the condition step adds to the effect. */
  datatype ConditionHit = NoStatus | Status(name: string, special: Option<seq<string>>) | Dead

  predicate NamesCondition(e: ConditionEntry, word: string)
  {
    e.kind == 1 && (Lower(e.name) == Lower(word) || Lower(e.value) == Lower(word))
  }

  predicate HasConditions(entries: seq<ConditionEntry>)
  {
    exists e :: e in entries && e.kind == 1
  }

  /** The first condition entry named by `word`, ignoring case. */
  function FindCondition(entries: seq<ConditionEntry>, word: string): (r: Option<ConditionEntry>)
    ensures r.Some? ==> exists k :: 0 <= k < |entries| && entries[k] == r.value && NamesCondition(entries[k], word)
                                    && forall j :: 0 <= j < k ==> !NamesCondition(entries[j], word)
    ensures r.None? <==> forall e :: e in entries ==> !NamesCondition(e, word)
  {
    Find(entries, e => NamesCondition(e, word))
  }

  /** What `generateConditionEffect` decides for a regex result: nothing without a
      match; a TypeError when group 4 is unmatched and the dictionary has
      conditions; the first condition group 4 names (with its special duration);
      else "Dead" for the verb "die"; else nothing. */
  function ConditionStep(m: Option<Captures>, entries: seq<ConditionEntry>): (r: Result<ConditionHit, OverTimeError>)
    ensures m.None? ==> r == Success(NoStatus)
    ensures r.Failure? <==> m.Some? && m.value.condition.None? && HasConditions(entries)
    ensures r.Failure? ==> r.error == MissingConditionWord
    ensures (r.Success? && r.value.Status?) <==>
              m.Some? && m.value.condition.Some? && exists e :: e in entries && NamesCondition(e, m.value.condition.value)
    ensures r.Success? && r.value.Status? ==>
              && FindCondition(entries, m.value.condition.value).Some?
              && r.value.name == FindCondition(entries, m.value.condition.value).value.name
              && r.value.special == SpecialDurationOf(m.value.trailer)
    ensures r == Success(Dead) <==>
              m.Some? && m.value.verb == "die"
              && forall e :: e in entries && e.kind == 1 ==>
                   m.value.condition.Some? && !NamesCondition(e, m.value.condition.value)
  {
    match m
    case None => Success(NoStatus)
    case Some(c) =>
      if c.condition.None? && HasConditions(entries) then Failure(MissingConditionWord)
      else
        var found := if c.condition.Some? then FindCondition(entries, c.condition.value) else None;
        if found.Some? then Success(Status(found.value.name, SpecialDurationOf(c.trailer)))
        else if c.verb == "die" then Success(Dead)
        else Success(NoStatus)
  }

  /** "DC 15 Constitution saving throw or die." leaves group 4 unmatched (the "."
      is not a word character), so with any condition in the dictionary the code
      throws before it can reach the "die" branch. */
  lemma DieWithoutConditionWordThrows(c: Captures, entries: seq<ConditionEntry>)
    requires c.verb == "die" && c.condition.None? && HasConditions(entries)
    ensures ConditionStep(Some(c), entries) == Failure(MissingConditionWord)
  {
  }

  function ConditionChanges(hit: ConditionHit, statusChange: string -> Change): seq<Change>
  {
    match hit
    case NoStatus => []
    case Status(name, _) => [statusChange(name)]
    case Dead => [statusChange("Dead")]
  }

  function SpecialAfter(hit: ConditionHit, before: Option<seq<string>>): Option<seq<string>>
  {
    if hit.Status? && hit.special.Some? then hit.special else before
  }

  /** `getSpecialDuration`: tags the effect from capture group 7, or leaves it alone. */
  method GetSpecialDuration(effect: Effect, m: Captures)
    modifies effect
    ensures effect.specialDuration ==
              (if SpecialDurationOf(m.trailer).Some? then SpecialDurationOf(m.trailer) else old(effect.specialDuration))
    ensures effect.changes == old(effect.changes) && effect.durationSeconds == old(effect.durationSeconds)
  {
    if m.trailer.Some? && (Contains(m.trailer.value, END_OF_ITS_TURN) || Contains(m.trailer.value, END_OF_TARGETS_TURN)) {
      effect.SetSpecialDuration(["turnEnd"]);
    } else if m.trailer.Some? && Contains(m.trailer.value, START_OF_THE) {
      effect.SetSpecialDuration(["turnStartSource"]);
    }
  }

  /** `generateConditionEffect`: normalises the first curly apostrophe, runs the
      composite regex, and pushes at most one status change onto the effect. */
  method GenerateConditionEffect(effect: Effect, text: string, search: string -> Option<Captures>,
                                 entries: seq<ConditionEntry>, statusChange: string -> Change)
    returns (r: Result<ConditionHit, OverTimeError>)
    modifies effect
    ensures r == ConditionStep(search(ReplaceFirst(text, CURLY_APOSTROPHE, '\'')), entries)
    ensures r.Failure? ==> effect.changes == old(effect.changes) && effect.specialDuration == old(effect.specialDuration)
    ensures r.Success? ==> effect.changes == old(effect.changes) + ConditionChanges(r.value, statusChange)
    ensures r.Success? ==> effect.specialDuration == SpecialAfter(r.value, old(effect.specialDuration))
    ensures effect.durationSeconds == old(effect.durationSeconds)
  {
    var normalised := ReplaceFirst(text, CURLY_APOSTROPHE, '\'');
    var m := search(normalised);
    if m.None? {
      return Success(NoStatus);
    }
    var c := m.value;
    if c.condition.None? && HasConditions(entries) {
      return Failure(MissingConditionWord);
    }
    var found := if c.condition.Some? then FindCondition(entries, c.condition.value) else None;
    if found.Some? {
      effect.PushChange(statusChange(found.value.name));
      GetSpecialDuration(effect, c);
      r := Success(Status(found.value.name, SpecialDurationOf(c.trailer)));
    } else if c.verb == "die" {
      effect.PushChange(statusChange("Dead"));
      r := Success(Dead);
    } else {
      r := Success(NoStatus);
    }
  }

  // ---------------------------------------------------------------------------
  // generateOverTimeEffect

  /** What `getFeatSave` finds; a DC of 0 stands for every falsy DC. */
  datatype FeatSave = FeatSave(dc: int, ability: string)

  /** The collaborators of the builder. */
  datatype MonsterEnv = MonsterEnv(
    shell: seq<Change>,
    search: string -> Option<Captures>,
    conditions: seq<ConditionEntry>,
    statusChange: string -> Change,
    featSave: string -> FeatSave,
    getDamage: string -> seq<DamagePart>)

  /** What happens after the condition step: stop early, throw, or attach the
      recurring-damage change with a duration. */
  datatype Plan = Stop | Crash(error: OverTimeError) | Attach(change: Change, duration: FlagValue)

  function OverTimePlan(name: string, text: string, flags: map<string, FlagValue>, save: FeatSave,
                        getDamage: string -> seq<DamagePart>): (p: Plan)
    ensures p.Stop? <==> StartOrEnd(text).None? || save.dc == 0 || GetOvertimeDamage(text, getDamage).None?
    ensures p.Crash? <==>
              && StartOrEnd(text).Some? && save.dc != 0 && GetOvertimeDamage(text, getDamage).Some?
              && FLAG_DAMAGE_TYPE !in flags && GetOvertimeDamage(text, getDamage).value == []
    ensures p.Crash? ==> p.error == NoDamageParts
    ensures p.Attach? ==>
              && StartOrEnd(text).Some? && GetOvertimeDamage(text, getDamage).Some?
              && ResolveOverrides(flags, GetOvertimeDamage(text, getDamage).value, text).Success?
              && var o := ResolveOverrides(flags, GetOvertimeDamage(text, getDamage).value, text).value;
              && p.change == OverTime(OverTimeArgs(name, StartOrEnd(text).value, Render(o.damage), Render(o.damageType),
                                                   save.ability, Render(o.saveRemove), Render(o.saveDamage), save.dc))
              && p.duration == o.durationSeconds
  {
    match StartOrEnd(text)
    case None => Stop
    case Some(turn) =>
      if save.dc == 0 then Stop
      else
        match GetOvertimeDamage(text, getDamage)
        case None => Stop
        case Some(parts) =>
          match ResolveOverrides(flags, parts, text)
          case Failure(e) => Crash(e)
          case Success(o) =>
            Attach(OverTime(OverTimeArgs(name, turn, Render(o.damage), Render(o.damageType), save.ability,
                                         Render(o.saveRemove), Render(o.saveDamage), save.dc)),
                   o.durationSeconds)
  }

  /** A start-of-turn fire save at DC 15 against Constitution, with no document
      flags: the plan attaches the change for the joined roll " + 3d6[fire]", type
      "fire", save removal "true", save damage "nodamage", DC 15 and ability "con",
      lasting as long as the text says. */
  lemma FireSaveAtStartOfTurn(name: string, text: string, getDamage: string -> seq<DamagePart>)
    requires StartOrEnd(text) == Some("start")
    requires GetOvertimeDamage(text, getDamage) == Some([DamagePart("3d6", "fire")])
    ensures OverTimePlan(name, text, map[], FeatSave(15, "con"), getDamage)
            == Attach(OverTime(FireSaveArgs(name)), Number(GetDuration(text)))
  {
    var parts := [DamagePart("3d6", "fire")];
    DamageRollOfOne(parts[0]);
    assert DamageRoll(parts) == " + 3d6[fire]";
    var o := ResolveOverrides(map[], parts, text).value;
    assert Render(o.damage) == " + 3d6[fire]" && Render(o.damageType) == "fire";
    assert Render(o.saveRemove) == "true" && Render(o.saveDamage) == "nodamage";
    assert o.durationSeconds == Number(GetDuration(text));
  }

  function FireSaveArgs(name: string): OverTimeArgs
  {
    OverTimeArgs(name, "start", " + 3d6[fire]", "fire", "con", "true", "nodamage", 15)
  }

  lemma TurnLabelStart(name: string)
    ensures TurnLabel(name, "start") == name + " (Start of Turn)"
  {
    assert Capitalize("start") == "Start";
  }

  /** The fields of that save's change value, written out; `OverTime` lays them
      out after `turn=end,` in this order, with the damage roll between the first
      two. */
  lemma FireSaveLabel(name: string)
    ensures LabelField(FireSaveArgs(name)) == "label=" + name + " (Start of Turn),damageRoll="
  {
    TurnLabelStart(name);
  }

  lemma FireSaveDamage(name: string)
    ensures FireSaveArgs(name).damage + DamageTypeField(FireSaveArgs(name)) == " + 3d6[fire],damageType=fire,saveRemove=true"
  {
  }

  lemma FireSaveSave(name: string)
    ensures SaveField(FireSaveArgs(name)) == ",saveDC=15,saveAbility=con,saveDamage=nodamage"
  {
    Fifteen();
  }

  lemma Fifteen()
    ensures IntToString(15) == "15"
  {
    assert DigitChar(1) == '1' && DigitChar(5) == '5';
    assert NatToString(1) == ['1'];
    assert NatToString(15) == NatToString(1) + [DigitChar(5)];
  }

  datatype Outcome = Returned | Threw(error: OverTimeError)

  /** `generateOverTimeEffect`. Every early exit attaches the effect only when it
      already holds a change and leaves the actor alone; the full path attaches one
      effect ending in the recurring-damage change, with its duration set, and
      flags the actor. A thrown error leaves both objects as they were. */
  method GenerateOverTimeEffect(document: Document, actor: Actor, env: MonsterEnv) returns (outcome: Outcome)
    modifies document, actor
    ensures var cond := ConditionStep(env.search(ReplaceFirst(document.description, CURLY_APOSTROPHE, '\'')), env.conditions);
            var plan := OverTimePlan(document.name, document.description, document.flags,
                                     env.featSave(document.description), env.getDamage);
            && (cond.Failure? ==> outcome == Threw(cond.error))
            && (cond.Success? && plan.Crash? ==> outcome == Threw(plan.error))
            && (outcome.Threw? || plan.Stop? ==> actor.flags == old(actor.flags))
            && (outcome.Threw? ==> document.effects == old(document.effects))
            && (cond.Success? && plan.Stop? ==>
                  && outcome == Returned
                  && var changes := env.shell + ConditionChanges(cond.value, env.statusChange);
                  && |document.effects| == |old(document.effects)| + (if changes == [] then 0 else 1)
                  && document.effects[..|old(document.effects)|] == old(document.effects)
                  && (changes != [] ==>
                        var e := document.effects[|document.effects| - 1];
                        && fresh(e) && e.labelText == document.name && e.changes == changes
                        && e.specialDuration == SpecialAfter(cond.value, None) && e.durationSeconds == None))
            && (cond.Success? && plan.Attach? ==>
                  && outcome == Returned
                  && actor.flags == old(actor.flags)[ACTOR_FLAG := Flag(true)]
                  && |document.effects| == |old(document.effects)| + 1
                  && document.effects[..|old(document.effects)|] == old(document.effects)
                  && var e := document.effects[|document.effects| - 1];
                  && fresh(e) && e.labelText == document.name
                  && e.changes == env.shell + ConditionChanges(cond.value, env.statusChange) + [plan.change]
                  && e.specialDuration == SpecialAfter(cond.value, None)
                  && e.durationSeconds == Some(plan.duration))
  {
    var text := document.description;
    var effect := new Effect(document.name, env.shell);
    var cond := GenerateConditionEffect(effect, text, env.search, env.conditions, env.statusChange);
    if cond.Failure? {
      return Threw(cond.error);
    }

    var turn := StartOrEnd(text);
    if turn.None? {
      if |effect.changes| > 0 { document.effects := document.effects + [effect]; }
      return Returned;
    }

    var save := env.featSave(text);
    if save.dc == 0 {
      if |effect.changes| > 0 { document.effects := document.effects + [effect]; }
      return Returned;
    }

    var dmg := GetOvertimeDamage(text, env.getDamage);
    if dmg.None? {
      if |effect.changes| > 0 { document.effects := document.effects + [effect]; }
      return Returned;
    }

    var resolved := ResolveOverrides(document.flags, dmg.value, text);
    if resolved.Failure? {
      return Threw(resolved.error);
    }
    var o := resolved.value;
    effect.PushChange(OverTime(OverTimeArgs(document.name, turn.value, Render(o.damage), Render(o.damageType),
                                            save.ability, Render(o.saveRemove), Render(o.saveDamage), save.dc)));
    effect.SetDurationSeconds(o.durationSeconds);
    actor.flags := actor.flags[ACTOR_FLAG := Flag(true)];
    document.effects := document.effects + [effect];
    outcome := Returned;
  }

  /** The builder does not deduplicate: two runs on a document attach two effects. */
  method RunTwiceAppendsTwice(document: Document, actor: Actor, env: MonsterEnv)
    requires OverTimePlan(document.name, document.description, document.flags,
                          env.featSave(document.description), env.getDamage).Attach?
    requires ConditionStep(env.search(ReplaceFirst(document.description, CURLY_APOSTROPHE, '\'')), env.conditions).Success?
    modifies document, actor
    ensures |document.effects| == |old(document.effects)| + 2
    ensures document.effects[|document.effects| - 1] != document.effects[|document.effects| - 2]
  {
    var first := GenerateOverTimeEffect(document, actor, env);
    var second := GenerateOverTimeEffect(document, actor, env);
  }

  // ---------------------------------------------------------------------------
  // damageOverTimeEffect

  /** The changes of a direct over-time effect: the start-of-turn change first,
      then the end-of-turn change, each when asked for. */
  function TurnChanges(startTurn: bool, endTurn: bool, a: OverTimeArgs): (cs: seq<Change>)
    ensures |cs| == (if startTurn then 1 else 0) + (if endTurn then 1 else 0)
    ensures startTurn ==> cs[0] == OverTime(a.(turn := "start"))
    ensures endTurn ==> cs[|cs| - 1] == OverTime(a.(turn := "end"))
    ensures forall k :: 0 <= k < |cs| ==> cs[k].key == OVER_TIME_KEY && "turn=end," <= cs[k].value
  {
    (if startTurn then [OverTime(a.(turn := "start"))] else [])
      + (if endTurn then [OverTime(a.(turn := "end"))] else [])
  }

  /** `damageOverTimeEffect`: nothing unless a start or end trigger is asked for;
      otherwise one effect holding the requested changes, lasting `durationSeconds`.
      `saveRemove` and `saveDamage` default to true and "nodamage". */
  method DamageOverTimeEffect(document: Document, shell: seq<Change>, startTurn: bool, endTurn: bool,
                              durationSeconds: FlagValue, damage: string, damageType: string, saveAbility: string,
                              saveRemove: Option<FlagValue>, saveDamage: Option<FlagValue>, dc: int)
    modifies document
    ensures !startTurn && !endTurn ==> document.effects == old(document.effects)
    ensures startTurn || endTurn ==>
              var a := OverTimeArgs(document.name, "", damage, damageType, saveAbility,
                                    Render(saveRemove.GetOr(Flag(true))), Render(saveDamage.GetOr(Text("nodamage"))), dc);
              && |document.effects| == |old(document.effects)| + 1
              && document.effects[..|old(document.effects)|] == old(document.effects)
              && var e := document.effects[|document.effects| - 1];
              && fresh(e) && e.labelText == document.name
              && e.changes == shell + TurnChanges(startTurn, endTurn, a)
              && e.durationSeconds == Some(durationSeconds)
              && e.specialDuration == None
  {
    var effect := new Effect(document.name, shell);
    if !startTurn && !endTurn {
      return;
    }
    var a := OverTimeArgs(document.name, "", damage, damageType, saveAbility,
                          Render(saveRemove.GetOr(Flag(true))), Render(saveDamage.GetOr(Text("nodamage"))), dc);
    if startTurn {
      effect.PushChange(OverTime(a.(turn := "start")));
    }
    if endTurn {
      effect.PushChange(OverTime(a.(turn := "end")));
    }
    effect.SetDurationSeconds(durationSeconds);
    document.effects := document.effects + [effect];
  }
}
