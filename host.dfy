/** The pieces of the virtual tabletop's document model that the importer touches:
    flag values, active-effect change records, and the mutable effect, item document
    and actor objects it appends to or flags in place. Flag stores are maps keyed by
    the dotted path that `hasProperty`/`getProperty`/`setProperty` take. */
module Host {
  import opened Wrappers
  import opened TextSearch

  /** A JavaScript value stored in a flag store. */
  datatype FlagValue = Text(s: string) | Number(n: int) | Flag(b: bool) | EmptyRecord

  /** What a template literal `${v}` produces for a flag value. */
  function Render(v: FlagValue): string
  {
    match v
    case Text(s) => s
    case Number(n) => IntToString(n)
    case Flag(b) => if b then "true" else "false"
    case EmptyRecord => "[object Object]"
  }

  /** `CONST.ACTIVE_EFFECT_MODES`. */
  datatype ChangeMode = Custom | Multiply | Add | Downgrade | Upgrade | Override

  /** One change record of an active effect. */
  datatype Change = Change(key: string, mode: ChangeMode, value: string, priority: string)

  /** An active effect: created from a shell, then its change list is pushed onto
      and its flags and duration are set in place. */
  class Effect {
    const labelText: string
    var changes: seq<Change>
    /** `flags.dae.specialDuration`, absent until set. */
    var specialDuration: Option<seq<string>>
    /** `duration.seconds`, absent until set. */
    var durationSeconds: Option<FlagValue>

    constructor (labelText: string, changes: seq<Change>)
      ensures this.labelText == labelText && this.changes == changes
      ensures specialDuration == None && durationSeconds == None
    {
      this.labelText := labelText;
      this.changes := changes;
      specialDuration := None;
      durationSeconds := None;
    }

    /** `effect.changes.push(c)`. */
    method PushChange(c: Change)
      modifies this
      ensures changes == old(changes) + [c]
      ensures specialDuration == old(specialDuration) && durationSeconds == old(durationSeconds)
    {
      changes := changes + [c];
    }

    /** `setProperty(effect, "flags.dae.specialDuration", tags)`. */
    method SetSpecialDuration(tags: seq<string>)
      modifies this
      ensures specialDuration == Some(tags)
      ensures changes == old(changes) && durationSeconds == old(durationSeconds)
    {
      specialDuration := Some(tags);
    }

    /** `setProperty(effect, "duration.seconds", v)`. */
    method SetDurationSeconds(v: FlagValue)
      modifies this
      ensures durationSeconds == Some(v)
      ensures changes == old(changes) && specialDuration == old(specialDuration)
    {
      durationSeconds := Some(v);
    }
  }

  /** An item document: its name, its rules text (`data.description.value`), its
      read-only flag store, and the list of effects attached to it. */
  class Document {
    const name: string
    const description: string
    const flags: map<string, FlagValue>
    var effects: seq<Effect>

    constructor (name: string, description: string, flags: map<string, FlagValue>)
      ensures this.name == name && this.description == description && this.flags == flags
      ensures effects == []
    {
      this.name := name;
      this.description := description;
      this.flags := flags;
      effects := [];
    }
  }

  /** The actor owning a document; only its flag store is touched. */
  class Actor {
    var flags: map<string, FlagValue>

    constructor (flags: map<string, FlagValue>)
      ensures this.flags == flags
    {
      this.flags := flags;
    }
  }
}
