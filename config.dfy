/**
 * The persisted user configuration: a record of a clef and a note count,
 * loaded once from storage, updated by shallow merge and written back to
 * storage after every change. A record is a map from field to value, so that
 * the object spread `{ ...current, ...updates }` is map union and a stored
 * object missing a field stays without it.
 */
module ConfigStore {
  import opened Wrappers

  datatype Clef = Treble | Bass

  datatype Field = ClefField | NotesCountField

  /** A field's value: a clef name or a number (integers only in this model). */
  datatype Value = ClefValue(clef: Clef) | Number(n: int)

  type Config = map<Field, Value>

  /** A partial record: only the fields it holds override. */
  type Patch = map<Field, Value>

  const DEFAULT_CONFIG: Config := map[ClefField := ClefValue(Treble), NotesCountField := Number(1)]

  /** Both fields present, each with a value of its declared type. */
  predicate WellFormed(c: Config) {
    && ClefField in c && c[ClefField].ClefValue?
    && NotesCountField in c && c[NotesCountField].Number?
  }

  /** Every field that is present has a value of its declared type. */
  predicate WellTyped(p: Patch) {
    && (ClefField in p ==> p[ClefField].ClefValue?)
    && (NotesCountField in p ==> p[NotesCountField].Number?)
  }

  /** `{ ...current, ...updates }`: fields of the patch win, every other field is kept. */
  function Merge(current: Config, updates: Patch): (r: Config)
    ensures r.Keys == current.Keys + updates.Keys
    ensures forall f :: f in updates ==> r[f] == updates[f]
    ensures forall f :: f in current && f !in updates ==> r[f] == current[f]
  {
    current + updates
  }

  /** The lazy initial state: the stored record as it was parsed, otherwise the defaults. */
  function Initial(saved: Option<Config>): (r: Config)
    ensures saved.Some? ==> r == saved.value
    ensures saved.None? ==> r == DEFAULT_CONFIG && WellFormed(r)
  {
    if saved.Some? then saved.value else DEFAULT_CONFIG
  }

  /** With nothing stored, the loaded configuration is the treble clef with one note. */
  lemma InitialWithoutStorage()
    ensures Initial(None) == DEFAULT_CONFIG
    ensures Initial(None)[ClefField] == ClefValue(Treble) && Initial(None)[NotesCountField] == Number(1)
    ensures WellFormed(Initial(None))
  {
  }

  /**
   * A stored record is not merged onto the defaults: a field missing from
   * storage is missing from the loaded configuration.
   */
  lemma InitialNotMergedOntoDefaults(saved: Config, f: Field)
    requires f !in saved
    ensures Initial(Some(saved)) == saved
    ensures f in DEFAULT_CONFIG && f !in Initial(Some(saved))
  {
  }

  lemma MergeEmptyIsIdentity(c: Config)
    ensures Merge(c, map[]) == c
  {
  }

  lemma MergeIdempotent(c: Config, p: Patch)
    ensures Merge(Merge(c, p), p) == Merge(c, p)
  {
  }

  /** Two updates equal one update with the later patch laid over the earlier. */
  lemma MergeLaterWins(c: Config, p: Patch, q: Patch)
    ensures Merge(Merge(c, p), q) == Merge(c, Merge(p, q))
  {
  }

  /** A well-typed patch keeps a well-formed configuration well-formed. */
  lemma MergeKeepsWellFormed(c: Config, p: Patch)
    requires WellFormed(c) && WellTyped(p)
    ensures WellFormed(Merge(c, p))
  {
  }

  /** No range check: any note count in a patch is taken as it is, negative or zero included. */
  lemma AnyNotesCountAccepted(c: Config, n: int)
    ensures Merge(c, map[NotesCountField := Number(n)])[NotesCountField] == Number(n)
  {
  }

  /** The hook: the live configuration and the storage slot it is written to. */
  class ConfigHook {
    var config: Config
    var storage: Option<Config>

    /** The stored item always holds the current configuration. */
    predicate Persisted()
      reads this
    {
      storage == Some(config)
    }

    /** Mount: load from what `saved` holds, then the persisting effect runs once. */
    constructor (saved: Option<Config>)
      ensures config == Initial(saved)
      ensures Persisted()
    {
      config := Initial(saved);
      storage := Some(config);
    }

    /** `updateConfig` followed by the persisting effect it triggers. */
    method UpdateConfig(updates: Patch)
      modifies this
      ensures config == Merge(old(config), updates)
      ensures Persisted()
    {
      config := config + updates;
      storage := Some(config);
    }
  }
}
