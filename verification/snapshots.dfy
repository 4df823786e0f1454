/**
 * Key/value configuration objects and the `Object.assign` compositions the
 * manager builds them with.
 */
module Snapshots {
  import opened JsValues

  type Key = string

  /** A plain configuration object: key to value, enumeration order aside. */
  type Snapshot = map<Key, Value>

  /**
   * `Object.assign(target, source)` viewed as a value: every own key of
   * `source` is copied over `target`; the keys only `target` has are kept.
   */
  function Assign(target: Snapshot, source: Snapshot): (r: Snapshot)
    ensures r.Keys == target.Keys + source.Keys
    ensures forall k :: k in source ==> r[k] == source[k]
    ensures forall k :: k in target && k !in source ==> r[k] == target[k]
  {
    target + source
  }

  /**
   * The configuration a successful reload produces:
   * `Object.assign(Object.assign({}, defaults), source)`.
   * The source wins on every key it defines, the defaults fill in the rest,
   * and no other key appears.
   */
  function Merge(defaults: Snapshot, source: Snapshot): (r: Snapshot)
    ensures r.Keys == defaults.Keys + source.Keys
    ensures forall k :: k in source ==> r[k] == source[k]
    ensures forall k :: k in defaults && k !in source ==> r[k] == defaults[k]
  {
    Assign(Assign(map[], defaults), source)
  }

  /**
   * The snapshot `setup` leaves behind:
   * `Object.assign(current, Object.assign(copy of defaults, current))`.
   * Every key of `current` keeps its value; every default key that
   * `current` lacks gets its default value; no other key appears.
   */
  function SeedDefaults(defaults: Snapshot, current: Snapshot): (r: Snapshot)
    ensures r.Keys == defaults.Keys + current.Keys
    ensures forall k :: k in current ==> r[k] == current[k]
    ensures forall k :: k in defaults && k !in current ==> r[k] == defaults[k]
  {
    Assign(current, Assign(defaults, current))
  }

  /** Assigning onto an emptied object yields a copy of the source. */
  lemma AssignOntoEmpty(source: Snapshot)
    ensures Assign(map[], source) == source
  {
  }

  /**
   * Seeding a freshly loaded configuration with the same defaults it was
   * merged from changes nothing: a second `setup` with unchanged defaults is
   * harmless after a load.
   */
  lemma ReseedAfterMergeIsIdentity(defaults: Snapshot, source: Snapshot)
    ensures SeedDefaults(defaults, Merge(defaults, source)) == Merge(defaults, source)
  {
  }

  /** Seeding twice with the same defaults is the same as seeding once. */
  lemma SeedIdempotent(defaults: Snapshot, current: Snapshot)
    ensures SeedDefaults(defaults, SeedDefaults(defaults, current)) == SeedDefaults(defaults, current)
  {
  }
}
