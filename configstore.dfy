/**
 * Named configuration values (services/models/Config.js): a collection of
 * entries with a unique `name`, and the static lookup `getConfig`.
 */
module ConfigStore {
  import opened Wrappers

  /** `value` is schema type Mixed: any value, or `None` for `null`/absent. */
  datatype Config<V> = Config(name: string, value: Option<V>, updatedAt: int)

  /** What the unique index on `name` guarantees. */
  ghost predicate UniqueNames<V>(table: seq<Config<V>>) {
    forall i, j :: 0 <= i < j < |table| ==> table[i].name != table[j].name
  }

  ghost predicate Absent<V>(table: seq<Config<V>>, name: string) {
    forall i :: 0 <= i < |table| ==> table[i].name != name
  }

  /** Entry `i` is the first one named `name`. */
  ghost predicate FirstNamed<V>(table: seq<Config<V>>, name: string, i: int) {
    && 0 <= i < |table| && table[i].name == name
    && forall j :: 0 <= j < i ==> table[j].name != name
  }

  /** `findOne({ name })`: the position of the first entry with that name, scanning the collection's natural order from `from`. */
  function FindOne<V>(table: seq<Config<V>>, name: string, from: nat := 0): (r: Option<nat>)
    requires from <= |table|
    decreases |table| - from
    ensures r.None? <==> forall j :: from <= j < |table| ==> table[j].name != name
    ensures r.Some? ==> from <= r.value < |table| && table[r.value].name == name
    ensures r.Some? ==> forall j :: from <= j < r.value ==> table[j].name != name
  {
    if from == |table| then None
    else if table[from].name == name then Some(from)
    else FindOne(table, name, from + 1)
  }

  /**
   * `getConfig(name, defaultValue = null)`: the stored value of the first entry
   * named `name` (even a stored null), or `defaultValue` when there is none.
   */
  function GetConfig<V>(table: seq<Config<V>>, name: string, defaultValue: Option<V> := None): (r: Option<V>)
    ensures Absent(table, name) ==> r == defaultValue
    ensures forall i :: FirstNamed(table, name, i) ==> r == table[i].value
  {
    match FindOne(table, name)
    case Some(i) => table[i].value
    case None => defaultValue
  }

  /** With unique names, every entry named `name` is the one `getConfig` reads. */
  lemma GetConfigReadsTheEntry<V>(table: seq<Config<V>>, name: string, defaultValue: Option<V>, i: int)
    requires UniqueNames(table)
    requires 0 <= i < |table| && table[i].name == name
    ensures GetConfig(table, name, defaultValue) == table[i].value
  {
    assert forall j :: 0 <= j < i ==> table[j].name != name;
  }

  /** Omitting the default gives `null` for a missing name. */
  lemma GetConfigDefaultsToNull<V>(table: seq<Config<V>>, name: string)
    requires Absent(table, name)
    ensures GetConfig(table, name) == None
  {
  }
}
