/**
 * The cross-tier search of the storage kernel, stated on values: an ordered
 * list of per-tier dictionaries (path to file), searched front to back, where
 * the first dictionary holding the key wins.
 */
module TierLookup {
  import opened Wrappers

  /** Index of the first dictionary of `contents` that holds `key`, if any. */
  function FirstHolder<K, V>(contents: seq<map<K, V>>, key: K): (r: Option<nat>)
    ensures r.Some? ==> r.value < |contents| && key in contents[r.value]
    ensures r.Some? ==> forall j :: 0 <= j < r.value ==> key !in contents[j]
    ensures r.None? <==> forall j :: 0 <= j < |contents| ==> key !in contents[j]
  {
    if |contents| == 0 then None
    else if key in contents[0] then Some(0)
    else
      match FirstHolder(contents[1..], key)
      case None => None
      case Some(i) => Some(i + 1)
  }

  /** The value stored under `key` in the first dictionary that holds it. */
  function Lookup<K, V>(contents: seq<map<K, V>>, key: K): (r: Option<V>)
    ensures r.None? <==> forall j :: 0 <= j < |contents| ==> key !in contents[j]
    ensures r.Some? ==>
      exists i :: 0 <= i < |contents| && key in contents[i] && r.value == contents[i][key]
        && forall j :: 0 <= j < i ==> key !in contents[j]
  {
    match FirstHolder(contents, key)
    case None => None
    case Some(i) => Some(contents[i][key])
  }

  /** Conversely, an index holding `key` with no holder before it is the first holder. */
  lemma FirstHolderIsLeast<K, V>(contents: seq<map<K, V>>, key: K, i: nat)
    requires i < |contents| && key in contents[i]
    requires forall j :: 0 <= j < i ==> key !in contents[j]
    ensures FirstHolder(contents, key) == Some(i)
  {
  }

  /** Appending an empty dictionary at the end changes no lookup. */
  lemma {:induction false} LookupAppendEmpty<K, V>(contents: seq<map<K, V>>, key: K)
    ensures Lookup(contents + [map[]], key) == Lookup(contents, key)
  {
    var grown := contents + [map[]];
    assert forall j :: 0 <= j < |contents| ==> grown[j] == contents[j];
    match FirstHolder(contents, key)
    case None =>
      assert forall j :: 0 <= j < |grown| ==> key !in grown[j];
    case Some(i) =>
      FirstHolderIsLeast(grown, key, i);
  }

  /**
   * Storing `v` under `key` in dictionary `k`: the lookup of `key` now yields
   * `v`, unless an earlier dictionary already held `key`, which still wins.
   */
  lemma LookupAfterInsert<K, V>(contents: seq<map<K, V>>, k: nat, key: K, v: V)
    requires k < |contents|
    ensures
      var before := FirstHolder(contents, key);
      Lookup(contents[k := contents[k][key := v]], key)
        == if before.Some? && before.value < k then Lookup(contents, key) else Some(v)
  {
    var after := contents[k := contents[k][key := v]];
    var before := FirstHolder(contents, key);
    if before.Some? && before.value < k {
      FirstHolderIsLeast(after, key, before.value);
    } else {
      FirstHolderIsLeast(after, key, k);
    }
  }
}
