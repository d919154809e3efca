/**
 * The host's key-value store (its `storeRegistry`), addressed by a namespace
 * and a key, and the load of the persisted click count from it.
 */
module Storage {
  import opened Wrappers
  import opened JsonNumber

  datatype StoreKey = StoreKey(namespace: string, key: string)

  /** Stored values are strings; a missing key reads as `null`. */
  type Store = map<StoreKey, string>

  /** The plugin keeps its count under namespace "example", key "count". */
  const CountKey := StoreKey("example", "count")

  /** `storeRegistry.getItem(namespace, key)`. */
  function GetItem(store: Store, namespace: string, key: string): Option<string> {
    var k := StoreKey(namespace, key);
    if k in store then Some(store[k]) else None
  }

  /** `storeRegistry.setItem(namespace, key, value)`. */
  function SetItem(store: Store, namespace: string, key: string, value: string): Store {
    store[StoreKey(namespace, key) := value]
  }

  /** The stored text could not be read back as a count: `JSON.parse` throws
      on it, or it denotes something other than a non-negative integer. */
  datatype LoadError = NotACount(raw: string)

  /**
   * The count the constructor starts from: 0 when the stored value is falsy
   * (absent, or the empty string), its parsed value otherwise.
   */
  function LoadCount(store: Store): (r: Result<nat, LoadError>)
    ensures CountKey !in store ==> r == Ok(0)
    ensures CountKey in store && store[CountKey] == "" ==> r == Ok(0)
    ensures CountKey in store && store[CountKey] != "" ==>
              (r.Ok? <==> IsCanonical(store[CountKey]))
    ensures r.Ok? && CountKey in store && store[CountKey] != "" ==>
              Stringify(r.value) == store[CountKey]
    ensures r.Err? ==> r.error == NotACount(store[CountKey])
  {
    var value := GetItem(store, "example", "count");
    if value.None? || value.value == "" then Ok(0)
    else
      match Parse(value.value)
      case Some(n) =>
        StringifyParse(value.value);
        Ok(n)
      case None => Err(NotACount(value.value))
  }

  /** What the update handler writes is what a later construction loads. */
  lemma {:induction false} PersistRoundTrip(store: Store, n: nat)
    ensures LoadCount(SetItem(store, "example", "count", Stringify(n))) == Ok(n)
  {
    ParseStringify(n);
  }
}
