/** The device key-value store (`AsyncStorage`), holding strings under string keys. */
module Storage {
  import opened Base

  type Entries = map<string, string>

  /** `getItem(key)`: the stored value, or `null`. */
  function Get(entries: Entries, key: string): (r: Option<string>)
    ensures r.Some? <==> key in entries
    ensures r.Some? ==> r.value == entries[key]
  {
    if key in entries then Some(entries[key]) else None
  }

  /** `a` and `b` agree on every key outside `keys`. */
  ghost predicate SameExcept(a: Entries, b: Entries, keys: set<string>)
  {
    forall k :: k !in keys ==> Get(a, k) == Get(b, k)
  }

  class KeyValueStore {
    var entries: Entries

    constructor (initial: Entries)
      ensures entries == initial
    {
      entries := initial;
    }

    function GetItem(key: string): Option<string>
      reads this
    {
      Get(entries, key)
    }

    method SetItem(key: string, value: string)
      modifies this
      ensures entries == old(entries)[key := value]
    {
      entries := entries[key := value];
    }

    method RemoveItem(key: string)
      modifies this
      ensures entries == old(entries) - {key}
    {
      entries := entries - {key};
    }
  }
}
