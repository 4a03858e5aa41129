/** The `LINKS` key-value namespace the worker is bound to: a string-keyed
    store with get, put, delete and list. */
module KvStore {
  import opened Values
  import opened Strings

  type Store = map<string, string>

  /** `LINKS.get(key)`: the stored string, or `None` for `null`. */
  function Get(s: Store, key: string): Option<string>
  {
    if key in s then Some(s[key]) else None
  }

  class Namespace {
    var entries: Store

    constructor (initial: Store)
      ensures entries == initial
    {
      entries := initial;
    }

    function Read(key: string): Option<string>
      reads this
    {
      Get(entries, key)
    }

    /** `LINKS.put(key, value)`. */
    method Put(key: string, value: string)
      modifies this
      ensures entries == old(entries)[key := value]
    {
      entries := entries[key := value];
    }

    /** `LINKS.delete(key)`; deleting an absent key is not an error. */
    method Delete(key: string)
      modifies this
      ensures entries == old(entries) - {key}
    {
      entries := entries - {key};
    }

    /** `LINKS.list()`: the name of every stored key, each once, in an order
        the store chooses. */
    method List() returns (names: seq<string>)
      ensures Distinct(names)
      ensures forall k :: k in names <==> k in entries
    {
      names := [];
      var rest := entries.Keys;
      while rest != {}
        invariant rest <= entries.Keys
        invariant Distinct(names)
        invariant forall k :: k in names <==> k in entries && k !in rest
        decreases rest
      {
        var k :| k in rest;
        names := names + [k];
        rest := rest - {k};
      }
    }
  }
}
