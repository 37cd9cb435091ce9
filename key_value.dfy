/** The Redis key-value store the services cache answers in, reduced to what they use:
    GET, SETEX, KEYS with a glob pattern and DEL. Values are kept as the structured payload
    that was serialised; expiry timing is not modelled, only the TTL each write stores. */
module KeyValue {
  import opened Wrappers

  /** One stored value and the time-to-live, in seconds, it was written with. */
  datatype Entry<V> = Entry(value: V, ttl: nat)

  /** GET: the value under `key`, or nothing. */
  function Lookup<V>(entries: map<string, Entry<V>>, key: string): (r: Option<V>)
    ensures r.Some? <==> key in entries
    ensures r.Some? ==> r.value == entries[key].value
  {
    if key in entries then Some(entries[key].value) else None
  }

  /** SETEX: `key` now holds `value` with the given TTL; every other key is as it was. */
  function Put<V>(entries: map<string, Entry<V>>, key: string, value: V, ttl: nat): (r: map<string, Entry<V>>)
    ensures r.Keys == entries.Keys + {key}
    ensures r[key] == Entry(value, ttl)
    ensures forall k :: k in entries && k != key ==> r[k] == entries[k]
  {
    entries[key := Entry(value, ttl)]
  }

  /** A read after a write of the same key returns the written value. */
  lemma LookupAfterPut<V>(entries: map<string, Entry<V>>, key: string, value: V, ttl: nat, other: string)
    ensures Lookup(Put(entries, key, value, ttl), key) == Some(value)
    ensures other != key ==> Lookup(Put(entries, key, value, ttl), other) == Lookup(entries, other)
  {
  }

  /** KEYS pattern: the stored keys the glob `matches`. */
  function Matching<V>(entries: map<string, Entry<V>>, matches: string -> bool): (r: set<string>)
    ensures r <= entries.Keys
    ensures forall k :: k in entries ==> (k in r <==> matches(k))
  {
    set k | k in entries && matches(k)
  }

  /** DEL of the given keys: exactly those go, all others keep their values. */
  function Without<V>(entries: map<string, Entry<V>>, keys: set<string>): (r: map<string, Entry<V>>)
    ensures r.Keys == entries.Keys - keys
    ensures forall k :: k in r ==> r[k] == entries[k]
  {
    map k | k in entries && k !in keys :: entries[k]
  }

  /** After a pattern clear (KEYS, then DEL of what it found), a key is still retrievable exactly
      when it was stored and does not match, and then with its old value; the number of keys
      removed is the size of the match. */
  lemma ClearMatchingExact<V>(entries: map<string, Entry<V>>, matches: string -> bool, key: string)
    ensures Lookup(Without(entries, Matching(entries, matches)), key) == (if matches(key) then None else Lookup(entries, key))
    ensures |Without(entries, Matching(entries, matches))| == |entries| - |Matching(entries, matches)|
  {
    var r := Without(entries, Matching(entries, matches));
    var gone := Matching(entries, matches);
    assert r.Keys == entries.Keys - gone;
    assert |entries.Keys - gone| == |entries.Keys| - |gone|;
  }

  /** The store a Redis connection talks to. */
  class RedisStore<V> {
    var entries: map<string, Entry<V>>

    constructor(initial: map<string, Entry<V>>)
      ensures entries == initial
    {
      entries := initial;
    }

    /** GET key. */
    method Get(key: string) returns (r: Option<V>)
      ensures r == Lookup(entries, key)
    {
      r := if key in entries then Some(entries[key].value) else None;
    }

    /** SETEX key ttl value. */
    method SetEx(key: string, ttl: nat, value: V)
      modifies this
      ensures entries == Put(old(entries), key, value, ttl)
    {
      entries := entries[key := Entry(value, ttl)];
    }

    /** KEYS pattern. */
    method Keys(matches: string -> bool) returns (keys: set<string>)
      ensures keys == Matching(entries, matches)
    {
      keys := set k | k in entries && matches(k);
    }

    /** DEL key...: returns how many of the keys existed. */
    method Del(keys: set<string>) returns (count: nat)
      modifies this
      ensures entries == Without(old(entries), keys)
      ensures count == |keys * old(entries).Keys|
    {
      count := |keys * entries.Keys|;
      entries := map k | k in entries && k !in keys :: entries[k];
    }
  }
}
