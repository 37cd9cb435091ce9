/** The API's caching service: one lazily created Redis client shared by every call, and three
    operations on it that never let a Redis failure escape. Whether constructing the client
    succeeds and whether a command fails are inputs; JSON text is produced and read by the
    `encode` and `decode` parameters. */
module CacheService {
  import opened Wrappers
  import opened KeyValue

  /** `CACHE_TTL`: thirty minutes, in seconds. */
  const CacheTtl: nat := 30 * 60

  /** The client's `retryStrategy`: give up after the third retry, otherwise wait `times * 100`
      ms capped at 3000. Since it gives up first, the cap is never reached: the wait is at most
      300 ms. */
  function RetryStrategy(times: nat): (delay: Option<nat>)
    ensures delay.None? <==> times > 3
    ensures delay.Some? ==> delay.value == 100 * times && delay.value <= 300
  {
    if times > 3 then None else Some(if times * 100 < 3000 then times * 100 else 3000)
  }

  /** What `getCachedResponse` reads for a key: the parsed text when a non-empty one is stored,
      nothing when none is or it does not parse. */
  function CachedValue<V>(entries: map<string, Entry<string>>, key: string, decode: string -> Option<V>): (r: Option<V>)
    ensures key !in entries || entries[key].value == "" ==> r.None?
    ensures key in entries && entries[key].value != "" ==> r == decode(entries[key].value)
  {
    match Lookup(entries, key)
    case Some(text) => if text != "" then decode(text) else None
    case None => None
  }

  /** Whatever `cacheResponse` stored under a key, `getCachedResponse` reads back, when the JSON
      text round-trips; other keys read as before. */
  lemma CachedAfterCaching<V>(entries: map<string, Entry<string>>, key: string, data: V,
                              encode: V -> string, decode: string -> Option<V>, other: string)
    requires encode(data) != "" && decode(encode(data)) == Some(data)
    ensures CachedValue(Put(entries, key, encode(data), CacheTtl), key, decode) == Some(data)
    ensures other != key ==> CachedValue(Put(entries, key, encode(data), CacheTtl), other, decode) == CachedValue(entries, other, decode)
  {
  }

  /** After `clearCache`, a key the pattern matches reads as a miss and every other key as before. */
  lemma CachedAfterClear<V>(entries: map<string, Entry<string>>, matches: string -> bool, key: string, decode: string -> Option<V>)
    ensures CachedValue(Without(entries, Matching(entries, matches)), key, decode) ==
      if matches(key) then None else CachedValue(entries, key, decode)
  {
    ClearMatchingExact(entries, matches, key);
  }

  /** The module's state: the Redis server the client talks to and the `redisClient` variable,
      null until a client has been created. */
  class Cache {
    const server: RedisStore<string>
    var client: RedisStore?<string>

    /** A client, once created, talks to the one server. */
    ghost predicate Valid()
      reads this
    {
      client == null || client == server
    }

    constructor(server: RedisStore<string>)
      ensures this.server == server && client == null
      ensures Valid()
    {
      this.server := server;
      client := null;
    }

    /** `getRedisClient`: creates the client on first use and keeps it; if construction fails,
        returns null and leaves the variable null so that the next call tries again. */
    method GetRedisClient(constructOk: bool) returns (c: RedisStore?<string>)
      requires Valid()
      modifies this
      ensures Valid() && c == client
      ensures old(client) != null ==> client == old(client)
      ensures old(client) == null ==> (client != null <==> constructOk)
    {
      if client == null {
        if !constructOk {
          return null;
        }
        client := server;
      }
      return client;
    }

    /** `getCachedResponse`: without a client, or when the GET fails, a miss; otherwise the
        parsed value stored under the key, if any. */
    method GetCachedResponse<V>(key: string, decode: string -> Option<V>, constructOk: bool, fault: bool) returns (r: Option<V>)
      requires Valid()
      modifies this
      ensures Valid()
      ensures old(client) != null ==> client == old(client)
      ensures old(client) == null ==> (client != null <==> constructOk)
      ensures r == if client != null && !fault then CachedValue(server.entries, key, decode) else None
    {
      var c := GetRedisClient(constructOk);
      if c == null {
        return None;
      }
      if fault {
        return None;
      }
      var cached := c.Get(key);
      if cached.Some? && cached.value != "" {
        return decode(cached.value);
      }
      return None;
    }

    /** `cacheResponse`: with a client and a successful SETEX, the JSON text of `data` is stored
        for `CacheTtl` seconds; without one, or when SETEX fails, nothing changes and nothing is
        reported. */
    method CacheResponse<V>(key: string, data: V, encode: V -> string, constructOk: bool, fault: bool)
      requires Valid()
      modifies this, server
      ensures Valid()
      ensures old(client) != null ==> client == old(client)
      ensures old(client) == null ==> (client != null <==> constructOk)
      ensures server.entries == if client != null && !fault then Put(old(server.entries), key, encode(data), CacheTtl)
                                else old(server.entries)
    {
      var c := GetRedisClient(constructOk);
      if c == null || fault {
        return;
      }
      c.SetEx(key, CacheTtl, encode(data));
    }

    /** `clearCache`: with a client, deletes every key the pattern matches and returns how many
        there were; without one, or when a command fails, returns 0 and changes nothing. */
    method ClearCache(matches: string -> bool, constructOk: bool, fault: bool) returns (count: nat)
      requires Valid()
      modifies this, server
      ensures Valid()
      ensures old(client) != null ==> client == old(client)
      ensures old(client) == null ==> (client != null <==> constructOk)
      ensures client != null && !fault ==>
        server.entries == Without(old(server.entries), Matching(old(server.entries), matches)) &&
        count == |Matching(old(server.entries), matches)|
      ensures !(client != null && !fault) ==> server.entries == old(server.entries) && count == 0
    {
      var c := GetRedisClient(constructOk);
      if c == null || fault {
        return 0;
      }
      var keys := c.Keys(matches);
      if |keys| > 0 {
        count := c.Del(keys);
        assert keys * old(server.entries).Keys == keys;
        return count;
      }
      assert Without(old(server.entries), keys) == old(server.entries);
      return 0;
    }
  }
}
