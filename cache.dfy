/**
 * The cache factory: a connection string that starts with `redis://` selects
 * a Redis store whose keys are namespaced; anything else selects an
 * in-process map. Both answer `getCache`, `setCache` and `has`.
 */
module Cache {
  import opened Js

  const RedisScheme := "redis://"
  const Prefix := "video-recorder:"

  datatype Backend = Redis(url: string) | Memory

  /** The factory's choice; an unset connection string is "". */
  function SelectBackend(connectionStr: string): (b: Backend)
    ensures b.Redis? <==> StartsWith(connectionStr, RedisScheme)
    ensures b.Redis? ==> b.url == connectionStr
  {
    if connectionStr != "" && IndexOf(connectionStr, RedisScheme) == 0 then Redis(connectionStr) else Memory
  }

  // ---------------------------------------------------------------- the in-process map

  /** What `memory.get(key) || null` yields: the stored value when it is truthy, null otherwise. */
  function ReadBack(memory: map<string, Value>, key: string): Value
  {
    if key in memory && Truthy(memory[key]) then memory[key] else Null
  }

  class MemoryCache {
    var memory: map<string, Value>

    constructor ()
      ensures memory == map[]
    {
      memory := map[];
    }

    /** `getCache(key)`: never a falsy value other than null, and only a value stored under `key`. */
    method GetCache(key: string) returns (v: Value)
      ensures v == ReadBack(memory, key)
      ensures v == Null || (Truthy(v) && key in memory && memory[key] == v)
      ensures key !in memory ==> v == Null
    {
      v := Null;
      if key in memory && Truthy(memory[key]) {
        v := memory[key];
      }
    }

    /** `setCache(key, value)`: `Map.prototype.set` returns the map, so the answer is always true. */
    method SetCache(key: string, value: Value) returns (ok: bool)
      modifies this
      ensures ok
      ensures memory == old(memory)[key := value]
    {
      memory := memory[key := value];
      ok := true;
    }

    /** `has(key)`: membership, whatever the stored value. */
    method Has(key: string) returns (b: bool)
      ensures b <==> key in memory
    {
      b := key in memory;
    }
  }

  /** A truthy value reads back as written; a falsy one reads back as null, though `has` still reports the key. */
  lemma MemoryReadAfterWrite(memory: map<string, Value>, key: string, value: Value, other: string)
    ensures ReadBack(memory[key := value], key) == if Truthy(value) then value else Null
    ensures key in memory[key := value]
    ensures other != key ==> ReadBack(memory[key := value], other) == ReadBack(memory, other)
  {
  }

  // ---------------------------------------------------------------- the Redis store

  /** The key under which Redis holds the cache entry `key`. */
  function RedisKey(key: string): (k: string)
    ensures StartsWith(k, Prefix) && k[|Prefix|..] == key
  {
    Prefix + key
  }

  /** Distinct cache keys never share a Redis key. */
  lemma RedisKeyInjective(a: string, b: string)
    ensures RedisKey(a) == RedisKey(b) <==> a == b
  {
    if RedisKey(a) == RedisKey(b) {
      assert a == RedisKey(a)[|Prefix|..];
    }
  }

  /**
   * What `getCache(key)` hands to `JSON.parse`: the stored text, unless the
   * key is missing, the text is `'nil'`, or it is empty.
   */
  function RedisLookup(store: map<string, string>, key: string): Option<string>
  {
    var k := RedisKey(key);
    if k !in store || store[k] == "nil" || store[k] == "" then None else Some(store[k])
  }

  /**
   * The Redis branch, with the server's string store as a map. Values are
   * the JSON text `setCache` writes and `getCache` parses.
   */
  class RedisCache {
    var store: map<string, string>

    constructor (store: map<string, string>)
      ensures this.store == store
    {
      this.store := store;
    }

    /** `getCache(key)`: `None` stands for the null the source returns. */
    method GetCache(key: string) returns (json: Option<string>)
      ensures json == RedisLookup(store, key)
      ensures json.Some? ==> RedisKey(key) in store && store[RedisKey(key)] == json.value && json.value != "nil"
    {
      var k := Prefix + key;
      var value: Option<string> := None;
      if k in store {
        value := Some(store[k]);
      }
      if value == Some("nil") {
        return None;
      }
      json := if value.Some? && value.value != "" then value else None;
    }

    /** `setCache(key, json)`: the text is stored under the prefixed key and nothing else changes. */
    method SetCache(key: string, json: string)
      modifies this
      ensures store == old(store)[RedisKey(key) := json]
    {
      store := store[Prefix + key := json];
    }

    /** `has(key)`: the prefixed key exists. */
    method Has(key: string) returns (b: bool)
      ensures b <==> RedisKey(key) in store
    {
      var count := if Prefix + key in store then 1 else 0;
      b := count > 0;
    }
  }

  /** What is written under one key reads back (unless it is `'nil'` or empty) and leaves every other key alone. */
  lemma RedisReadAfterWrite(store: map<string, string>, key: string, json: string, other: string)
    ensures RedisLookup(store[RedisKey(key) := json], key) == if json == "nil" || json == "" then None else Some(json)
    ensures other != key ==> RedisLookup(store[RedisKey(key) := json], other) == RedisLookup(store, other)
  {
    RedisKeyInjective(key, other);
  }
}
