/**
 * The cache client (src/services/cache/RedisService.ts): a single lazily created
 * Redis connection with a retry schedule, and `get`/`set`/`del` that do nothing
 * while the connection is unavailable.
 *
 * The Redis server is a map from key to stored text; whether the client object
 * could be built, whether the first connection attempt reached the server and
 * the client's `status` are parameters. JSON text is handled by the decoder and
 * encoder passed in.
 */
module Redis {
  import opened Wrappers
  import opened JsonValue

  const DefaultUrl: string := "redis://localhost:6379"
  const MaxRetries: nat := 3
  const RetryStep: nat := 50
  const MaxRetryDelay: nat := 2000

  /** `retryStrategy(times)`: the delay in milliseconds before reconnection attempt
      `times`, or `None` (`null`) to give up. */
  function RetryDelay(times: nat): (r: Option<nat>)
    ensures r.None? <==> times > MaxRetries
    ensures r.Some? ==> r.value <= MaxRetryDelay && r.value == RetryStep * times
  {
    if times > MaxRetries then None else Some(Min(times * RetryStep, MaxRetryDelay))
  }

  /** `Math.min` on whole numbers. */
  function Min(a: nat, b: nat): nat {
    if a < b then a else b
  }

  /** The reconnection attempts the client makes after a drop before it gives up,
      and the total delay it waits across them. */
  function RetryTotal(times: nat): (r: nat)
    decreases MaxRetries + 1 - times
  {
    match RetryDelay(times)
    case None => 0
    case Some(d) => d + RetryTotal(times + 1)
  }

  /** Giving up after three attempts means at most 300 ms of waiting in all. */
  lemma {:induction false} RetryTotalBound()
    ensures RetryTotal(1) == 300
  {
    assert RetryTotal(4) == 0;
    assert RetryTotal(3) == 150;
    assert RetryTotal(2) == 250;
  }

  /** `process.env.REDIS_URL || 'redis://localhost:6379'`: an empty value counts
      as unset. */
  function RedisUrl(env: Option<string>): (r: string)
    ensures env.Some? && env.value != "" ==> r == env.value
    ensures env.None? || env.value == "" ==> r == DefaultUrl
  {
    if env.Some? && env.value != "" then env.value else DefaultUrl
  }

  /** A stored value: its JSON text and, for `setex`, its time to live in seconds. */
  datatype Stored = Stored(text: string, ttl: Option<nat>)

  /** The service's fields (`client` stands for its URL) and the server's keys. */
  datatype Cache = Cache(client: Option<string>, available: bool, store: map<string, Stored>)

  predicate Ready(c: Cache) {
    c.client.Some? && c.available
  }

  /** `connect`: nothing when a client exists; otherwise a client for the configured
      URL whose first attempt sets availability, or, when building it throws, no
      client and unavailable. */
  function Connected(c: Cache, env: Option<string>, built: bool, reached: bool): (r: Cache)
    ensures c.client.Some? ==> r == c
    ensures c.client.None? && built ==> r.client == Some(RedisUrl(env)) && (r.available <==> reached)
    ensures c.client.None? && !built ==> r.client.None? && !r.available
    ensures r.store == c.store
  {
    if c.client.Some? then c
    else if !built then c.(available := false)
    else c.(client := Some(RedisUrl(env)), available := reached)
  }

  /** The `error` and `connect` handlers; they exist only once a client does. */
  function OnEvent(c: Cache, isError: bool): (r: Cache)
    ensures c.client.Some? ==> (r.available <==> !isError)
    ensures c.client.None? ==> r == c
    ensures r.client == c.client && r.store == c.store
  {
    if c.client.None? then c else c.(available := !isError)
  }

  /** `get`: the decoded value, or `None` (`null`) when the cache is not ready, the
      key is missing or empty, or decoding throws. */
  function Lookup(c: Cache, key: string, decode: string -> Option<Json>): (r: Option<Json>)
    ensures !Ready(c) ==> r.None?
    ensures key !in c.store ==> r.None?
    ensures r.Some? ==> decode(c.store[key].text) == r
  {
    if !Ready(c) || key !in c.store || c.store[key].text == "" then None
    else decode(c.store[key].text)
  }

  /** `set`: nothing when not ready; with a truthy `ttlSeconds`, `setex`, which the
      server refuses (and the service swallows) for a negative time; otherwise a
      plain `set`. */
  function Put(c: Cache, key: string, text: string, ttlSeconds: Option<int>): (r: Cache)
    ensures !Ready(c) ==> r == c
    ensures r.client == c.client && r.available == c.available
    ensures Ready(c) && (ttlSeconds.None? || ttlSeconds.value == 0) ==> r.store == c.store[key := Stored(text, None)]
    ensures Ready(c) && ttlSeconds.Some? && ttlSeconds.value > 0 ==>
      r.store == c.store[key := Stored(text, Some(ttlSeconds.value))]
    ensures ttlSeconds.Some? && ttlSeconds.value < 0 ==> r == c
  {
    if !Ready(c) then c
    else if ttlSeconds.Some? && ttlSeconds.value != 0 then
      if ttlSeconds.value > 0 then c.(store := c.store[key := Stored(text, Some(ttlSeconds.value))]) else c
    else c.(store := c.store[key := Stored(text, None)])
  }

  /** `del`: removes the key when ready. */
  function Remove(c: Cache, key: string): (r: Cache)
    ensures !Ready(c) ==> r == c
    ensures Ready(c) ==> key !in r.store && forall k :: k in c.store && k != key ==> k in r.store && r.store[k] == c.store[k]
    ensures r.store.Keys <= c.store.Keys
  {
    if Ready(c) then c.(store := c.store - {key}) else c
  }

  /** The encoder and decoder agree: encoded text is never empty and decodes back. */
  ghost predicate Faithful(decode: string -> Option<Json>, encode: Json -> string) {
    forall v :: encode(v) != "" && decode(encode(v)) == Some(v)
  }

  /** A value set while ready is what `get` returns, with or without a time to live
      (expiry is not modelled). */
  lemma PutThenLookup(c: Cache, key: string, v: Json, ttlSeconds: Option<int>,
                      decode: string -> Option<Json>, encode: Json -> string)
    requires Ready(c) && Faithful(decode, encode)
    requires ttlSeconds.None? || ttlSeconds.value >= 0
    ensures Lookup(Put(c, key, encode(v), ttlSeconds), key, decode) == Some(v)
  {
    assert encode(v) != "" && decode(encode(v)) == Some(v);
  }

  /** A zero time to live is falsy, so it stores without expiry, like no time at all. */
  lemma ZeroTtlNeverExpires(c: Cache, key: string, text: string)
    ensures Put(c, key, text, Some(0)) == Put(c, key, text, None)
  {
  }

  /** After `del`, `get` returns `null`; other keys read as before. */
  lemma RemoveThenLookup(c: Cache, key: string, other: string, decode: string -> Option<Json>)
    requires other != key
    ensures Lookup(Remove(c, key), key, decode).None?
    ensures Lookup(Remove(c, key), other, decode) == Lookup(c, other, decode)
  {
  }

  /** An error event shuts the gate until a `connect` event opens it again. */
  lemma ErrorClosesGate(c: Cache, key: string, text: string, ttlSeconds: Option<int>, decode: string -> Option<Json>)
    ensures Lookup(OnEvent(c, true), key, decode).None?
    ensures Put(OnEvent(c, true), key, text, ttlSeconds) == OnEvent(c, true)
    ensures Remove(OnEvent(c, true), key) == OnEvent(c, true)
    ensures c.client.Some? ==> Ready(OnEvent(c, false))
  {
  }

  class RedisService {
    var client: Option<string>
    var isAvailable: bool
    /** The server's keys, as the service's commands leave them. */
    var store: map<string, Stored>

    function Snapshot(): Cache
      reads this
    {
      Cache(client, isAvailable, store)
    }

    /** The module-level instance: no client, unavailable, over a server holding `store`. */
    constructor(server: map<string, Stored>)
      ensures Snapshot() == Cache(None, false, server)
    {
      client := None;
      isAvailable := false;
      store := server;
    }

    method Connect(env: Option<string>, built: bool, reached: bool)
      modifies this
      ensures Snapshot() == Connected(old(Snapshot()), env, built, reached)
    {
      if client.Some? {
        return;
      }
      var redisUrl := RedisUrl(env);
      if !built {
        isAvailable := false;
        return;
      }
      client := Some(redisUrl);
      if reached {
        OnConnect();
      } else {
        OnError();
      }
    }

    method OnError()
      modifies this
      ensures Snapshot() == OnEvent(old(Snapshot()), true)
    {
      if client.Some? {
        isAvailable := false;
      }
    }

    method OnConnect()
      modifies this
      ensures Snapshot() == OnEvent(old(Snapshot()), false)
    {
      if client.Some? {
        isAvailable := true;
      }
    }

    /** `get`; `ended` is whether the client's status is `'end'`, in which case a
        reconnection is started in the background (`reconnect`). */
    method Get(key: string, ended: bool, decode: string -> Option<Json>) returns (r: Option<Json>, reconnect: bool)
      ensures r == Lookup(Snapshot(), key, decode)
      ensures reconnect <==> client.Some? && !isAvailable && ended
    {
      reconnect := false;
      if client.None? || !isAvailable {
        if client.Some? && ended {
          reconnect := true;
        }
        return None, reconnect;
      }
      if key !in store || store[key].text == "" {
        return None, reconnect;
      }
      r := decode(store[key].text);
    }

    method Set(key: string, value: Json, ttlSeconds: Option<int>, encode: Json -> string)
      modifies this
      ensures Snapshot() == Put(old(Snapshot()), key, encode(value), ttlSeconds)
    {
      if client.None? || !isAvailable {
        return;
      }
      var serialized := encode(value);
      if ttlSeconds.Some? && ttlSeconds.value != 0 {
        if ttlSeconds.value > 0 {
          store := store[key := Stored(serialized, Some(ttlSeconds.value))];
        }
      } else {
        store := store[key := Stored(serialized, None)];
      }
    }

    method Del(key: string)
      modifies this
      ensures Snapshot() == Remove(old(Snapshot()), key)
    {
      if client.None? || !isAvailable {
        return;
      }
      store := store - {key};
    }

    function IsConnected(): (r: bool)
      reads this
      ensures r <==> isAvailable
    {
      isAvailable
    }
  }
}
