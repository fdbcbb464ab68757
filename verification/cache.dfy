/**
 The in-memory TTL cache (server/src/utils/cache.ts): a key-to-entry map
 where every entry records when it was stored and when it expires. Expiry is
 lazy on `get`/`has`, eager on `cleanup`, and strict: an entry is still live
 at the very millisecond of its expiry time. The clock (`Date.now()`) is the
 explicit parameter `now`, in milliseconds; an operation that changes the
 store returns the new cache.
 */
module TtlCache {
  import opened Basics

  /** `constructor(defaultTTLMinutes = 5)`. */
  const DefaultTtlMinutes: int := 5

  datatype Entry<V> = Entry(data: V, timestamp: int, expiresAt: int)

  datatype Cache<V> = Cache(store: map<string, Entry<V>>, defaultTtl: int)

  datatype Stats = Stats(total: nat, active: nat, expired: nat)

  /** `now > expiresAt`: the entry is past its lifetime. */
  predicate Expired<V>(e: Entry<V>, now: int)
  {
    now > e.expiresAt
  }

  /** `new Cache(minutes?)`: an empty store; an omitted argument means five minutes,
      while an explicit 0 gives a zero default lifetime. */
  function New<V>(defaultTtlMinutes: Option<int>): (c: Cache<V>)
    ensures c.store == map[]
    ensures defaultTtlMinutes.None? ==> c.defaultTtl == 300000
    ensures defaultTtlMinutes.Some? ==> c.defaultTtl == defaultTtlMinutes.value * 60000
  {
    Cache(map[], defaultTtlMinutes.GetOr(DefaultTtlMinutes) * MsPerMinute)
  }

  /** The lifetime `set` uses: `ttlMinutes ? ttlMinutes * 60000 : defaultTTL`. An
      omitted or zero `ttlMinutes` is falsy and selects the default. */
  function TtlFor<V>(c: Cache<V>, ttlMinutes: Option<int>): (ttl: int)
    ensures ttlMinutes.None? || ttlMinutes == Some(0) ==> ttl == c.defaultTtl
    ensures ttlMinutes.Some? && ttlMinutes.value != 0 ==> ttl == ttlMinutes.value * 60000
  {
    if ttlMinutes.Some? && ttlMinutes.value != 0 then ttlMinutes.value * MsPerMinute else c.defaultTtl
  }

  /** `set`: stores a fresh entry for `key`, replacing any previous one; every other key is untouched. */
  function Set<V>(c: Cache<V>, key: string, data: V, ttlMinutes: Option<int>, now: int): (r: Cache<V>)
    ensures key in r.store && r.store[key] == Entry(data, now, now + TtlFor(c, ttlMinutes))
    ensures r.store.Keys == c.store.Keys + {key}
    ensures forall k :: k in c.store && k != key ==> r.store[k] == c.store[k]
    ensures r.defaultTtl == c.defaultTtl
  {
    c.(store := c.store[key := Entry(data, now, now + TtlFor(c, ttlMinutes))])
  }

  /**
   `get`: the stored value while the entry is live. A missing key leaves the
   cache as it is; an expired entry is removed and reads as absent. Reading
   never touches a live entry, so it never extends the lifetime.
   */
  function Get<V>(c: Cache<V>, key: string, now: int): (r: (Option<V>, Cache<V>))
    ensures r.0.Some? <==> key in c.store && !Expired(c.store[key], now)
    ensures r.0.Some? ==> r.0.value == c.store[key].data && r.1 == c
    ensures key !in c.store ==> r.1 == c
    ensures key in c.store && Expired(c.store[key], now) ==>
      r.1.store == c.store - {key} && r.1.defaultTtl == c.defaultTtl
  {
    if key !in c.store then (None, c)
    else if Expired(c.store[key], now) then (None, c.(store := c.store - {key}))
    else (Some(c.store[key].data), c)
  }

  /** `has`: whether `get` would find a value, with the same eviction. */
  function Has<V>(c: Cache<V>, key: string, now: int): (r: (bool, Cache<V>))
    ensures r.0 == Get(c, key, now).0.Some?
    ensures r.1 == Get(c, key, now).1
  {
    if key !in c.store then (false, c)
    else if Expired(c.store[key], now) then (false, c.(store := c.store - {key}))
    else (true, c)
  }

  /** `delete`: removes `key`; reports whether it was present, expired or not. */
  function Delete<V>(c: Cache<V>, key: string): (r: (bool, Cache<V>))
    ensures r.0 <==> key in c.store
    ensures r.1.store == c.store - {key}
    ensures r.1.defaultTtl == c.defaultTtl
  {
    (key in c.store, c.(store := c.store - {key}))
  }

  /** `clear`: the store is empty afterwards. */
  function Clear<V>(c: Cache<V>): (r: Cache<V>)
    ensures r.store == map[]
    ensures r.defaultTtl == c.defaultTtl
  {
    c.(store := map[])
  }

  /** The keys whose entries are live at `now`. */
  function ActiveKeys<V>(c: Cache<V>, now: int): set<string>
  {
    set k | k in c.store && !Expired(c.store[k], now)
  }

  /** The keys whose entries have expired at `now`. */
  function ExpiredKeys<V>(c: Cache<V>, now: int): set<string>
  {
    set k | k in c.store && Expired(c.store[k], now)
  }

  /** The store restricted to its live entries: the reference for `cleanup`. */
  function Unexpired<V>(c: Cache<V>, now: int): Cache<V>
  {
    c.(store := map k | k in c.store && !Expired(c.store[k], now) :: c.store[k])
  }

  /**
   `cleanup`: walks the keys and deletes each expired entry. The result keeps
   exactly the live entries, with their data and times unchanged.
   */
  method Cleanup<V>(c: Cache<V>, now: int) returns (r: Cache<V>)
    ensures r == Unexpired(c, now)
    ensures r.store.Keys == ActiveKeys(c, now)
    ensures forall k :: k in r.store ==> r.store[k] == c.store[k]
  {
    var store := c.store;
    var pending := c.store.Keys;
    while pending != {}
      invariant pending <= c.store.Keys
      invariant store.Keys == pending + ActiveKeys(c, now)
      invariant forall k :: k in store ==> store[k] == c.store[k]
      decreases pending
    {
      var key :| key in pending;
      if now > store[key].expiresAt {
        store := store - {key};
      }
      pending := pending - {key};
    }
    r := c.(store := store);
  }

  /**
   `getStats`: counts live and expired entries in one pass; the cache is not
   changed (it is not an output).
   */
  method GetStats<V>(c: Cache<V>, now: int) returns (s: Stats)
    ensures s.total == |c.store|
    ensures s.active == |ActiveKeys(c, now)|
    ensures s.expired == |ExpiredKeys(c, now)|
    ensures s.total == s.active + s.expired
  {
    var active := 0;
    var expired := 0;
    ghost var live: set<string> := {};
    ghost var dead: set<string> := {};
    var keys := c.store.Keys;
    var pending := keys;
    while pending != {}
      invariant live !! dead && pending !! live && pending !! dead
      invariant pending <= keys && live <= keys && dead <= keys
      invariant forall k :: k in keys ==> k in pending || k in live || k in dead
      invariant forall k :: k in live ==> k in c.store && !Expired(c.store[k], now)
      invariant forall k :: k in dead ==> k in c.store && Expired(c.store[k], now)
      invariant active == |live| && expired == |dead|
      decreases pending
    {
      var key :| key in pending;
      if now > c.store[key].expiresAt {
        dead := dead + {key};
        expired := expired + 1;
      } else {
        live := live + {key};
        active := active + 1;
      }
      pending := pending - {key};
    }
    CountsPartition(c, now, live, dead);
    s := Stats(|c.store|, active, expired);
  }

  /** Sets of live and of expired keys that together cover the store are exactly
      the live and the expired keys, and their sizes add up to the store's. */
  lemma CountsPartition<V>(c: Cache<V>, now: int, live: set<string>, dead: set<string>)
    requires live !! dead && live + dead <= c.store.Keys
    requires forall k :: k in c.store ==> k in live || k in dead
    requires forall k :: k in live ==> !Expired(c.store[k], now)
    requires forall k :: k in dead ==> Expired(c.store[k], now)
    ensures live == ActiveKeys(c, now) && dead == ExpiredKeys(c, now)
    ensures |c.store| == |live| + |dead|
  {
    assert live + dead == c.store.Keys;
    assert |c.store| == |c.store.Keys|;
  }

  /**
   Storing at time `t` and reading at any time up to `t + ttl` (inclusive)
   gives exactly the stored value, and the read leaves the cache unchanged.
   */
  lemma SetThenGet<V>(c: Cache<V>, key: string, data: V, ttlMinutes: Option<int>, t: int, later: int)
    requires later <= t + TtlFor(c, ttlMinutes)
    ensures Get(Set(c, key, data, ttlMinutes, t), key, later)
         == (Some(data), Set(c, key, data, ttlMinutes, t))
  {
  }

  /** Once past the expiry time, `get` reports absence and the key is gone. */
  lemma GetAfterExpiry<V>(c: Cache<V>, key: string, data: V, ttlMinutes: Option<int>, t: int, later: int)
    requires later > t + TtlFor(c, ttlMinutes)
    ensures Get(Set(c, key, data, ttlMinutes, t), key, later).0 == None
    ensures key !in Get(Set(c, key, data, ttlMinutes, t), key, later).1.store
  {
  }

  /** Reading any key, at any time, changes no other key and no live entry. */
  lemma GetChangesOnlyItsKey<V>(c: Cache<V>, key: string, now: int, other: string)
    requires other in c.store && (other != key || !Expired(c.store[other], now))
    ensures var c' := Get(c, key, now).1;
            other in c'.store && c'.store[other] == c.store[other]
  {
  }

  /** After a sweep nothing is expired, the live entries are the same, and
      every `get` at that time answers as it did before the sweep. */
  lemma CleanupObservablySame<V>(c: Cache<V>, now: int, key: string)
    ensures ExpiredKeys(Unexpired(c, now), now) == {}
    ensures ActiveKeys(Unexpired(c, now), now) == ActiveKeys(c, now)
    ensures Get(Unexpired(c, now), key, now).0 == Get(c, key, now).0
  {
  }
}
