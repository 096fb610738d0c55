/**
  The part of an in-memory cache (`IMemoryCache`) that the token cache relies
  on: entries keyed by string, each with an absolute expiration, and the
  `GetOrCreate` operation that either serves a live entry or runs a factory
  once and stores what it produced.

  The factory is not called here: its outcome is passed in as `created`, and
  the `factoryCalls` field of the answer says whether it would have run.
*/
module MemoryCache {
  import opened Wrappers

  /** A cached value together with the instant (in clock seconds) at which it expires. */
  datatype CacheEntry<V> = CacheEntry(value: V, absoluteExpiration: int)

  /** The whole cache: one process-wide map shared by every component that uses it. */
  type Cache<V> = map<string, CacheEntry<V>>

  /** An entry is served at `now` exactly when it exists and `now` is strictly before its expiration. */
  predicate IsLive<V>(cache: Cache<V>, key: string, now: int) {
    key in cache && now < cache[key].absoluteExpiration
  }

  /** The cache after one `GetOrCreate`, the value (or exception) it returned, and how often the factory ran. */
  datatype Lookup<V, E> = Lookup(cache: Cache<V>, reply: Result<V, E>, factoryCalls: nat)

  /**
    One `GetOrCreate(key, factory)` at clock `now`, where `created` is what the
    factory returns (or throws) if it is run.
  */
  function GetOrCreate<V, E>(cache: Cache<V>, key: string, now: int, created: Result<CacheEntry<V>, E>): (r: Lookup<V, E>)
    // a live entry is served as is: no factory call, nothing changes
    ensures IsLive(cache, key, now) ==> r == Lookup(cache, Ok(cache[key].value), 0)
    // otherwise the factory runs exactly once and its value is what the caller gets
    ensures !IsLive(cache, key, now) ==> r.factoryCalls == 1
    ensures !IsLive(cache, key, now) && created.Ok? ==> r.reply == Ok(created.value.value)
    // the created entry is kept exactly when it is still live at `now`; an expired one leaves the key empty
    ensures !IsLive(cache, key, now) && created.Ok? && now < created.value.absoluteExpiration ==>
      r.cache == cache[key := created.value]
    ensures !IsLive(cache, key, now) && created.Ok? && created.value.absoluteExpiration <= now ==>
      r.cache == cache - {key}
    // a factory that throws stores nothing, the expired entry is gone, and the exception reaches the caller
    ensures !IsLive(cache, key, now) && created.Err? ==> r == Lookup(cache - {key}, Err(created.error), 1)
    // no other key is touched, whatever happens
    ensures r.cache.Keys <= cache.Keys + {key}
    ensures forall k :: k in cache && k != key ==> k in r.cache && r.cache[k] == cache[k]
  {
    if IsLive(cache, key, now) then
      Lookup(cache, Ok(cache[key].value), 0)
    else
      // a lookup that finds an expired entry removes it
      var evicted := cache - {key};
      match created
      case Ok(entry) =>
        // an entry that is already expired when it is set is not added
        if now < entry.absoluteExpiration then Lookup(evicted[key := entry], Ok(entry.value), 1)
        else Lookup(evicted, Ok(entry.value), 1)
      case Err(e) => Lookup(evicted, Err(e), 1)
  }

  /** After any `GetOrCreate`, whatever the cache holds under the key is live at the instant of the call. */
  lemma HeldEntryIsLive<V, E>(cache: Cache<V>, key: string, now: int, created: Result<CacheEntry<V>, E>)
    ensures var r := GetOrCreate(cache, key, now, created);
      key in r.cache ==> IsLive(r.cache, key, now)
  {
  }
}
