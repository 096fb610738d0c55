/**
  `CacheAzureSqlTokenProvider`: a decorator over an inner token provider that
  keeps the inner provider's answer in the shared in-memory cache under one
  fixed key, with an absolute expiration ten minutes before the token itself
  expires. Both entry points, blocking and asynchronous, go through the same
  key and the same factory.
*/
module TokenCache {
  import opened Wrappers
  import opened TokenProvider
  import opened MemoryCache

  /** The cache key, `nameof(CacheAzureSqlTokenProvider)`, used by both entry points. */
  const CacheKey: string := "CacheAzureSqlTokenProvider"

  /** The safety margin: ten minutes, in clock seconds. */
  const SafetyMargin: int := 10 * 60

  /** The token cache: the shared memory cache, whose entries hold access tokens. */
  type TokenCacheState = Cache<AccessToken>

  /** One answer of the decorator: new cache, token returned (or exception), and number of inner calls. */
  type CacheStep = Lookup<AccessToken, FetchError>

  /**
    The factory both entry points hand to `GetOrCreate`: call the inner
    provider, give the entry an absolute expiration of `ExpiresOn` minus the
    margin, and return the inner pair unchanged.
  */
  function Factory(inner: FetchResult): Result<CacheEntry<AccessToken>, FetchError> {
    match inner
    case Ok(t) => Ok(CacheEntry(t, t.expiresOn - SafetyMargin))
    case Err(e) => Err(e)
  }

  /** Every entry this decorator writes expires exactly `SafetyMargin` before the token it holds. */
  predicate SlotWellFormed(cache: TokenCacheState) {
    CacheKey in cache ==> cache[CacheKey].absoluteExpiration == cache[CacheKey].value.expiresOn - SafetyMargin
  }

  /** The blocking entry point, `GetAccessToken`, at clock `now`, with `inner` the inner provider's answer. */
  function GetAccessToken(cache: TokenCacheState, now: int, inner: FetchResult): (r: CacheStep)
    // hit: the stored pair, no inner call, cache unchanged
    ensures IsLive(cache, CacheKey, now) ==> r == Lookup(cache, Ok(cache[CacheKey].value), 0)
    // miss: exactly one inner call, whose answer is returned unchanged (original ExpiresOn included)
    ensures !IsLive(cache, CacheKey, now) ==> r.factoryCalls == 1 && r.reply == inner
    // a successful miss stores the pair with the adjusted expiration, if that is still in the future ...
    ensures !IsLive(cache, CacheKey, now) && inner.Ok? && now < inner.value.expiresOn - SafetyMargin ==>
      r.cache == cache[CacheKey := CacheEntry(inner.value, inner.value.expiresOn - SafetyMargin)]
    // ... and otherwise stores nothing
    ensures !IsLive(cache, CacheKey, now) && inner.Ok? && inner.value.expiresOn - SafetyMargin <= now ==>
      r.cache == cache - {CacheKey}
    // a failed miss stores nothing either; only the expired entry is gone
    ensures !IsLive(cache, CacheKey, now) && inner.Err? ==> r.cache == cache - {CacheKey}
  {
    GetOrCreate(cache, CacheKey, now, Factory(inner))
  }

  /** The asynchronous entry point, `GetAccessTokenAsync`: same key, same factory, same margin. */
  function GetAccessTokenAsync(cache: TokenCacheState, now: int, inner: FetchResult): (r: CacheStep)
    ensures IsLive(cache, CacheKey, now) ==> r == Lookup(cache, Ok(cache[CacheKey].value), 0)
    ensures !IsLive(cache, CacheKey, now) ==> r.factoryCalls == 1 && r.reply == inner
    ensures !IsLive(cache, CacheKey, now) && inner.Ok? && now < inner.value.expiresOn - SafetyMargin ==>
      r.cache == cache[CacheKey := CacheEntry(inner.value, inner.value.expiresOn - SafetyMargin)]
    ensures !IsLive(cache, CacheKey, now) && inner.Ok? && inner.value.expiresOn - SafetyMargin <= now ==>
      r.cache == cache - {CacheKey}
    ensures !IsLive(cache, CacheKey, now) && inner.Err? ==> r.cache == cache - {CacheKey}
  {
    GetOrCreate(cache, CacheKey, now, Factory(inner))
  }

  /** A call through either entry point. */
  function Serve(cache: TokenCacheState, path: Path, now: int, inner: FetchResult): CacheStep {
    match path
    case Sync => GetAccessToken(cache, now, inner)
    case Async => GetAccessTokenAsync(cache, now, inner)
  }

  /** The two entry points compute the same transition: same reply, same cache, same number of inner calls. */
  lemma SyncAsyncAgree(cache: TokenCacheState, now: int, inner: FetchResult)
    ensures GetAccessToken(cache, now, inner) == GetAccessTokenAsync(cache, now, inner)
  {
  }

  /** The decorator writes only its own key: every other entry of the shared cache survives any call. */
  lemma OtherKeysUntouched(cache: TokenCacheState, path: Path, now: int, inner: FetchResult, k: string)
    requires k in cache && k != CacheKey
    ensures var r := Serve(cache, path, now, inner); k in r.cache && r.cache[k] == cache[k]
  {
  }

  /**
    Expiry arithmetic: a successful miss keeps the inner pair exactly when its
    adjusted expiration, ten minutes before the token's own, is still ahead.
  */
  lemma StoredExpiryPrecedesToken(cache: TokenCacheState, path: Path, now: int, inner: FetchResult)
    requires !IsLive(cache, CacheKey, now) && inner.Ok?
    ensures var r := Serve(cache, path, now, inner);
      && (CacheKey in r.cache <==> now < inner.value.expiresOn - SafetyMargin)
      && (CacheKey in r.cache ==>
            && r.cache[CacheKey].value == inner.value
            && r.cache[CacheKey].absoluteExpiration < inner.value.expiresOn
            && inner.value.expiresOn - r.cache[CacheKey].absoluteExpiration == SafetyMargin)
  {
  }

  /** Every call keeps the decorator's entry well formed. */
  lemma StepKeepsSlotWellFormed(cache: TokenCacheState, path: Path, now: int, inner: FetchResult)
    requires SlotWellFormed(cache)
    ensures SlotWellFormed(Serve(cache, path, now, inner).cache)
  {
  }

  /** A token served from the cache always has more than the safety margin left to live. */
  lemma HitHasMargin(cache: TokenCacheState, path: Path, now: int, inner: FetchResult)
    requires SlotWellFormed(cache)
    requires IsLive(cache, CacheKey, now)
    ensures var r := Serve(cache, path, now, inner);
      r.reply.Ok? && r.factoryCalls == 0 && r.reply.value.expiresOn - now > SafetyMargin
  {
  }

  /**
    A token already within ten minutes of expiry when it is fetched is
    returned to that caller, but never kept: the next call, at any instant
    and through either entry point, calls the inner provider again and
    returns its answer.
  */
  lemma NearExpiredTokenRefetched(cache: TokenCacheState, path: Path, now: int, t: AccessToken,
                                  path': Path, later: int, inner': FetchResult)
    requires !IsLive(cache, CacheKey, now)
    requires t.expiresOn - SafetyMargin <= now
    ensures var first := Serve(cache, path, now, Ok(t));
      && first.reply == Ok(t)
      && CacheKey !in first.cache
      && var second := Serve(first.cache, path', later, inner');
      && second.factoryCalls == 1
      && second.reply == inner'
  {
  }

  /**
    A failed refresh is not cached: the caller gets the exception, nothing but
    the expired entry leaves the cache, and the next call, at any instant,
    tries the inner provider again.
  */
  lemma FailureNotCached(cache: TokenCacheState, path: Path, now: int, e: FetchError,
                         path': Path, later: int, inner': FetchResult)
    requires !IsLive(cache, CacheKey, now)
    ensures var first := Serve(cache, path, now, Err(e));
      && first == Lookup(cache - {CacheKey}, Err(e), 1)
      && var second := Serve(first.cache, path', later, inner');
      && second.factoryCalls == 1
      && second.reply == inner'
  {
  }

  /**
    Shared key: a token fetched and kept through one entry point is served by
    the other until its adjusted expiration, without calling the inner provider.
  */
  lemma FilledByOneServedByOther(cache: TokenCacheState, path: Path, now: int, t: AccessToken,
                                 later: int, inner': FetchResult)
    requires !IsLive(cache, CacheKey, now)
    requires now < t.expiresOn - SafetyMargin
    requires later < t.expiresOn - SafetyMargin
    ensures var first := Serve(cache, path, now, Ok(t));
      var other := if path == Sync then Async else Sync;
      var second := Serve(first.cache, other, later, inner');
      second == Lookup(first.cache, Ok(t), 0)
  {
  }
}
