# Azure SQL access-token cache and connection interceptor

A Dafny model of the token plumbing of MovieCatalog.Azure, in
`AzureToken/IAzureSqlTokenProvider.cs`. It has three parts.

- **The token provider interface** (`IAzureSqlTokenProvider`). A provider
  yields an `(AccessToken, ExpiresOn)` pair or throws. Module `TokenProvider`
  holds this pair, the exception, and the two entry points (blocking and
  asynchronous). The real provider calls Azure Identity over the network.
  Here its answer is an oracle value, `inner`, passed to the operation that
  would call it.
- **The caching decorator** (`CacheAzureSqlTokenProvider`). It sits on the
  process-wide in-memory cache. Module `MemoryCache` models that cache as a
  map from string keys to entries with an absolute expiration. An entry is
  served while `now < absoluteExpiration`. On a miss, `GetOrCreate` drops
  the expired entry, runs its factory once, and keeps the result only if it
  has not already expired. Module `TokenCache` uses one fixed
  key (`"CacheAzureSqlTokenProvider"`) for both entry points. Its factory
  stores the inner pair with expiration `ExpiresOn - 10 minutes` and returns
  the pair unchanged. Module `CacheTrace` runs sequences of calls through
  either entry point.
- **The connection interceptor** (`AadAuthenticationDbConnectionInterceptor`).
  Module `Interceptor` holds the gate. It is true when the data source
  contains `database.windows.net` (ordinal, case ignored) and the user id is
  null or empty. Then the hooks put the provider's token on the connection.
  Otherwise they leave the connection alone. The hooks' provider is the
  caching decorator, as the wiring at `Program.cs:28` intends.

Time is an integer clock in seconds, so the ten-minute margin is 600.
A connection is the parsed `DataSource` and `UserID` plus the writable
`AccessToken` property; `None` stands for `null`.

The match is a substring match (`Contains`), not a suffix match. For
example, `x.database.windows.net.example.com` gets a token, as lemma
`Interceptor.ContainsNotSuffix` shows.

## Model

| member | source | states |
|---|---|---|
| MemoryCache.GetOrCreate | AzureToken/IAzureSqlTokenProvider.cs:77-85 | A live entry is returned with no factory call and no change. Otherwise the factory runs exactly once and the expired entry is gone. The factory's value is returned, and it is stored only if it is still live at that instant. If the factory throws, its exception is returned and nothing is stored. No other key of the shared cache changes. |
| MemoryCache.HeldEntryIsLive | AzureToken/IAzureSqlTokenProvider.cs:77-85 | After any call, whatever the cache holds under the key is live at the instant of the call. |
| TokenCache.GetAccessToken | AzureToken/IAzureSqlTokenProvider.cs:75-86 | Hit: the stored pair is returned, with no inner call and the cache unchanged. Miss: exactly one inner call, and its answer is returned unchanged (original `ExpiresOn`). On success the pair is stored with expiration `ExpiresOn - 600` if that is still ahead; otherwise nothing is stored. On failure nothing is stored. |
| TokenCache.GetAccessTokenAsync | AzureToken/IAzureSqlTokenProvider.cs:62-73 | The same hit/miss contract as the blocking entry point, on the same key with the same margin. |
| TokenCache.SyncAsyncAgree | AzureToken/IAzureSqlTokenProvider.cs:62-86 | Both entry points compute the identical transition: reply, cache and inner-call count. |
| TokenCache.OtherKeysUntouched | AzureToken/IAzureSqlTokenProvider.cs:50 | The decorator reads and writes only its fixed key; every other entry of the shared cache survives any call. |
| TokenCache.StoredExpiryPrecedesToken | AzureToken/IAzureSqlTokenProvider.cs:79-84 | After a successful miss, an entry is kept exactly when `ExpiresOn - 600` is still ahead. A kept entry holds the inner pair and expires exactly 600 s, so strictly, before the token's reported `ExpiresOn`. |
| TokenCache.StepKeepsSlotWellFormed | AzureToken/IAzureSqlTokenProvider.cs:81-82 | If the decorator's entry expires 600 s before its token, that still holds after any call. |
| TokenCache.HitHasMargin | AzureToken/IAzureSqlTokenProvider.cs:81-82 | With a well-formed entry, a token served from the cache has more than 600 s left before its `ExpiresOn`. |
| TokenCache.NearExpiredTokenRefetched | AzureToken/IAzureSqlTokenProvider.cs:79-84 | A token fetched within 600 s of its expiry is still returned to its caller but not kept. The next call, at any time and through either entry point, calls the inner provider again and returns its answer. |
| TokenCache.FailureNotCached | AzureToken/IAzureSqlTokenProvider.cs:77-79 | A failed fetch returns the exception and stores nothing; only the expired entry leaves the cache. The next call, at any time, calls the inner provider again. |
| TokenCache.FilledByOneServedByOther | AzureToken/IAzureSqlTokenProvider.cs:62-86 | A token fetched and kept through one entry point is served by the other, with no inner call, until its adjusted expiration. |
| CacheTrace.Run | AzureToken/IAzureSqlTokenProvider.cs:75-86 | A run of calls records the cache each caller found, its reply, and whether it called the inner provider. The first caller finds the initial cache, each later caller finds what its predecessor left, and the last one leaves the final cache. A caller calls the inner provider exactly when the cache it found held no live entry, and then gets that provider's answer unchanged. Otherwise it is served the token that cache held. |
| CacheTrace.LiveEntryServesAll | AzureToken/IAzureSqlTokenProvider.cs:77-85 | While the cached entry is live, any number of callers through either entry point all get the cached token. None of them calls the inner provider, and the cache does not change. |
| CacheTrace.RefreshThenServe | AzureToken/IAzureSqlTokenProvider.cs:77-85 | A miss that fetches and keeps token `t`, followed by any callers before `t`'s adjusted expiration: every caller gets `t`, and only the first caller calls the inner provider. |
| CacheTrace.RunKeepsSlotWellFormed | AzureToken/IAzureSqlTokenProvider.cs:81-82 | Over any run of calls, the stored entry keeps expiring 600 s before the token it holds. |
| CacheTrace.EntryPointIrrelevant | AzureToken/IAzureSqlTokenProvider.cs:62-86 | Two runs that differ only in which entry point each caller uses give identical replies, cache and inner-call count. |
| Interceptor.ContainsIgnoreCase | AzureToken/IAzureSqlTokenProvider.cs:139 | True exactly when the needle occurs at some position of the string, case ignored. |
| Interceptor.NeedsAccessToken | AzureToken/IAzureSqlTokenProvider.cs:130-140 | True exactly when `database.windows.net` occurs somewhere in the data source (case ignored) and the user id is null or empty. |
| Interceptor.NeedsWhenMarkerAt | AzureToken/IAzureSqlTokenProvider.cs:139 | One occurrence of the marker, anywhere, plus a null or empty user id is enough for a token. |
| Interceptor.NeedsWhenHostAfterPrefix | AzureToken/IAzureSqlTokenProvider.cs:139 | Any data source made of an arbitrary prefix followed by the marker in any letter case, with a null or empty user id, needs a token. |
| Interceptor.DecisionIgnoresAccessToken | AzureToken/IAzureSqlTokenProvider.cs:137-139 | The decision depends only on data source and user id, not on a token already on the connection. |
| Interceptor.ConnectionOpening | AzureToken/IAzureSqlTokenProvider.cs:99-112 | Gate closed: the provider is not asked, and connection and cache are unchanged. Gate open: the provider is asked once. With a live cache entry, its token goes on the connection with no inner call. Otherwise the fetched token goes on the connection, and the cache keeps it exactly when its adjusted expiration is still ahead. If the fetch throws, its exception aborts the opening and nothing is cached. Data source and user id are never changed. |
| Interceptor.ConnectionOpeningAsync | AzureToken/IAzureSqlTokenProvider.cs:114-128 | The same contract as the blocking hook, through the asynchronous provider entry point. |
| Interceptor.SecondOpeningReusesToken | AzureToken/IAzureSqlTokenProvider.cs:99-128 | A first opening fetches a token that is kept. A second opening through either hook, before the adjusted expiration, gets the same token with no inner call. Other keys of the shared cache survive both openings. |
| Interceptor.OpeningSyncAsyncAgree | AzureToken/IAzureSqlTokenProvider.cs:99-128 | Both hooks make the same decision and leave the same connection and cache. |
| Interceptor.AzureHostWithoutUser | AzureToken/IAzureSqlTokenProvider.cs:139 | `myserver.database.windows.net` with a null or an empty user id needs a token. |
| Interceptor.AzureHostWithUser | AzureToken/IAzureSqlTokenProvider.cs:139 | The same host with user `admin` does not need a token. |
| Interceptor.LocalHost | AzureToken/IAzureSqlTokenProvider.cs:139 | `localhost` with no user does not need a token. |
| Interceptor.UpperCaseAzureHost | AzureToken/IAzureSqlTokenProvider.cs:139 | `MYSERVER.DATABASE.WINDOWS.NET` with no user needs a token. |
| Interceptor.ContainsNotSuffix | AzureToken/IAzureSqlTokenProvider.cs:139 | `x.database.windows.net.example.com` with no user needs a token, because the match is a substring match. |

## Left out

- `AzureIdentityAzureSqlTokenProvider` (lines 23-45). It makes a network call through `DefaultAzureCredential` for the fixed scope. It is modelled only as the oracle answer `inner`.
- Concurrency. `GetOrCreate`/`GetOrCreateAsync` give no single-flight guarantee, so calls are modelled one after another. Two callers racing on a miss may each call the inner provider.
- Cancellation. The `CancellationToken` is only passed through. A cancelled fetch is one more `FetchError`.
- In-memory cache internals: eviction under memory pressure, size limits, sliding expiration and callbacks. The model removes an expired entry when a lookup finds it, and never adds one that is already expired when set. It does not model the background scans that may remove expired entries at other moments; a scan can only matter when the clock moves backwards.
- Each call reads the clock once. Whether to keep the fetched entry is decided at that same instant, so the fetch takes no time; the cache library reads the clock again after the factory returns. With a clock that never goes backwards, a token the model keeps but the library would not is dead at the very next call either way.
- Failure path. When the inner provider throws, the model stores nothing. This is an assumption about the cache library, not code in this repository.
- Connection-string parsing by `SqlConnectionStringBuilder`. Data source and user id are taken as already parsed. Malformed connection strings are not handled by the code and are not modelled.
- The `SqlConnection.AccessToken` setter may refuse a token, for example when the connection string asks for integrated security. That check belongs to SqlClient, which is not part of this model.
- The calls to `base.ConnectionOpening*`, the `(SqlConnection)` cast and the EF Core interception plumbing.
- `Program.cs`: host, dependency injection, middleware and routing. The only part used is line 28, which is meant to put the caching decorator in front of the Azure provider.
- `DateTimeOffset` is an integer count of seconds. Time zones, tick precision, and the range error of `AddMinutes(-10)` near `DateTimeOffset.MinValue` are not modelled.
- Interceptor.ContainsIgnoreCase: folds ASCII letters only. Ordinal-ignore-case comparison also folds non-ASCII letters, which cannot change a match against the all-ASCII marker except through the few non-ASCII characters whose invariant upper case is an ASCII letter.
