/**
  The token source abstraction (`IAzureSqlTokenProvider`): something that,
  when asked, yields an access token and the instant it expires, or throws.
  The concrete Azure Identity provider makes a network call; here its answer
  is an oracle value handed to whoever would call it.
*/
module TokenProvider {
  import opened Wrappers

  /** The `(AccessToken, ExpiresOn)` pair a provider returns; `expiresOn` is in clock seconds. */
  datatype AccessToken = AccessToken(token: string, expiresOn: int)

  /** An exception thrown by the identity call (credential unavailable, authentication failed, cancelled). */
  datatype FetchError = FetchError(message: string)

  /** What one call of a provider produces. */
  type FetchResult = Result<AccessToken, FetchError>

  /** The two entry points of the provider interface: `GetAccessToken` and `GetAccessTokenAsync`. */
  datatype Path = Sync | Async
}
