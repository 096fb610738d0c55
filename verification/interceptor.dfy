/**
  `AadAuthenticationDbConnectionInterceptor`: just before a connection opens,
  decide from its (already parsed) connection string whether it targets Azure
  SQL without a user name, and if so put the cached access token on it.
*/
module Interceptor {
  import opened Wrappers
  import opened TokenProvider
  import opened MemoryCache
  import opened TokenCache

  /**
    The parts of a SQL connection the interceptor reads and writes: the
    `DataSource` and `UserID` of its connection string, and its `AccessToken`
    property (`None` for `null`).
  */
  datatype Connection = Connection(dataSource: string, userId: Option<string>, accessToken: Option<string>)

  /** The host fragment that marks an Azure SQL data source. */
  const AzureSqlHost: string := "database.windows.net"

  /** ASCII lower-casing; every other character is left alone. */
  function ToLowerAscii(c: char): char {
    if 'A' <= c <= 'Z' then (c as int - 'A' as int + 'a' as int) as char else c
  }

  /** Two characters are equal when case is ignored. */
  predicate SameIgnoringCase(a: char, b: char) {
    ToLowerAscii(a) == ToLowerAscii(b)
  }

  /** `needle` occurs in `s` at position `i`, case ignored. */
  predicate MatchesAt(s: string, needle: string, i: int) {
    0 <= i && i + |needle| <= |s| &&
    forall k :: 0 <= k < |needle| ==> SameIgnoringCase(s[i + k], needle[k])
  }

  /** A match at `i + 1` in `s` is a match at `i` in `s` without its first character, and back. */
  lemma MatchesAtShift(s: string, needle: string, i: int)
    requires |s| > 0 && 0 <= i
    ensures MatchesAt(s, needle, i + 1) <==> MatchesAt(s[1..], needle, i)
  {
  }

  /**
    `String.Contains(needle, StringComparison.OrdinalIgnoreCase)`: true exactly
    when `needle` occurs somewhere in `s`, case ignored. An empty needle
    occurs everywhere.
  */
  function ContainsIgnoreCase(s: string, needle: string): (r: bool)
    ensures r <==> exists i :: MatchesAt(s, needle, i)
    decreases |s|
  {
    if |s| < |needle| then
      false
    else if MatchesAt(s, needle, 0) then
      true
    else
      var r := ContainsIgnoreCase(s[1..], needle);
      assert r ==> exists i :: MatchesAt(s, needle, i) by {
        if r {
          var i :| MatchesAt(s[1..], needle, i);
          MatchesAtShift(s, needle, i);
        }
      }
      assert (exists i :: MatchesAt(s, needle, i)) ==> r by {
        if exists i :: MatchesAt(s, needle, i) {
          var i :| MatchesAt(s, needle, i);
          assert i != 0;
          MatchesAtShift(s, needle, i - 1);
        }
      }
      r
  }

  /** `string.IsNullOrEmpty`. */
  predicate IsNullOrEmpty(s: Option<string>) {
    s == None || s == Some("")
  }

  /**
    `ConnectionNeedsAccessToken`: the data source mentions
    `database.windows.net` anywhere, in any case, and no user name is given.
  */
  function NeedsAccessToken(conn: Connection): (r: bool)
    ensures r <==> (exists i :: MatchesAt(conn.dataSource, AzureSqlHost, i)) && (conn.userId == None || conn.userId == Some(""))
  {
    ContainsIgnoreCase(conn.dataSource, AzureSqlHost) && IsNullOrEmpty(conn.userId)
  }

  /**
    What `ConnectionOpening` leaves behind: the token cache, the connection as
    it goes on to open (or the exception that aborts the opening), how often
    the token provider was asked, and how often the inner provider was called.
  */
  datatype Opening = Opening(cache: TokenCacheState, connection: Result<Connection, FetchError>,
                             providerCalls: nat, innerCalls: nat)

  /** Put the provider's answer on the connection, or propagate its exception. */
  function Inject(conn: Connection, step: CacheStep): Opening {
    match step.reply
    case Ok(t) => Opening(step.cache, Ok(conn.(accessToken := Some(t.token))), 1, step.factoryCalls)
    case Err(e) => Opening(step.cache, Err(e), 1, step.factoryCalls)
  }

  /**
    The blocking hook, `ConnectionOpening`, with the cache decorator as its
    token provider, at clock `now`; `inner` is what the inner provider would answer.
  */
  function ConnectionOpening(conn: Connection, cache: TokenCacheState, now: int, inner: FetchResult): (r: Opening)
    // the gate is closed: provider untouched, connection and cache unchanged
    ensures !NeedsAccessToken(conn) ==> r == Opening(cache, Ok(conn), 0, 0)
    // the gate is open: the provider is asked exactly once
    ensures NeedsAccessToken(conn) ==> r.providerCalls == 1
    // with a live cached token, that token goes on the connection, without an inner call
    ensures NeedsAccessToken(conn) && IsLive(cache, CacheKey, now) ==>
      r == Opening(cache, Ok(conn.(accessToken := Some(cache[CacheKey].value.token))), 1, 0)
    // otherwise the freshly fetched token goes on the connection ...
    ensures NeedsAccessToken(conn) && !IsLive(cache, CacheKey, now) && inner.Ok? ==>
      r.connection == Ok(conn.(accessToken := Some(inner.value.token))) && r.innerCalls == 1
    // ... and is cached with the adjusted expiration if that is still ahead, and not cached otherwise ...
    ensures NeedsAccessToken(conn) && !IsLive(cache, CacheKey, now) && inner.Ok? && now < inner.value.expiresOn - SafetyMargin ==>
      r.cache == cache[CacheKey := CacheEntry(inner.value, inner.value.expiresOn - SafetyMargin)]
    ensures NeedsAccessToken(conn) && !IsLive(cache, CacheKey, now) && inner.Ok? && inner.value.expiresOn - SafetyMargin <= now ==>
      r.cache == cache - {CacheKey}
    // ... or the fetch's exception aborts the opening and nothing is cached
    ensures NeedsAccessToken(conn) && !IsLive(cache, CacheKey, now) && inner.Err? ==>
      r == Opening(cache - {CacheKey}, Err(inner.error), 1, 1)
    // only the access token of the connection is ever written
    ensures r.connection.Ok? ==>
      r.connection.value.dataSource == conn.dataSource && r.connection.value.userId == conn.userId
  {
    if NeedsAccessToken(conn) then Inject(conn, GetAccessToken(cache, now, inner))
    else Opening(cache, Ok(conn), 0, 0)
  }

  /** The asynchronous hook, `ConnectionOpeningAsync`: same gate, asynchronous provider entry point. */
  function ConnectionOpeningAsync(conn: Connection, cache: TokenCacheState, now: int, inner: FetchResult): (r: Opening)
    ensures !NeedsAccessToken(conn) ==> r == Opening(cache, Ok(conn), 0, 0)
    ensures NeedsAccessToken(conn) ==> r.providerCalls == 1
    ensures NeedsAccessToken(conn) && IsLive(cache, CacheKey, now) ==>
      r == Opening(cache, Ok(conn.(accessToken := Some(cache[CacheKey].value.token))), 1, 0)
    ensures NeedsAccessToken(conn) && !IsLive(cache, CacheKey, now) && inner.Ok? ==>
      r.connection == Ok(conn.(accessToken := Some(inner.value.token))) && r.innerCalls == 1
    ensures NeedsAccessToken(conn) && !IsLive(cache, CacheKey, now) && inner.Ok? && now < inner.value.expiresOn - SafetyMargin ==>
      r.cache == cache[CacheKey := CacheEntry(inner.value, inner.value.expiresOn - SafetyMargin)]
    ensures NeedsAccessToken(conn) && !IsLive(cache, CacheKey, now) && inner.Ok? && inner.value.expiresOn - SafetyMargin <= now ==>
      r.cache == cache - {CacheKey}
    ensures NeedsAccessToken(conn) && !IsLive(cache, CacheKey, now) && inner.Err? ==>
      r == Opening(cache - {CacheKey}, Err(inner.error), 1, 1)
    ensures r.connection.Ok? ==>
      r.connection.value.dataSource == conn.dataSource && r.connection.value.userId == conn.userId
  {
    if NeedsAccessToken(conn) then Inject(conn, GetAccessTokenAsync(cache, now, inner))
    else Opening(cache, Ok(conn), 0, 0)
  }

  /** Both hooks make the same decision and leave the same cache and connection. */
  lemma OpeningSyncAsyncAgree(conn: Connection, cache: TokenCacheState, now: int, inner: FetchResult)
    ensures ConnectionOpening(conn, cache, now, inner) == ConnectionOpeningAsync(conn, cache, now, inner)
  {
  }

  /**
    Two connections opened one after the other, both needing a token: the
    first fetches a token `t` that is kept, and the second, opened through
    either hook before `t`'s adjusted expiration, gets the same token without
    an inner call. Every other entry of the shared cache survives both openings.
  */
  lemma SecondOpeningReusesToken(conn: Connection, conn': Connection, cache: TokenCacheState, now: int,
                                 t: AccessToken, later: int, inner': FetchResult, async': bool, k: string)
    requires NeedsAccessToken(conn) && NeedsAccessToken(conn')
    requires !IsLive(cache, CacheKey, now)
    requires now < t.expiresOn - SafetyMargin && later < t.expiresOn - SafetyMargin
    requires k in cache && k != CacheKey
    ensures var first := ConnectionOpening(conn, cache, now, Ok(t));
      && first.connection == Ok(conn.(accessToken := Some(t.token)))
      && first.innerCalls == 1
      && var second := if async' then ConnectionOpeningAsync(conn', first.cache, later, inner')
                       else ConnectionOpening(conn', first.cache, later, inner');
      && second.connection == Ok(conn'.(accessToken := Some(t.token)))
      && second.innerCalls == 0
      && k in second.cache && second.cache[k] == cache[k]
  {
  }

  /**
    The decision does not depend on the access token already on the
    connection, so a recycled connection that was injected before is injected again.
  */
  lemma DecisionIgnoresAccessToken(conn: Connection, token: Option<string>)
    ensures NeedsAccessToken(conn.(accessToken := token)) == NeedsAccessToken(conn)
  {
  }

  /** A connection whose data source shows the marker at some position, and that has no user name, needs a token. */
  lemma NeedsWhenMarkerAt(conn: Connection, i: int)
    requires MatchesAt(conn.dataSource, AzureSqlHost, i)
    requires IsNullOrEmpty(conn.userId)
    ensures NeedsAccessToken(conn)
  {
  }

  /** A match inside `q` is still a match, further along, once `p` is put in front of `q`. */
  lemma MatchesAtAfterPrefix(p: string, q: string, needle: string, j: int)
    requires MatchesAt(q, needle, j)
    ensures MatchesAt(p + q, needle, |p| + j)
  {
  }

  /** `host`, which starts with the marker in some letter case, prefixed by `p` and with no user name, needs a token. */
  lemma NeedsWhenHostAfterPrefix(p: string, host: string, userId: Option<string>)
    requires |AzureSqlHost| <= |host|
    requires forall k :: 0 <= k < |AzureSqlHost| ==> SameIgnoringCase(host[k], AzureSqlHost[k])
    requires IsNullOrEmpty(userId)
    ensures NeedsAccessToken(Connection(p + host, userId, None))
  {
    assert MatchesAt(host, AzureSqlHost, 0);
    MatchesAtAfterPrefix(p, host, AzureSqlHost, 0);
    NeedsWhenMarkerAt(Connection(p + host, userId, None), |p|);
  }

  // The data sources of the cases below are written as two concatenated
  // literals, equal to the single host name in each lemma's comment; the split
  // only keeps the verifier from unrolling the search over the whole literal.

  /** The match is a substring match, not a suffix match: `x.database.windows.net.example.com` counts. */
  lemma ContainsNotSuffix()
    ensures NeedsAccessToken(Connection("x." + "database.windows.net.example.com", None, None))
  {
    var host := "database.windows.net.example.com";
    forall k | 0 <= k < |AzureSqlHost| ensures SameIgnoringCase(host[k], AzureSqlHost[k]) { }
    NeedsWhenHostAfterPrefix("x.", host, None);
  }

  /** `myserver.database.windows.net`, no user: a token is needed. */
  lemma AzureHostWithoutUser()
    ensures NeedsAccessToken(Connection("myserver." + "database.windows.net", None, None))
    ensures NeedsAccessToken(Connection("myserver." + "database.windows.net", Some(""), None))
  {
    var host := "database.windows.net";
    forall k | 0 <= k < |AzureSqlHost| ensures SameIgnoringCase(host[k], AzureSqlHost[k]) { }
    NeedsWhenHostAfterPrefix("myserver.", host, None);
    NeedsWhenHostAfterPrefix("myserver.", host, Some(""));
  }

  /** Azure SQL host with an explicit user: no token. */
  lemma AzureHostWithUser()
    ensures !NeedsAccessToken(Connection("myserver.database.windows.net", Some("admin"), None))
  {
  }

  /** A local server: no token. */
  lemma LocalHost()
    ensures !NeedsAccessToken(Connection("localhost", None, None))
  {
  }

  /** Case is ignored: `MYSERVER.DATABASE.WINDOWS.NET` without a user needs a token. */
  lemma UpperCaseAzureHost()
    ensures NeedsAccessToken(Connection("MYSERVER." + "DATABASE.WINDOWS.NET", None, None))
  {
    var host := "DATABASE.WINDOWS.NET";
    forall k | 0 <= k < |AzureSqlHost| ensures SameIgnoringCase(host[k], AzureSqlHost[k]) { }
    NeedsWhenHostAfterPrefix("MYSERVER.", host, None);
  }
}
