/**
  Sequences of calls to the token cache, each through either entry point, at
  its own clock reading and with its own inner-provider answer. Calls are
  taken one after another; the cache itself gives no single-flight
  guarantee, so concurrent callers are not modelled.
*/
module CacheTrace {
  import opened Wrappers
  import opened TokenProvider
  import opened MemoryCache
  import opened TokenCache

  /** One caller: the entry point it uses, the clock when it calls, and what the inner provider would answer. */
  datatype Call = Call(path: Path, now: int, inner: FetchResult)

  /**
    The cache after a run of calls, the cache each caller found, the reply
    each caller got, and for each caller whether it called the inner provider.
  */
  datatype Trace = Trace(cache: TokenCacheState, before: seq<TokenCacheState>,
                         replies: seq<FetchResult>, fetched: seq<bool>)

  /** The calls served in order, each seeing the cache its predecessor left. */
  function Run(cache: TokenCacheState, calls: seq<Call>): (t: Trace)
    ensures |t.before| == |calls| && |t.replies| == |calls| && |t.fetched| == |calls|
    // the first caller finds the initial cache; an empty run leaves it as it was
    ensures |calls| > 0 ==> t.before[0] == cache
    ensures |calls| == 0 ==> t.cache == cache
    // each caller finds the cache its predecessor left, and the last one leaves the final cache
    ensures forall i :: 0 <= i < |calls| - 1 ==>
      t.before[i + 1] == Serve(t.before[i], calls[i].path, calls[i].now, calls[i].inner).cache
    ensures |calls| > 0 ==>
      t.cache == Serve(t.before[|calls| - 1], calls[|calls| - 1].path, calls[|calls| - 1].now, calls[|calls| - 1].inner).cache
    // a caller calls the inner provider exactly when the cache it found held no live entry ...
    ensures forall i :: 0 <= i < |calls| ==> (t.fetched[i] <==> !IsLive(t.before[i], CacheKey, calls[i].now))
    // ... and then gets that provider's answer unchanged
    ensures forall i :: 0 <= i < |calls| && t.fetched[i] ==> t.replies[i] == calls[i].inner
    // otherwise it is served the token the cache held
    ensures forall i :: 0 <= i < |calls| && !t.fetched[i] ==>
      CacheKey in t.before[i] && t.replies[i] == Ok(t.before[i][CacheKey].value)
    decreases |calls|
  {
    if |calls| == 0 then Trace(cache, [], [], [])
    else
      var step := Serve(cache, calls[0].path, calls[0].now, calls[0].inner);
      var rest := Run(step.cache, calls[1..]);
      Trace(rest.cache, [cache] + rest.before, [step.reply] + rest.replies, [step.factoryCalls == 1] + rest.fetched)
  }

  /** All the calls happen strictly before `deadline`. */
  predicate AllBefore(calls: seq<Call>, deadline: int) {
    forall i :: 0 <= i < |calls| ==> calls[i].now < deadline
  }

  /**
    Freshness: while the cached entry is live, any number of callers, through
    either entry point, all receive the cached token and none of them calls
    the inner provider.
  */
  lemma {:induction false} LiveEntryServesAll(cache: TokenCacheState, calls: seq<Call>)
    requires CacheKey in cache
    requires AllBefore(calls, cache[CacheKey].absoluteExpiration)
    ensures Run(cache, calls).cache == cache
    ensures forall i :: 0 <= i < |calls| ==>
      !Run(cache, calls).fetched[i] && Run(cache, calls).replies[i] == Ok(cache[CacheKey].value)
    decreases |calls|
  {
    if |calls| > 0 {
      var step := Serve(cache, calls[0].path, calls[0].now, calls[0].inner);
      assert step == Lookup(cache, Ok(cache[CacheKey].value), 0);
      assert AllBefore(calls[1..], cache[CacheKey].absoluteExpiration) by {
        forall i | 0 <= i < |calls[1..]| ensures calls[1..][i].now < cache[CacheKey].absoluteExpiration {
          assert calls[1..][i] == calls[i + 1];
        }
      }
      LiveEntryServesAll(cache, calls[1..]);
    }
  }

  /**
    One fetch per token lifetime: when the first caller finds no live entry and
    the inner provider answers with a token `t` that is kept (its adjusted
    expiration is still ahead), that caller and every later caller before the
    adjusted expiration receive `t`, and only the first caller calls the inner provider.
  */
  lemma {:induction false} RefreshThenServe(cache: TokenCacheState, first: Call, t: AccessToken, calls: seq<Call>)
    requires !IsLive(cache, CacheKey, first.now)
    requires first.inner == Ok(t)
    requires first.now < t.expiresOn - SafetyMargin
    requires AllBefore(calls, t.expiresOn - SafetyMargin)
    ensures Run(cache, [first] + calls).fetched[0]
    ensures forall i :: 1 <= i <= |calls| ==> !Run(cache, [first] + calls).fetched[i]
    ensures forall i :: 0 <= i <= |calls| ==> Run(cache, [first] + calls).replies[i] == Ok(t)
  {
    var all := [first] + calls;
    var step := Serve(cache, first.path, first.now, first.inner);
    assert step.reply == Ok(t) && step.factoryCalls == 1;
    assert all[0] == first && all[1..] == calls;
    LiveEntryServesAll(step.cache, calls);
    var rest := Run(step.cache, calls);
    assert Run(cache, all) == Trace(rest.cache, [cache] + rest.before, [step.reply] + rest.replies, [true] + rest.fetched);
  }

  /** The run keeps the decorator's entry well formed: whatever is stored expires ten minutes before its token. */
  lemma {:induction false} RunKeepsSlotWellFormed(cache: TokenCacheState, calls: seq<Call>)
    requires SlotWellFormed(cache)
    ensures SlotWellFormed(Run(cache, calls).cache)
    decreases |calls|
  {
    if |calls| > 0 {
      StepKeepsSlotWellFormed(cache, calls[0].path, calls[0].now, calls[0].inner);
      RunKeepsSlotWellFormed(Serve(cache, calls[0].path, calls[0].now, calls[0].inner).cache, calls[1..]);
    }
  }

  /** The entry point each caller uses is irrelevant: two runs that differ only in entry points agree entirely. */
  lemma {:induction false} EntryPointIrrelevant(cache: TokenCacheState, calls: seq<Call>, calls': seq<Call>)
    requires |calls| == |calls'|
    requires forall i :: 0 <= i < |calls| ==> calls[i].now == calls'[i].now && calls[i].inner == calls'[i].inner
    ensures Run(cache, calls) == Run(cache, calls')
    decreases |calls|
  {
    if |calls| > 0 {
      SyncAsyncAgree(cache, calls[0].now, calls[0].inner);
      var step := Serve(cache, calls[0].path, calls[0].now, calls[0].inner);
      assert step == Serve(cache, calls'[0].path, calls'[0].now, calls'[0].inner);
      assert forall i :: 0 <= i < |calls| - 1 ==> calls[1..][i] == calls[i + 1] && calls'[1..][i] == calls'[i + 1];
      EntryPointIrrelevant(step.cache, calls[1..], calls'[1..]);
    }
  }
}
