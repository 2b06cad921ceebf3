/** The session-bound token cache: how the callback loads it from the session
    and what saving it back writes. */
module Cache {
  import opened Types

  const EmptyCache := TokenCache("", false)

  /** The object invariant the handlers keep: a stored token cache is a string. */
  predicate HoldsBlob(session: map<string, Value>)
  {
    TokenCacheKey in session ==> session[TokenCacheKey].Str?
  }

  /** Whether the session carries a non-empty serialized cache. */
  predicate HasStoredCache(session: map<string, Value>)
  {
    TokenCacheKey in session && session[TokenCacheKey].Truthy()
  }

  function Deserialize(blob: string): TokenCache
  {
    TokenCache(blob, false)
  }

  function Serialize(cache: TokenCache): string
  {
    cache.blob
  }

  /** A fresh cache, filled from the session only when the session holds a
      non-empty serialized cache; a freshly loaded cache has not changed. */
  function LoadCache(session: map<string, Value>): (cache: TokenCache)
    requires HoldsBlob(session)
    ensures !cache.hasStateChanged
    ensures HasStoredCache(session) ==> Serialize(cache) == session[TokenCacheKey].s
    ensures !HasStoredCache(session) ==> cache == EmptyCache
  {
    if HasStoredCache(session) then Deserialize(session[TokenCacheKey].s) else EmptyCache
  }

  /** The session after the cache is saved: rewritten only when it changed,
      every other entry kept. */
  function StoreCache(session: map<string, Value>, cache: TokenCache): (stored: map<string, Value>)
    ensures !cache.hasStateChanged ==> stored == session
    ensures cache.hasStateChanged ==>
      stored.Keys == session.Keys + {TokenCacheKey} && stored[TokenCacheKey] == Str(Serialize(cache))
    ensures forall k :: k in session && k != TokenCacheKey ==> k in stored && stored[k] == session[k]
  {
    if cache.hasStateChanged then session[TokenCacheKey := Str(Serialize(cache))] else session
  }

  /** Saving keeps the invariant, and the next load sees what was saved. */
  lemma LoadAfterStore(session: map<string, Value>, cache: TokenCache)
    requires HoldsBlob(session)
    ensures HoldsBlob(StoreCache(session, cache))
    ensures cache.hasStateChanged ==>
      LoadCache(StoreCache(session, cache)) == TokenCache(cache.blob, false)
    ensures !cache.hasStateChanged ==>
      LoadCache(StoreCache(session, cache)) == LoadCache(session)
  {
  }
}
