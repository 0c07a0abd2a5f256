/** What the three session caches hold, as values, and what one call of each does to it. */
module CacheStates {
  import opened Domain

  // ---------------------------------------------------------------- memcached

  /** The entries `session:<hash>` and `token_valid:<hash>`. */
  datatype CacheKey = SessionKey(hash: TokenHash) | ValidityKey(hash: TokenHash)

  /** The string sent to the server; the idealised digest is written as its preimage. */
  function Render(k: CacheKey): string {
    match k
    case SessionKey(h) => "session:" + h.preimage
    case ValidityKey(h) => "token_valid:" + h.preimage
  }

  /** The two key formats never collide, so the server can be indexed by CacheKey. */
  lemma RenderInjective(a: CacheKey, b: CacheKey)
    requires Render(a) == Render(b)
    ensures a == b
  {
    assert Render(a)[0] == Render(b)[0];
    assert a.SessionKey? <==> Render(a)[0] == 's';
    assert b.SessionKey? <==> Render(b)[0] == 's';
    var n := if a.SessionKey? then |"session:"| else |"token_valid:"|;
    assert Render(a)[n..] == a.hash.preimage;
    assert Render(b)[n..] == b.hash.preimage;
  }

  datatype CacheValue = SessionJson(session: Session) | Validity(userId: int)

  datatype Item = Item(value: CacheValue, expires: Time)

  type Items = map<CacheKey, Item>

  /** Whole seconds, rounded toward zero, and never below one. */
  function TtlSeconds(ttl: Time): (r: int)
    ensures SECOND <= ttl ==> r * SECOND <= ttl < (r + 1) * SECOND
    ensures ttl < SECOND ==> r == 1
  {
    if ttl < SECOND then 1 else ttl / SECOND
  }

  /** The server reads an expiration of up to thirty days as relative, a larger one as a Unix time. */
  function EntryExpiry(setAt: Time, ttl: Time): Time {
    var expiration := TtlSeconds(ttl) * SECOND;
    if expiration <= 30 * DAY then setAt + expiration else expiration
  }

  /** An entry outlives `setAt + ttl` only through the one-second clamp. */
  lemma EntryExpiryBound(setAt: Time, ttl: Time)
    requires 0 <= setAt
    ensures EntryExpiry(setAt, ttl) <= setAt + (if ttl < SECOND then SECOND else ttl)
  {
  }

  /** How long an entry lives: for the whole seconds of the TTL, for one second below one second; but a
      TTL of more than thirty days is taken for an instant, the same whenever the entry is set. */
  lemma EntryLife(setAt: Time, ttl: Time)
    ensures ttl < SECOND ==> EntryExpiry(setAt, ttl) == setAt + SECOND
    ensures SECOND <= ttl < 30 * DAY + SECOND ==> setAt + ttl - SECOND < EntryExpiry(setAt, ttl) <= setAt + ttl
    ensures 30 * DAY + SECOND <= ttl ==> ttl - SECOND < EntryExpiry(setAt, ttl) <= ttl
  {
    var seconds := TtlSeconds(ttl);
    assert SECOND <= ttl ==> seconds * SECOND <= ttl < (seconds + 1) * SECOND;
    assert seconds * SECOND <= 30 * DAY <==> seconds <= 30 * 86_400;
  }

  function Lookup(items: Items, k: CacheKey, now: Time): Option<CacheValue> {
    if k in items && now < items[k].expires then Some(items[k].value) else None
  }

  // ---------------------------------------------------------------- the interface

  datatype CacheState =
    | OfMemcached(items: Items)
    | OfMemory(entries: map<TokenHash, Session>)
    | OfNothing

  /** IsTokenValid: an error sends the service to the database, a verdict does not. */
  datatype Verdict = Unavailable | Says(owner: Option<int>)

  function Ask(c: CacheState, hash: TokenHash, now: Time, faults: set<CallSite>): Verdict {
    match c
    case OfMemcached(items) =>
      if CacheGet in faults then Unavailable
      else (match Lookup(items, ValidityKey(hash), now)
            case Some(Validity(uid)) => Says(Some(uid))
            case _ => Unavailable)
    case OfMemory(entries) =>
      if hash in entries && now <= entries[hash].expiresAt then Says(Some(entries[hash].userId))
      else Says(None)
    case OfNothing => Unavailable
  }

  /** SetSession: two entries in sequence, the second only if the first was stored. */
  function Remember(c: CacheState, hash: TokenHash, s: Session, ttl: Time, now: Time,
                    faults: set<CallSite>): CacheState {
    match c
    case OfMemcached(items) =>
      if CacheSetSession in faults then c
      else
        var first := items[SessionKey(hash) := Item(SessionJson(s), EntryExpiry(now, ttl))];
        if CacheSetValidity in faults then OfMemcached(first)
        else OfMemcached(first[ValidityKey(hash) := Item(Validity(s.userId), EntryExpiry(now, ttl))])
    case OfMemory(entries) => OfMemory(entries[hash := s])
    case OfNothing => c
  }

  /** InvalidateSessionToken: both entries, twice, stopping at the first failure. */
  function Forget(c: CacheState, hash: TokenHash, faults: set<CallSite>): CacheState {
    match c
    case OfMemcached(items) =>
      if CacheDeleteSession in faults then c
      else if CacheDeleteValidity in faults then OfMemcached(items - {SessionKey(hash)})
      else OfMemcached(items - {SessionKey(hash), ValidityKey(hash)})
    case OfMemory(entries) => OfMemory(entries - {hash})
    case OfNothing => c
  }

  /** The calls of InvalidateSessionToken that can fail. */
  const INVALIDATION: set<CallSite> :=
    {CacheDeleteSession, CacheDeleteValidity, CacheDeleteSessionAgain, CacheDeleteValidityAgain}
}
