/** The three implementations of ISessionCache. */
module SessionCaches {
  import opened Domain
  import opened CacheStates
  import opened Repositories

  // ---------------------------------------------------------------- memcached

  /** The server behind the client wrapper. */
  class MemcachedClient {
    var items: Items

    constructor ()
      ensures items == map[]
    {
      items := map[];
    }

    method Get(k: CacheKey, now: Time, ok: bool) returns (r: Result<CacheValue>)
      ensures r == if !ok then Err(Internal)
                   else match Lookup(items, k, now) case Some(v) => Ok(v) case None => Err(NotFound)
    {
      r := if !ok then Err(Internal)
           else if k in items && now < items[k].expires then Ok(items[k].value)
           else Err(NotFound);
    }

    /** `expiration` in seconds, relative up to thirty days, absolute beyond. */
    method Set(k: CacheKey, value: CacheValue, expiration: int, now: Time, ok: bool) returns (done: bool)
      modifies this
      ensures done == ok
      ensures items == if !ok then old(items)
                       else old(items)[k := Item(value, if expiration * SECOND <= 30 * DAY
                                                        then now + expiration * SECOND
                                                        else expiration * SECOND)]
    {
      if ok {
        var expires := if expiration * SECOND <= 30 * DAY then now + expiration * SECOND else expiration * SECOND;
        items := items[k := Item(value, expires)];
      }
      done := ok;
    }

    /** The server drops an entry on its own account. */
    method Evict(k: CacheKey)
      modifies this
      ensures items == old(items) - {k}
    {
      items := items - {k};
    }

    /** A missing key is not an error to the cache. */
    method Delete(k: CacheKey, ok: bool) returns (done: bool)
      modifies this
      ensures done == ok
      ensures items == if ok then old(items) - {k} else old(items)
    {
      if ok {
        items := items - {k};
      }
      done := ok;
    }
  }

  class MemcachedSessionCache {
    const client: MemcachedClient?

    constructor (client: MemcachedClient?)
      ensures this.client == client
    {
      this.client := client;
    }

    function View(): CacheState
      reads this, client
    {
      if client == null then OfNothing else OfMemcached(client.items)
    }

    method IsTokenValid(hash: TokenHash, now: Time, faults: set<CallSite>) returns (r: Result<Option<int>>)
      ensures match Ask(View(), hash, now, faults)
              case Unavailable => r.Err?
              case Says(owner) => r == Ok(owner)
    {
      if client == null {
        return Err(NotFound);
      }
      var item := client.Get(ValidityKey(hash), now, CacheGet !in faults);
      match item
      case Err(e) => r := Err(e);
      case Ok(Validity(uid)) => r := Ok(Some(uid));
      case Ok(SessionJson(_)) => r := Err(Internal);
    }

    method SetSession(hash: TokenHash, s: Session, ttl: Time, now: Time, faults: set<CallSite>) returns (done: bool)
      modifies client
      ensures View() == Remember(old(View()), hash, s, ttl, now, faults)
    {
      if client == null {
        return true;
      }
      var ttlSeconds := if ttl < 0 then -(-ttl / SECOND) else ttl / SECOND;
      if ttlSeconds <= 0 {
        ttlSeconds := 1;
      }
      assert ttlSeconds == TtlSeconds(ttl);
      done := client.Set(SessionKey(hash), SessionJson(s), ttlSeconds, now, CacheSetSession !in faults);
      if !done {
        return false;
      }
      done := client.Set(ValidityKey(hash), Validity(s.userId), ttlSeconds, now, CacheSetValidity !in faults);
    }

    method InvalidateSessionToken(hash: TokenHash, faults: set<CallSite>) returns (done: bool)
      modifies client
      ensures View() == Forget(old(View()), hash, faults)
      ensures done <==> client == null || faults !! INVALIDATION
    {
      if client == null {
        return true;
      }
      done := client.Delete(SessionKey(hash), CacheDeleteSession !in faults);
      if !done { return; }
      done := client.Delete(ValidityKey(hash), CacheDeleteValidity !in faults);
      if !done { return; }
      done := client.Delete(SessionKey(hash), CacheDeleteSessionAgain !in faults);
      if !done { return; }
      done := client.Delete(ValidityKey(hash), CacheDeleteValidityAgain !in faults);
    }
  }

  // ---------------------------------------------------------------- in memory

  class InMemorySessionCache {
    var sessions: map<TokenHash, SessionRecord>

    constructor ()
      ensures sessions == map[]
    {
      sessions := map[];
    }

    /** Every key is the token hash of the object it leads to. */
    ghost predicate Valid()
      reads this, sessions.Values
    {
      forall h :: h in sessions ==> sessions[h].tokenHash == h
    }

    function Entries(): map<TokenHash, Session>
      reads this, sessions.Values
    {
      map h | h in sessions :: sessions[h].Value()
    }

    function View(): CacheState
      reads this, sessions.Values
    {
      OfMemory(Entries())
    }

    method GetSessionByToken(hash: TokenHash, now: Time) returns (s: SessionRecord?)
      ensures s == null <==> hash !in sessions || sessions[hash].expiresAt < now
      ensures s != null ==> s == sessions[hash]
    {
      if hash !in sessions || sessions[hash].expiresAt < now {
        return null;
      }
      s := sessions[hash];
    }

    method IsTokenValid(hash: TokenHash, now: Time, faults: set<CallSite>) returns (r: Result<Option<int>>)
      ensures match Ask(View(), hash, now, faults)
              case Unavailable => r.Err?
              case Says(owner) => r == Ok(owner)
    {
      var s := GetSessionByToken(hash, now);
      r := Ok(if s == null then None else Some(s.userId));
    }

    /** Keeps the pointer it is given. */
    method SetSession(hash: TokenHash, s: SessionRecord)
      modifies this
      ensures sessions == old(sessions)[hash := s]
      ensures old(Valid()) && s.tokenHash == hash ==> Valid()
      ensures Entries() == old(Entries())[hash := s.Value()]
    {
      sessions := sessions[hash := s];
    }

    method InvalidateSessionToken(hash: TokenHash)
      modifies this
      ensures sessions == old(sessions) - {hash}
      ensures old(Valid()) ==> Valid()
      ensures Entries() == old(Entries()) - {hash}
    {
      sessions := sessions - {hash};
    }
  }

  // ---------------------------------------------------------------- the interface

  /** The service holds one of the three. */
  datatype SessionCache =
    | Memcached(server: MemcachedSessionCache)
    | InMemory(memory: InMemorySessionCache)
    | Noop
  {
    /** The objects a call may change: never a session object. */
    function Changes(): set<object>
      reads if Memcached? then {server} else {}
    {
      match this
      case Memcached(c) => if c.client == null then {} else {c.client}
      case InMemory(c) => {c}
      case Noop => {}
    }

    ghost predicate Valid()
      reads if InMemory? then {memory} else {}, if InMemory? then memory.sessions.Values else {}
    {
      InMemory? ==> memory.Valid()
    }

    ghost function View(): CacheState
      reads if Memcached? then {server} else {}, if Memcached? && server.client != null then {server.client} else {}
      reads if InMemory? then {memory} else {}, if InMemory? then memory.sessions.Values else {}
    {
      match this
      case Memcached(c) => c.View()
      case InMemory(c) => c.View()
      case Noop => OfNothing
    }

    method IsTokenValid(hash: TokenHash, now: Time, faults: set<CallSite>) returns (r: Result<Option<int>>)
      ensures match Ask(View(), hash, now, faults)
              case Unavailable => r.Err?
              case Says(owner) => r == Ok(owner)
    {
      match this
      case Memcached(c) => r := c.IsTokenValid(hash, now, faults);
      case InMemory(c) => r := c.IsTokenValid(hash, now, faults);
      case Noop => r := Err(NotFound);
    }

    method SetSession(hash: TokenHash, s: SessionRecord, ttl: Time, now: Time, faults: set<CallSite>)
      modifies Changes()
      ensures old(Valid()) && s.tokenHash == hash ==> Valid()
      ensures View() == Remember(old(View()), hash, s.Value(), ttl, now, faults)
    {
      match this
      case Memcached(c) => var _ := c.SetSession(hash, s.Value(), ttl, now, faults);
      case InMemory(c) => c.SetSession(hash, s);
      case Noop =>
    }

    method InvalidateSessionToken(hash: TokenHash, faults: set<CallSite>)
      modifies Changes()
      ensures old(Valid()) ==> Valid()
      ensures View() == Forget(old(View()), hash, faults)
    {
      match this
      case Memcached(c) => var _ := c.InvalidateSessionToken(hash, faults);
      case InMemory(c) => c.InvalidateSessionToken(hash);
      case Noop =>
    }
  }
}
