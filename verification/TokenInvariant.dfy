/** What holds of tokens, rows and cache entries in every interleaving. */
module TokenInvariant {
  import opened Domain
  import opened Tables
  import opened CacheStates
  import opened Flights
  import opened Interleaving

  // ---------------------------------------------------------------- facts about one hash

  /** Generated, but neither cached for validation nor known to any client. */
  ghost predicate Pending(w: World, h: TokenHash) {
    h in w.birth && h !in w.disclosed && h !in w.presented && h !in w.setAt && ValidityKey(h) !in w.items
  }

  ghost predicate Unwritten(w: World, h: TokenHash) {
    forall i :: i in w.db.sessions ==> w.db.sessions[i].tokenHash != h
  }

  ghost predicate Dead(s: Session, now: Time) {
    s.deletedAt.Some? || s.expiresAt <= now
  }

  /** No row makes the hash valid. */
  ghost predicate DeadInTable(w: World, h: TokenHash) {
    forall i :: i in w.db.sessions && w.db.sessions[i].tokenHash == h ==> Dead(w.db.sessions[i], w.now)
  }

  /** The hash was presented, is dead in the table and, once its deletes succeeded, not cached. */
  ghost predicate Ended(w: World, h: TokenHash, dropped: bool) {
    h in w.presented && DeadInTable(w, h) && (dropped ==> ValidityKey(h) !in w.items)
  }

  /** The only row that can hold the hash is the one with this id. */
  ghost predicate LocatedAt(w: World, h: TokenHash, id: int) {
    h in w.presented && id < w.db.nextSession
    && forall i :: i in w.db.sessions && w.db.sessions[i].tokenHash == h ==> i == id
  }

  ghost predicate Located(w: World, h: TokenHash, s: Session) {
    LocatedAt(w, h, s.id) && (s.id in w.db.sessions ==> w.db.sessions[s.id].userId == s.userId)
  }

  ghost predicate BornFor(w: World, h: TokenHash, uid: int) {
    h in w.birth && w.birth[h].userId == uid
  }

  /** A positive verdict read at `t` was backed by the row's expiry or by a cache entry. */
  ghost predicate Accepted(cfg: Config, w: World, h: TokenHash, uid: int, t: Time) {
    && BornFor(w, h, uid)
    && (t < w.birth[h].expiresAt || (h in w.setAt && t < EntryExpiry(w.setAt[h], cfg.ttl)))
  }

  // ---------------------------------------------------------------- facts about one flight

  /** The hash a flight generated and has not handed over yet. */
  function OwnHash(fl: Flight): Option<TokenHash> {
    if !fl.OfToken? then None
    else if fl.token.OpenInsert? then Some(fl.token.hash)
    else if fl.token.RefreshUpdate? || fl.token.SetFirst? || fl.token.SetSecond? then Some(fl.token.s.tokenHash)
    else if fl.token.Drop? && fl.token.renewed.Some? then Some(fl.token.renewed.value.tokenHash)
    else None
  }

  ghost predicate AnswerFacts(cfg: Config, w: World, a: Answer) {
    && (a.Validated? && a.owner.Some? ==> Accepted(cfg, w, a.hash, a.owner.value, a.readAt))
    && (a.Refreshed? ==> Ended(w, a.prior, a.dropped))
    && (a.LoggedOut? ==> Ended(w, a.hash, a.dropped))
  }

  /** A session about to be cached, and the answer that will disclose it. */
  ghost predicate SetFacts(cfg: Config, w: World, s: Session, a: Answer) {
    && Pending(w, s.tokenHash) && BornFor(w, s.tokenHash, s.userId)
    && (a.Opened? || a.Refreshed?) && a.hash == s.tokenHash
    && AnswerFacts(cfg, w, a)
  }

  ghost predicate FlightFacts(cfg: Config, w: World, fl: Flight) {
    && (fl.Finished? ==> AnswerFacts(cfg, w, fl.answer))
    && (fl.OfToken? ==> TokenFacts(cfg, w, fl.token))
  }

  ghost predicate TokenFacts(cfg: Config, w: World, t: Token) {
    if t.OpenInsert? then
      Pending(w, t.hash) && Unwritten(w, t.hash) && BornFor(w, t.hash, t.uid)
      && w.birth[t.hash].expiresAt == t.expiresAt
    else if InSet(t) then SetFacts(cfg, w, t.s, t.answer)
    else if t.ValidateStart? || t.RefreshStart? || t.LogoutStart? then t.hash in w.presented
    else if t.ValidateUser? then Accepted(cfg, w, t.hash, t.uid, t.readAt)
    else if t.RefreshClock? || t.RefreshRenew? then t.s.tokenHash == t.hash && Located(w, t.hash, t.s)
    else if t.RefreshUpdate? then
      Pending(w, t.s.tokenHash) && Unwritten(w, t.s.tokenHash) && BornFor(w, t.s.tokenHash, t.s.userId)
      && w.birth[t.s.tokenHash].expiresAt == t.s.expiresAt && Located(w, t.hash, t.s)
    else if t.LogoutClock? then LocatedAt(w, t.hash, t.s.id)
    else if t.LogoutRetire? then LocatedAt(w, t.hash, t.id)
    else if t.Drop? then
      Ended(w, t.hash, t.pass >= 2)
      && (t.renewed.Some? ==> Pending(w, t.renewed.value.tokenHash)
                              && BornFor(w, t.renewed.value.tokenHash, t.renewed.value.userId))
    else true
  }

  // ---------------------------------------------------------------- the invariant

  /** Every row holds a generated hash, with the owner and expiry decided at its birth. */
  ghost predicate RowsBorn(sessions: map<int, Session>, birth: map<TokenHash, Birth>) {
    forall i :: i in sessions ==>
      var s := sessions[i];
      s.tokenHash in birth && birth[s.tokenHash].userId == s.userId && birth[s.tokenHash].expiresAt == s.expiresAt
  }

  /** Every validity entry was stored by a SetSession for the owner decided at birth. */
  ghost predicate EntriesBorn(ttl: Time, items: Items, setAt: map<TokenHash, Time>, birth: map<TokenHash, Birth>) {
    && (forall h :: ValidityKey(h) in items ==>
          && h in setAt && h in birth
          && items[ValidityKey(h)] == Item(Validity(birth[h].userId), EntryExpiry(setAt[h], ttl)))
    && (forall h :: h in setAt ==> h in birth && birth[h].at <= setAt[h])
  }

  ghost predicate Clocked(ttl: Time, now: Time, birth: map<TokenHash, Birth>) {
    forall h :: h in birth ==> 0 <= birth[h].at <= now && birth[h].expiresAt == birth[h].at + ttl
  }

  ghost predicate Disclosed(birth: map<TokenHash, Birth>, presented: set<TokenHash>, disclosed: set<TokenHash>) {
    disclosed <= birth.Keys && forall h :: h in presented && h in birth ==> h in disclosed
  }

  /** The part of the invariant that speaks of no flight. */
  ghost predicate Records(cfg: Config, w: World) {
    && 0 <= w.now && Wf(w.db) && RowsBorn(w.db.sessions, w.birth) && EntriesBorn(cfg.ttl, w.items, w.setAt, w.birth)
    && Clocked(cfg.ttl, w.now, w.birth) && Disclosed(w.birth, w.presented, w.disclosed)
  }

  ghost predicate Distinct(w: World) {
    forall f, g {:trigger OwnHash(w.flights[f]), OwnHash(w.flights[g])} ::
      f in w.flights && g in w.flights && f != g && OwnHash(w.flights[f]).Some? ==>
        OwnHash(w.flights[f]) != OwnHash(w.flights[g])
  }

  ghost predicate AllFlights(cfg: Config, w: World) {
    forall f :: f in w.flights ==> f < w.nextFlight && FlightFacts(cfg, w, w.flights[f])
  }

  ghost predicate TokenInv(cfg: Config, w: World) {
    Records(cfg, w) && Distinct(w) && AllFlights(cfg, w)
  }

  // ---------------------------------------------------------------- what one step may change

  predicate SameToken(a: Session, b: Session) {
    && b.tokenHash == a.tokenHash && b.expiresAt == a.expiresAt && b.userId == a.userId
    && (a.deletedAt.Some? ==> b.deletedAt.Some?)
  }

  /** Rows keep id, owner and token, or carry the one hash being written. */
  ghost predicate RowsProgress(a: Store, b: Store, writes: Option<TokenHash>) {
    && a.nextSession <= b.nextSession
    && forall i :: i in b.sessions ==>
         && (i in a.sessions || a.nextSession <= i)
         && (i in a.sessions ==> b.sessions[i].userId == a.sessions[i].userId)
         && (Some(b.sessions[i].tokenHash) == writes || (i in a.sessions && SameToken(a.sessions[i], b.sessions[i])))
  }

  /** `writes` is the hash that may appear in a row, `caches` the one that may be cached and disclosed. */
  ghost predicate Progress(w: World, v: World, writes: Option<TokenHash>, caches: Option<TokenHash>) {
    && w.now <= v.now
    && (forall h :: h in w.birth ==> h in v.birth && v.birth[h] == w.birth[h])
    && (forall h :: h in v.birth ==> h in w.birth || Fresh(w, h))
    && w.presented <= v.presented
    && w.disclosed <= v.disclosed
    && (forall h :: h in v.presented && h in w.birth ==> h in w.presented || h in w.disclosed)
    && (forall h :: h in v.disclosed ==> h in w.disclosed || Some(h) == caches)
    && (forall h :: h in w.setAt ==> h in v.setAt && v.setAt[h] == w.setAt[h])
    && (forall h :: h in v.setAt ==> h in w.setAt || Some(h) == caches)
    && (forall h :: ValidityKey(h) in v.items ==>
          Some(h) == caches || (ValidityKey(h) in w.items && v.items[ValidityKey(h)] == w.items[ValidityKey(h)]))
    && RowsProgress(w.db, v.db, writes)
  }

  ghost predicate Untold(w: World, h: Option<TokenHash>) {
    h.Some? ==> h.value !in w.presented && h.value !in w.setAt
  }

  lemma PendingSurvives(w: World, v: World, writes: Option<TokenHash>, caches: Option<TokenHash>, h: TokenHash)
    requires Disclosed(w.birth, w.presented, w.disclosed) && Progress(w, v, writes, caches) && Pending(w, h)
    requires Some(h) != caches
    ensures Pending(v, h)
    ensures Unwritten(w, h) && Some(h) != writes ==> Unwritten(v, h)
  {
  }

  lemma EndedSurvives(w: World, v: World, writes: Option<TokenHash>, caches: Option<TokenHash>, h: TokenHash,
                      dropped: bool)
    requires Progress(w, v, writes, caches) && Untold(w, writes) && Untold(w, caches) && Ended(w, h, dropped)
    ensures Ended(v, h, dropped)
  {
  }

  lemma LocatedSurvives(w: World, v: World, writes: Option<TokenHash>, caches: Option<TokenHash>, h: TokenHash, id: int)
    requires Progress(w, v, writes, caches) && Untold(w, writes) && LocatedAt(w, h, id)
    ensures LocatedAt(v, h, id)
    ensures forall s: Session :: s.id == id && Located(w, h, s) ==> Located(v, h, s)
  {
  }

  lemma AnswerSurvives(cfg: Config, w: World, v: World, writes: Option<TokenHash>, caches: Option<TokenHash>, a: Answer)
    requires Progress(w, v, writes, caches) && Untold(w, writes) && Untold(w, caches) && AnswerFacts(cfg, w, a)
    ensures AnswerFacts(cfg, v, a)
  {
    if a.Refreshed? { EndedSurvives(w, v, writes, caches, a.prior, a.dropped); }
    else if a.LoggedOut? { EndedSurvives(w, v, writes, caches, a.hash, a.dropped); }
  }

  /** Facts about a flight survive every step of another flight. */
  lemma FactsSurvive(cfg: Config, w: World, v: World, writes: Option<TokenHash>, caches: Option<TokenHash>, fl: Flight)
    requires Disclosed(w.birth, w.presented, w.disclosed)
    requires Progress(w, v, writes, caches) && Untold(w, writes) && Untold(w, caches)
    requires FlightFacts(cfg, w, fl)
    requires OwnHash(fl).Some? ==> OwnHash(fl) != writes && OwnHash(fl) != caches
    ensures FlightFacts(cfg, v, fl)
  {
    if OwnHash(fl).Some? {
      PendingSurvives(w, v, writes, caches, OwnHash(fl).value);
    }
    if fl.Finished? { AnswerSurvives(cfg, w, v, writes, caches, fl.answer); }
    else if fl.OfToken? { TokenFactsSurvive(cfg, w, v, writes, caches, fl.token); }
  }

  lemma TokenFactsSurvive(cfg: Config, w: World, v: World, writes: Option<TokenHash>, caches: Option<TokenHash>,
                          t: Token)
    requires Progress(w, v, writes, caches) && Untold(w, writes) && Untold(w, caches) && TokenFacts(cfg, w, t)
    requires OwnHash(OfToken(t)).Some? ==> var h := OwnHash(OfToken(t)).value;
               Pending(v, h) && (Unwritten(w, h) ==> Unwritten(v, h))
    ensures TokenFacts(cfg, v, t)
  {
    if InSet(t) { AnswerSurvives(cfg, w, v, writes, caches, t.answer); }
    else if t.RefreshClock? || t.RefreshRenew? || t.RefreshUpdate? || t.LogoutClock? {
      LocatedSurvives(w, v, writes, caches, t.hash, t.s.id);
    }
    else if t.LogoutRetire? { LocatedSurvives(w, v, writes, caches, t.hash, t.id); }
    else if t.Drop? { EndedSurvives(w, v, writes, caches, t.hash, t.pass >= 2); }
  }

  // ---------------------------------------------------------------- gluing one step together

  /** The flight that moved owns the hashes it may write or cache. */
  ghost predicate Licensed(w: World, f: int, h: Option<TokenHash>) {
    h.Some? ==> f in w.flights && h == OwnHash(w.flights[f])
  }

  ghost predicate Moved(w: World, v: World, f: int, fl: Flight) {
    && v.flights == w.flights[f := fl]
    && (f in w.flights || f == w.nextFlight)
    && w.nextFlight <= v.nextFlight && f < v.nextFlight
  }

  ghost predicate Inherits(w: World, f: int, fl: Flight) {
    OwnHash(fl).Some? ==> Fresh(w, OwnHash(fl).value) || (f in w.flights && OwnHash(w.flights[f]) == OwnHash(fl))
  }

  /** An owned hash is untold, so no other flight speaks about it. */
  lemma LicensedUntold(cfg: Config, w: World, f: int, h: Option<TokenHash>)
    requires TokenInv(cfg, w) && Licensed(w, f, h)
    ensures Untold(w, h)
    ensures h.Some? ==> Pending(w, h.value)
  {
    if h.Some? { assert FlightFacts(cfg, w, w.flights[f]); }
  }

  lemma OtherSurvives(cfg: Config, w: World, v: World, f: int, g: int,
                      writes: Option<TokenHash>, caches: Option<TokenHash>)
    requires TokenInv(cfg, w) && g in w.flights && g != f
    requires Progress(w, v, writes, caches) && Licensed(w, f, writes) && Licensed(w, f, caches)
    ensures FlightFacts(cfg, v, w.flights[g])
  {
    LicensedUntold(cfg, w, f, writes);
    LicensedUntold(cfg, w, f, caches);
    if OwnHash(w.flights[g]).Some? && f in w.flights {
      assert OwnHash(w.flights[g]) != OwnHash(w.flights[f]);
    }
    FactsSurvive(cfg, w, v, writes, caches, w.flights[g]);
  }

  lemma DistinctKept(cfg: Config, w: World, v: World, f: int, fl: Flight)
    requires TokenInv(cfg, w) && Moved(w, v, f, fl) && Inherits(w, f, fl)
    ensures Distinct(v)
  {
    forall g | g in w.flights && g != f && OwnHash(w.flights[g]).Some?
      ensures OwnHash(w.flights[g]) != OwnHash(fl)
    {
      LicensedUntold(cfg, w, g, OwnHash(w.flights[g]));
      if f in w.flights { assert OwnHash(w.flights[g]) != OwnHash(w.flights[f]); }
    }
  }

  lemma MoveKeeps(cfg: Config, w: World, v: World, f: int, fl: Flight,
                  writes: Option<TokenHash>, caches: Option<TokenHash>)
    requires TokenInv(cfg, w) && Moved(w, v, f, fl) && Inherits(w, f, fl)
    requires Progress(w, v, writes, caches) && Licensed(w, f, writes) && Licensed(w, f, caches)
    requires Records(cfg, v) && FlightFacts(cfg, v, fl)
    ensures TokenInv(cfg, v)
  {
    DistinctKept(cfg, w, v, f, fl);
    forall g | g in v.flights ensures g < v.nextFlight && FlightFacts(cfg, v, v.flights[g]) {
      if g != f { OtherSurvives(cfg, w, v, f, g, writes, caches); }
    }
  }

  /** A step that changes nothing but one flight. */
  lemma QuietMoveKeeps(cfg: Config, w: World, f: int, fl: Flight)
    requires TokenInv(cfg, w) && f in w.flights && Inherits(w, f, fl) && FlightFacts(cfg, w, fl)
    ensures TokenInv(cfg, Move(w, f, fl))
  {
    var v := Move(w, f, fl);
    assert Progress(w, v, None, None);
    FactsInMoved(cfg, w, f, fl, fl);
    MoveKeeps(cfg, w, v, f, fl, None, None);
  }

  lemma FactsInMoved(cfg: Config, w: World, f: int, fl: Flight, any: Flight)
    requires FlightFacts(cfg, w, any)
    ensures FlightFacts(cfg, Move(w, f, fl), any)
  {
  }
}
