/** Every step of every flight, of the worker, of the cache and of the clock keeps TokenInv. */
module TokenSteps {
  import opened Domain
  import opened Tables
  import opened CacheStates
  import opened Flights
  import opened Interleaving
  import opened TokenInvariant

  // ---------------------------------------------------------------- small kinds of progress

  lemma TableProgress(w: World, v: World, writes: Option<TokenHash>)
    requires v == w.(db := v.db, flights := v.flights)
    requires RowsProgress(w.db, v.db, writes)
    ensures Progress(w, v, writes, None)
  {
  }

  /** Entries removed, or session bodies stored: no new validity entry. */
  lemma CacheProgress(w: World, v: World)
    requires v == w.(items := v.items, flights := v.flights)
    requires forall k :: k in v.items && k.ValidityKey? ==> k in w.items && v.items[k] == w.items[k]
    ensures Progress(w, v, None, None)
  {
    assert RowsProgress(w.db, v.db, None);
  }

  lemma DisclosureProgress(w: World, v: World, h: TokenHash)
    requires v == w.(items := v.items, setAt := v.setAt, disclosed := v.disclosed, flights := v.flights)
    requires w.disclosed <= v.disclosed <= w.disclosed + {h}
    requires h !in w.setAt && (v.setAt == w.setAt || v.setAt == w.setAt[h := w.now])
    requires forall k :: k in v.items && k.ValidityKey? && k != ValidityKey(h) ==>
             k in w.items && v.items[k] == w.items[k]
    requires ValidityKey(h) !in w.items
    ensures Progress(w, v, None, Some(h))
  {
    assert RowsProgress(w.db, v.db, None);
  }

  lemma BirthProgress(w: World, v: World, h: TokenHash, b: Birth)
    requires Fresh(w, h) && v == w.(birth := w.birth[h := b], flights := v.flights)
    ensures Progress(w, v, None, None)
  {
    assert RowsProgress(w.db, v.db, None);
  }

  lemma BeginProgress(w: World, op: Flight)
    requires MayBegin(w, op)
    ensures Progress(w, BeginStep(w, op), None, None)
  {
    assert RowsProgress(w.db, w.db, None);
  }

  // ---------------------------------------------------------------- account flights

  /** Fewer rows, nothing else: the hashes left keep their facts. */
  lemma ShrinkKeeps(cfg: Config, w: World, f: int, fl: Flight, db: Store)
    requires TokenInv(cfg, w) && f in w.flights && SessionsShrink(w.db, db) && Wf(db)
    requires fl.OfAccount? || fl == Finished(Failed) || fl == Finished(Done) || (fl.OfToken? && fl.token.Open?)
    ensures TokenInv(cfg, Move(w, f, fl).(db := db))
  {
    var v := Move(w, f, fl).(db := db);
    ShrinkFacts(w, v);
    TableProgress(w, v, None);
    MoveKeeps(cfg, w, v, f, fl, None, None);
  }

  lemma ShrinkFacts(w: World, v: World)
    requires RowsBorn(w.db.sessions, w.birth) && v.birth == w.birth && SessionsShrink(w.db, v.db)
    ensures RowsBorn(v.db.sessions, v.birth) && RowsProgress(w.db, v.db, None)
  {
  }

  lemma AccountKeeps(cfg: Config, w: World, f: int, a: Account, c: Choice)
    requires TokenInv(cfg, w) && f in w.flights
    ensures var (db, fl) := AccountStep(w.db, a, w.now, cfg.otpExpiry, c);
            TokenInv(cfg, Move(w, f, fl).(db := db))
  {
    AccountStepKeeps(w.db, a, w.now, cfg.otpExpiry, c);
    var (db, fl) := AccountStep(w.db, a, w.now, cfg.otpExpiry, c);
    ShrinkKeeps(cfg, w, f, fl, db);
  }

  // ---------------------------------------------------------------- createSession

  lemma InsertSessionRows(db: Store, uid: int, hash: TokenHash, expiresAt: Time, now: Time, ok: bool)
    requires Wf(db)
    ensures var (b, s) := InsertSession(db, uid, hash, expiresAt, now, ok);
            && RowsProgress(db, b, Some(hash))
            && (forall i :: i in b.sessions && i !in db.sessions ==> s == Some(b.sessions[i]))
            && (s.Some? ==> s.value.id in b.sessions && b.sessions[s.value.id] == s.value
                            && forall i :: i in b.sessions && b.sessions[i].tokenHash == hash ==> i == s.value.id)
  {
  }

  lemma BirthKeeps(cfg: Config, w: World, v: World, f: int, fl: Flight, h: TokenHash, b: Birth)
    requires TokenInv(cfg, w) && f in w.flights && Fresh(w, h) && v == Move(w, f, fl).(birth := w.birth[h := b])
    requires b.at == w.now && b.expiresAt == w.now + cfg.ttl
    requires OwnHash(fl) == Some(h) && FlightFacts(cfg, v, fl)
    ensures TokenInv(cfg, v)
  {
    BirthProgress(w, v, h, b);
    MoveKeeps(cfg, w, v, f, fl, None, None);
  }

  lemma FreshUntouched(cfg: Config, w: World, h: TokenHash)
    requires TokenInv(cfg, w) && Fresh(w, h)
    ensures h !in w.disclosed && h !in w.setAt && ValidityKey(h) !in w.items && Unwritten(w, h)
  {
    forall i | i in w.db.sessions ensures w.db.sessions[i].tokenHash != h {
      assert w.db.sessions[i].tokenHash in w.birth;
    }
  }

  lemma OpenKeeps(cfg: Config, w: World, f: int, t: Token, c: Choice)
    requires TokenInv(cfg, w) && f in w.flights && w.flights[f] == OfToken(t) && t.Open?
    ensures TokenInv(cfg, OpenStep(cfg, w, f, t, c))
  {
    var v := OpenStep(cfg, w, f, t, c);
    if Fails(c, Randomness) {
      assert v == Move(w, f, FAILED);
      QuietMoveKeeps(cfg, w, f, FAILED);
    } else if Fresh(w, c.hash) {
      assert v == Generated(cfg, w, f, t.uid, t.origin, c.hash);
      GenerationKeeps(cfg, w, f, t.uid, t.origin, c.hash);
    } else {
      assert v == w;
    }
  }

  function Generated(cfg: Config, w: World, f: int, uid: int, origin: Origin, h: TokenHash): World {
    Move(w, f, OfToken(OpenInsert(uid, origin, h, w.now + cfg.ttl)))
      .(birth := w.birth[h := Birth(uid, w.now + cfg.ttl, w.now)])
  }

  lemma GenerationFacts(cfg: Config, w: World, f: int, uid: int, origin: Origin, h: TokenHash)
    requires h !in w.disclosed && h !in w.presented && h !in w.setAt && ValidityKey(h) !in w.items && Unwritten(w, h)
    ensures var v := Generated(cfg, w, f, uid, origin, h); FlightFacts(cfg, v, v.flights[f])
  {
  }

  lemma GenerationKeeps(cfg: Config, w: World, f: int, uid: int, origin: Origin, h: TokenHash)
    requires TokenInv(cfg, w) && f in w.flights && Fresh(w, h)
    ensures TokenInv(cfg, Generated(cfg, w, f, uid, origin, h))
  {
    var v := Generated(cfg, w, f, uid, origin, h);
    FreshUntouched(cfg, w, h);
    GenerationFacts(cfg, w, f, uid, origin, h);
    BirthKeeps(cfg, w, v, f, OfToken(OpenInsert(uid, origin, h, w.now + cfg.ttl)), h,
               Birth(uid, w.now + cfg.ttl, w.now));
  }

  lemma OpenInsertKeeps(cfg: Config, w: World, f: int, t: Token, c: Choice)
    requires TokenInv(cfg, w) && f in w.flights && w.flights[f] == OfToken(t) && t.OpenInsert?
    ensures TokenInv(cfg, OpenStep(cfg, w, f, t, c))
  {
    var v := OpenStep(cfg, w, f, t, c);
    InsertionShape(cfg, w, f, t.uid, t.origin, t.hash, t.expiresAt, c);
    InsertionKeeps(cfg, w, v, f, t, !Fails(c, CreateSession));
  }

  lemma InsertionKeeps(cfg: Config, w: World, v: World, f: int, t: Token, ok: bool)
    requires TokenInv(cfg, w) && f in w.flights && w.flights[f] == OfToken(t) && t.OpenInsert?
    requires RowWritten(w, v, f) && InsertedNext(v.flights[f], t.uid, t.origin, t.hash)
    requires v.db == InsertSession(w.db, t.uid, t.hash, t.expiresAt, w.now, ok).0
    ensures TokenInv(cfg, v)
  {
    assert FlightFacts(cfg, w, w.flights[f]);
    OpenInsertTables(w, t, ok);
    InsertionFacts(cfg, w, v, f, t.uid, t.origin, t.hash);
    TableProgress(w, v, Some(t.hash));
    MoveKeeps(cfg, w, v, f, v.flights[f], Some(t.hash), None);
  }

  lemma OpenInsertTables(w: World, t: Token, ok: bool)
    requires Wf(w.db) && RowsBorn(w.db.sessions, w.birth) && t.OpenInsert?
    requires BornFor(w, t.hash, t.uid) && w.birth[t.hash].expiresAt == t.expiresAt
    ensures var (b, _) := InsertSession(w.db, t.uid, t.hash, t.expiresAt, w.now, ok);
            RowsProgress(w.db, b, Some(t.hash)) && RowsBorn(b.sessions, w.birth) && Wf(b)
  {
    InsertSessionRows(w.db, t.uid, t.hash, t.expiresAt, w.now, ok);
  }

  /** Failed, or about to cache the row of the hash. */
  predicate InsertedNext(fl: Flight, uid: int, origin: Origin, h: TokenHash) {
    || fl == FAILED
    || (fl.OfToken? && fl.token.SetFirst? && fl.token.s.tokenHash == h && fl.token.s.userId == uid
        && fl.token.answer == Opened(h, uid, origin))
  }

  /** Nothing but the tables and the flight is changed. */
  ghost predicate RowWritten(w: World, v: World, f: int) {
    f in v.flights && v == w.(db := v.db, flights := w.flights[f := v.flights[f]])
  }

  lemma InsertionShape(cfg: Config, w: World, f: int, uid: int, origin: Origin, h: TokenHash, expiresAt: Time,
                       c: Choice)
    ensures var v := OpenStep(cfg, w, f, OpenInsert(uid, origin, h, expiresAt), c);
            && RowWritten(w, v, f) && InsertedNext(v.flights[f], uid, origin, h)
            && v.db == InsertSession(w.db, uid, h, expiresAt, w.now, !Fails(c, CreateSession)).0
  {
  }

  lemma InsertionFacts(cfg: Config, w: World, v: World, f: int, uid: int, origin: Origin, h: TokenHash)
    requires Pending(w, h) && BornFor(w, h, uid) && RowWritten(w, v, f) && InsertedNext(v.flights[f], uid, origin, h)
    ensures FlightFacts(cfg, v, v.flights[f]) && (v.flights[f] == FAILED || OwnHash(v.flights[f]) == Some(h))
  {
  }

  // ---------------------------------------------------------------- SetSession

  /** Ending a flight may disclose the hash it owns. */
  lemma FinishKeeps(cfg: Config, w: World, f: int, s: Session, a: Answer)
    requires TokenInv(cfg, w) && f in w.flights && OwnHash(w.flights[f]) == Some(s.tokenHash)
    requires SetFacts(cfg, w, s, a)
    ensures TokenInv(cfg, Finish(w, f, a))
  {
    var v := Finish(w, f, a);
    DisclosureProgress(w, v, s.tokenHash);
    AnswerKeptBySet(cfg, w, v, s.tokenHash, a);
    MoveKeeps(cfg, w, v, f, Finished(a), None, Some(s.tokenHash));
  }

  lemma SetFirstKeeps(cfg: Config, w: World, f: int, t: Token, c: Choice)
    requires TokenInv(cfg, w) && f in w.flights && w.flights[f] == OfToken(t) && t.SetFirst?
    ensures TokenInv(cfg, SetStep(cfg, w, f, t, c))
  {
    assert FlightFacts(cfg, w, w.flights[f]);
    if Fails(c, CacheSetSession) {
      FinishKeeps(cfg, w, f, t.s, t.answer);
    } else {
      var v := SetStep(cfg, w, f, t, c);
      CacheProgress(w, v);
      AnswerSurvives(cfg, w, v, None, None, t.answer);
      MoveKeeps(cfg, w, v, f, OfToken(SetSecond(t.s, t.answer)), None, None);
    }
  }

  lemma SetSecondKeeps(cfg: Config, w: World, f: int, t: Token, c: Choice)
    requires TokenInv(cfg, w) && f in w.flights && w.flights[f] == OfToken(t) && t.SetSecond?
    ensures TokenInv(cfg, SetStep(cfg, w, f, t, c))
  {
    assert FlightFacts(cfg, w, w.flights[f]);
    if Fails(c, CacheSetValidity) {
      FinishKeeps(cfg, w, f, t.s, t.answer);
    } else {
      var h := t.s.tokenHash;
      var v := SetStep(cfg, w, f, t, c);
      DisclosureProgress(w, v, h);
      EntryStored(cfg, w, v, t.s);
      AnswerKeptBySet(cfg, w, v, h, t.answer);
      MoveKeeps(cfg, w, v, f, Finished(t.answer), None, Some(h));
    }
  }

  lemma EntryStored(cfg: Config, w: World, v: World, s: Session)
    requires EntriesBorn(cfg.ttl, w.items, w.setAt, w.birth) && BornFor(w, s.tokenHash, s.userId)
    requires v.birth == w.birth && v.now == w.now && v.setAt == w.setAt[s.tokenHash := w.now]
    requires v.items == w.items[ValidityKey(s.tokenHash) := Item(Validity(s.userId), EntryExpiry(w.now, cfg.ttl))]
    requires s.tokenHash !in w.setAt && Clocked(cfg.ttl, w.now, w.birth)
    ensures EntriesBorn(cfg.ttl, v.items, v.setAt, v.birth)
  {
  }

  lemma AnswerKeptBySet(cfg: Config, w: World, v: World, h: TokenHash, a: Answer)
    requires Progress(w, v, None, Some(h)) && Pending(w, h) && AnswerFacts(cfg, w, a)
    ensures AnswerFacts(cfg, v, a)
  {
    AnswerSurvives(cfg, w, v, None, Some(h), a);
  }

  // ---------------------------------------------------------------- ValidateSession

  /** A validation goes on with what it read, or ends. */
  /** A validation goes on with what it read, or ends. */
  ghost predicate ReadsOn(cfg: Config, w: World, f: int, v: World) {
    f in v.flights && v == Move(w, f, v.flights[f]) && FlightFacts(cfg, w, v.flights[f]) && OwnHash(v.flights[f]).None?
  }

  lemma AskShape(w: World, f: int, h: TokenHash, c: Choice)
    ensures var v := ValidateStep(w, f, ValidateStart(h), c);
            && f in v.flights && v == Move(w, f, v.flights[f])
            && (v.flights[f] == OfToken(ValidateRow(h))
                || (v.flights[f].OfToken? && v.flights[f].token.ValidateUser? && v.flights[f].token.hash == h
                    && v.flights[f].token.readAt == w.now
                    && Lookup(w.items, ValidityKey(h), w.now) == Some(Validity(v.flights[f].token.uid))))
  {
  }

  lemma ValidateStartFacts(cfg: Config, w: World, f: int, h: TokenHash, c: Choice)
    requires EntriesBorn(cfg.ttl, w.items, w.setAt, w.birth)
    ensures ReadsOn(cfg, w, f, ValidateStep(w, f, ValidateStart(h), c))
  {
    AskShape(w, f, h, c);
  }

  lemma ValidateRowFacts(cfg: Config, w: World, f: int, h: TokenHash, c: Choice)
    requires RowsBorn(w.db.sessions, w.birth)
    ensures ReadsOn(cfg, w, f, ValidateStep(w, f, ValidateRow(h), c))
  {
    OwnerIsBorn(cfg, w, h);
    RowRead(w, f, h, c);
  }

  lemma OwnerIsBorn(cfg: Config, w: World, h: TokenHash)
    requires RowsBorn(w.db.sessions, w.birth)
    ensures var owner := TokenOwner(w.db, h, w.now); owner.Some? ==> Accepted(cfg, w, h, owner.value, w.now)
  {
  }

  lemma ValidateUserFacts(cfg: Config, w: World, f: int, h: TokenHash, uid: int, at: Time, c: Choice)
    requires Accepted(cfg, w, h, uid, at)
    ensures ReadsOn(cfg, w, f, ValidateStep(w, f, ValidateUser(h, uid, at), c))
  {
  }

  lemma ValidateKeeps(cfg: Config, w: World, f: int, t: Token, c: Choice)
    requires TokenInv(cfg, w) && f in w.flights && w.flights[f] == OfToken(t)
    requires InValidate(t)
    ensures TokenInv(cfg, ValidateStep(w, f, t, c))
  {
    assert FlightFacts(cfg, w, w.flights[f]);
    if t.ValidateStart? { ValidateStartFacts(cfg, w, f, t.hash, c); }
    else if t.ValidateRow? { ValidateRowFacts(cfg, w, f, t.hash, c); }
    else { ValidateUserFacts(cfg, w, f, t.hash, t.uid, t.readAt, c); }
    QuietMoveKeeps(cfg, w, f, ValidateStep(w, f, t, c).flights[f]);
  }

  // ---------------------------------------------------------------- RefreshSession

  lemma FoundIsLocated(cfg: Config, w: World, h: TokenHash)
    requires TokenInv(cfg, w) && h in w.presented && LiveSession(w.db, h).Some?
    ensures var s := LiveSession(w.db, h).value; s.tokenHash == h && Located(w, h, s)
  {
  }

  /** A flight that has read the live row of its hash, or failed to. */
  lemma ReadKeeps(cfg: Config, w: World, f: int, h: TokenHash, fl: Flight)
    requires TokenInv(cfg, w) && f in w.flights && w.flights[f].OfToken?
    requires w.flights[f] in {OfToken(RefreshStart(h)), OfToken(LogoutStart(h))}
    requires fl == FAILED
             || (LiveSession(w.db, h).Some?
                 && fl in {OfToken(RefreshClock(h, LiveSession(w.db, h).value)),
                           OfToken(LogoutClock(h, LiveSession(w.db, h).value))})
    ensures TokenInv(cfg, Move(w, f, fl))
  {
    assert FlightFacts(cfg, w, w.flights[f]);
    if fl != FAILED { FoundIsLocated(cfg, w, h); }
    QuietMoveKeeps(cfg, w, f, fl);
  }

  lemma RefreshReadShape(cfg: Config, w: World, f: int, h: TokenHash, c: Choice)
    ensures var v := RefreshStep(cfg, w, f, RefreshStart(h), c);
            && f in v.flights && v == Move(w, f, v.flights[f])
            && (v.flights[f] == FAILED
                || (LiveSession(w.db, h).Some? && v.flights[f] == OfToken(RefreshClock(h, LiveSession(w.db, h).value))))
  {
  }

  lemma RefreshReadKeeps(cfg: Config, w: World, f: int, t: Token, c: Choice)
    requires TokenInv(cfg, w) && f in w.flights && w.flights[f] == OfToken(t) && t.RefreshStart?
    ensures TokenInv(cfg, RefreshStep(cfg, w, f, t, c))
  {
    RefreshReadShape(cfg, w, f, t.hash, c);
    ReadKeeps(cfg, w, f, t.hash, RefreshStep(cfg, w, f, t, c).flights[f]);
  }

  lemma RefreshClockKeeps(cfg: Config, w: World, f: int, t: Token, c: Choice)
    requires TokenInv(cfg, w) && f in w.flights && w.flights[f] == OfToken(t) && t.RefreshClock?
    ensures TokenInv(cfg, RefreshStep(cfg, w, f, t, c))
  {
    assert FlightFacts(cfg, w, w.flights[f]);
    var fl := if w.now > t.s.expiresAt then FAILED else OfToken(RefreshRenew(t.hash, t.s));
    QuietMoveKeeps(cfg, w, f, fl);
    assert RefreshStep(cfg, w, f, t, c) == Move(w, f, fl);
  }

  lemma RefreshRenewKeeps(cfg: Config, w: World, f: int, t: Token, c: Choice)
    requires TokenInv(cfg, w) && f in w.flights && w.flights[f] == OfToken(t) && t.RefreshRenew?
    ensures TokenInv(cfg, RefreshStep(cfg, w, f, t, c))
  {
    var v := RefreshStep(cfg, w, f, t, c);
    assert FlightFacts(cfg, w, w.flights[f]);
    if Fails(c, Randomness) {
      assert v == Move(w, f, FAILED);
      QuietMoveKeeps(cfg, w, f, FAILED);
    } else if Fresh(w, c.hash) {
      assert v == Regenerated(cfg, w, f, t.hash, t.s, c.hash);
      RenewalKeeps(cfg, w, f, t.hash, t.s, c.hash);
    } else {
      assert v == w;
    }
  }

  function Regenerated(cfg: Config, w: World, f: int, h: TokenHash, s: Session, generated: TokenHash): World {
    var renewed := s.(tokenHash := generated, expiresAt := w.now + cfg.ttl);
    Move(w, f, OfToken(RefreshUpdate(h, renewed)))
      .(birth := w.birth[generated := Birth(s.userId, w.now + cfg.ttl, w.now)])
  }

  lemma RenewalFacts(cfg: Config, w: World, f: int, h: TokenHash, s: Session, generated: TokenHash)
    requires generated !in w.disclosed && generated !in w.presented && generated !in w.setAt
    requires ValidityKey(generated) !in w.items && Unwritten(w, generated) && Located(w, h, s)
    ensures var v := Regenerated(cfg, w, f, h, s, generated); FlightFacts(cfg, v, v.flights[f])
  {
  }

  lemma RenewalKeeps(cfg: Config, w: World, f: int, h: TokenHash, s: Session, generated: TokenHash)
    requires TokenInv(cfg, w) && f in w.flights && Fresh(w, generated) && s.tokenHash == h && Located(w, h, s)
    ensures TokenInv(cfg, Regenerated(cfg, w, f, h, s, generated))
  {
    var v := Regenerated(cfg, w, f, h, s, generated);
    FreshUntouched(cfg, w, generated);
    RenewalFacts(cfg, w, f, h, s, generated);
    BirthKeeps(cfg, w, v, f, v.flights[f], generated, Birth(s.userId, w.now + cfg.ttl, w.now));
  }

  lemma UpdateRows(db: Store, s: Session, ok: bool)
    requires Wf(db) && (s.id in db.sessions ==> db.sessions[s.id].userId == s.userId)
    ensures var (b, done) := UpdateSessionRow(db, s, ok);
            && Wf(b) && RowsProgress(db, b, Some(s.tokenHash))
            && b.sessions.Keys == db.sessions.Keys
            && (forall i :: i in b.sessions && b.sessions[i] != db.sessions[i] ==>
                  i == s.id && b.sessions[i].tokenHash == s.tokenHash && b.sessions[i].expiresAt == s.expiresAt)
            && (done && s.id in b.sessions ==> b.sessions[s.id].tokenHash == s.tokenHash)
  {
  }

  lemma RefreshUpdateKeeps(cfg: Config, w: World, f: int, t: Token, c: Choice)
    requires TokenInv(cfg, w) && f in w.flights && w.flights[f] == OfToken(t) && t.RefreshUpdate?
    ensures TokenInv(cfg, RefreshStep(cfg, w, f, t, c))
  {
    assert FlightFacts(cfg, w, w.flights[f]);
    var v := RefreshStep(cfg, w, f, t, c);
    RefreshUpdateTables(w, t.hash, t.s, !Fails(c, UpdateSession));
    RefreshUpdateFacts(cfg, w, f, t, c);
    TableProgress(w, v, Some(t.s.tokenHash));
    MoveKeeps(cfg, w, v, f, v.flights[f], Some(t.s.tokenHash), None);
  }

  lemma RefreshUpdateTables(w: World, h: TokenHash, s: Session, ok: bool)
    requires Wf(w.db) && RowsBorn(w.db.sessions, w.birth) && Located(w, h, s) && s.tokenHash != h
    requires BornFor(w, s.tokenHash, s.userId) && w.birth[s.tokenHash].expiresAt == s.expiresAt
    ensures var (b, done) := UpdateSessionRow(w.db, s, ok);
            && RowsProgress(w.db, b, Some(s.tokenHash)) && RowsBorn(b.sessions, w.birth) && Wf(b)
            && (done ==> forall i :: i in b.sessions ==> b.sessions[i].tokenHash != h)
  {
    UpdateRows(w.db, s, ok);
    var (b, done) := UpdateSessionRow(w.db, s, ok);
    forall i | i in b.sessions && done ensures b.sessions[i].tokenHash != h {
      if i != s.id { assert b.sessions[i] == w.db.sessions[i]; }
    }
  }

  /** After the UPDATE no row holds the presented hash: the row it lived in was overwritten,
      or had already moved on, or is gone. */
  lemma RefreshUpdateFacts(cfg: Config, w: World, f: int, t: Token, c: Choice)
    requires t.RefreshUpdate? && Pending(w, t.s.tokenHash) && BornFor(w, t.s.tokenHash, t.s.userId)
    requires t.hash in w.presented
    requires var (b, done) := UpdateSessionRow(w.db, t.s, !Fails(c, UpdateSession));
             done ==> forall i :: i in b.sessions ==> b.sessions[i].tokenHash != t.hash
    ensures var fl := RefreshStep(cfg, w, f, t, c).flights[f];
            && FlightFacts(cfg, RefreshStep(cfg, w, f, t, c), fl)
            && (fl == FAILED || OwnHash(fl) == Some(t.s.tokenHash))
  {
  }

  // ---------------------------------------------------------------- Logout

  lemma LogoutReadShape(w: World, f: int, h: TokenHash, c: Choice)
    ensures var v := LogoutStep(w, f, LogoutStart(h), c);
            && f in v.flights && v == Move(w, f, v.flights[f])
            && (v.flights[f] == FAILED
                || (LiveSession(w.db, h).Some? && v.flights[f] == OfToken(LogoutClock(h, LiveSession(w.db, h).value))))
  {
  }

  lemma LogoutReadKeeps(cfg: Config, w: World, f: int, t: Token, c: Choice)
    requires TokenInv(cfg, w) && f in w.flights && w.flights[f] == OfToken(t) && t.LogoutStart?
    ensures TokenInv(cfg, LogoutStep(w, f, t, c))
  {
    LogoutReadShape(w, f, t.hash, c);
    ReadKeeps(cfg, w, f, t.hash, LogoutStep(w, f, t, c).flights[f]);
  }

  lemma LogoutClockKeeps(cfg: Config, w: World, f: int, t: Token, c: Choice)
    requires TokenInv(cfg, w) && f in w.flights && w.flights[f] == OfToken(t) && t.LogoutClock?
    ensures TokenInv(cfg, LogoutStep(w, f, t, c))
  {
    assert FlightFacts(cfg, w, w.flights[f]);
    var fl := if w.now > t.s.expiresAt then FAILED else OfToken(LogoutRetire(t.hash, t.s.id));
    QuietMoveKeeps(cfg, w, f, fl);
    assert LogoutStep(w, f, t, c) == Move(w, f, fl);
  }

  lemma LogoutRetireKeeps(cfg: Config, w: World, f: int, t: Token, c: Choice)
    requires TokenInv(cfg, w) && f in w.flights && w.flights[f] == OfToken(t) && t.LogoutRetire?
    ensures TokenInv(cfg, LogoutStep(w, f, t, c))
  {
    assert FlightFacts(cfg, w, w.flights[f]);
    var v := LogoutStep(w, f, t, c);
    LogoutRetireTables(w, t.hash, t.id, !Fails(c, SoftDeleteSession));
    LogoutRetireFacts(cfg, w, f, t, c);
    TableProgress(w, v, None);
    MoveKeeps(cfg, w, v, f, v.flights[f], None, None);
  }

  lemma RetireRows(db: Store, id: int, now: Time, ok: bool)
    ensures RowsProgress(db, RetireSession(db, id, now, ok), None)
  {
  }

  lemma LogoutRetireTables(w: World, h: TokenHash, id: int, ok: bool)
    requires Wf(w.db) && RowsBorn(w.db.sessions, w.birth) && LocatedAt(w, h, id)
    ensures var b := RetireSession(w.db, id, w.now, ok);
            && RowsProgress(w.db, b, None) && RowsBorn(b.sessions, w.birth) && Wf(b)
            && (ok ==> forall i :: i in b.sessions && b.sessions[i].tokenHash == h ==> b.sessions[i].deletedAt.Some?)
  {
  }

  lemma LogoutRetireFacts(cfg: Config, w: World, f: int, t: Token, c: Choice)
    requires t.LogoutRetire? && t.hash in w.presented
    requires var b := RetireSession(w.db, t.id, w.now, !Fails(c, SoftDeleteSession));
             !Fails(c, SoftDeleteSession) ==>
               forall i :: i in b.sessions && b.sessions[i].tokenHash == t.hash ==> b.sessions[i].deletedAt.Some?
    ensures var fl := LogoutStep(w, f, t, c).flights[f];
            FlightFacts(cfg, LogoutStep(w, f, t, c), fl) && OwnHash(fl).None?
  {
  }

  // ---------------------------------------------------------------- InvalidateSessionToken

  lemma DropKeeps(cfg: Config, w: World, f: int, t: Token, c: Choice)
    requires TokenInv(cfg, w) && f in w.flights && w.flights[f] == OfToken(t) && t.Drop?
    ensures TokenInv(cfg, DropStep(w, f, t, c))
  {
    assert FlightFacts(cfg, w, w.flights[f]);
    var v := DropStep(w, f, t, c);
    DropFacts(cfg, w, f, t, c);
    DropShape(w, f, t, c);
    EntriesRemoved(cfg, w, v);
    MoveKeeps(cfg, w, v, f, v.flights[f], None, None);
  }

  lemma DropShape(w: World, f: int, t: Token, c: Choice)
    requires t.Drop?
    ensures var v := DropStep(w, f, t, c);
            && v == w.(items := v.items, flights := w.flights[f := v.flights[f]])
            && (v.items == w.items || exists k :: v.items == w.items - {k})
  {
    var (key, site) := DropTarget(t.hash, t.pass);
    var u := w.(items := w.items - {key});
    if Fails(c, site) { AfterDropLeads(w, f, t.hash, t.renewed, false); }
    else {
      if t.pass >= 3 { AfterDropLeads(u, f, t.hash, t.renewed, true); }
      assert DropStep(w, f, t, c).items == w.items - {key};
    }
  }

  lemma EntriesRemoved(cfg: Config, w: World, v: World)
    requires v == w.(items := v.items, flights := v.flights)
    requires v.items == w.items || exists k :: v.items == w.items - {k}
    requires EntriesBorn(cfg.ttl, w.items, w.setAt, w.birth)
    ensures EntriesBorn(cfg.ttl, v.items, v.setAt, v.birth) && Progress(w, v, None, None)
  {
    assert forall k :: k in v.items ==> k in w.items && v.items[k] == w.items[k];
    CacheProgress(w, v);
  }

  lemma AfterDropFacts(cfg: Config, w: World, f: int, h: TokenHash, renewed: Option<Session>, dropped: bool)
    requires Ended(w, h, dropped)
    requires renewed.Some? ==>
             Pending(w, renewed.value.tokenHash) && BornFor(w, renewed.value.tokenHash, renewed.value.userId)
    ensures var v := AfterDrop(w, f, h, renewed, dropped);
            && FlightFacts(cfg, v, v.flights[f])
            && (OwnHash(v.flights[f]).Some? ==> renewed.Some? && OwnHash(v.flights[f]) == Some(renewed.value.tokenHash))
  {
  }

  lemma DropFacts(cfg: Config, w: World, f: int, t: Token, c: Choice)
    requires t.Drop? && FlightFacts(cfg, w, OfToken(t))
    ensures var v := DropStep(w, f, t, c);
            && FlightFacts(cfg, v, v.flights[f])
            && (OwnHash(v.flights[f]).Some? ==> OwnHash(v.flights[f]) == OwnHash(OfToken(t)))
  {
    var (key, site) := DropTarget(t.hash, t.pass);
    var w' := w.(items := w.items - {key});
    if Fails(c, site) {
      AfterDropFacts(cfg, w, f, t.hash, t.renewed, false);
    } else if t.pass >= 3 {
      AfterDropFacts(cfg, w', f, t.hash, t.renewed, true);
    } else {
      assert Ended(w', t.hash, t.pass + 1 >= 2);
    }
  }

  // ---------------------------------------------------------------- everything else

  lemma TokenStepKeeps(cfg: Config, w: World, f: int, t: Token, c: Choice)
    requires TokenInv(cfg, w) && f in w.flights && w.flights[f] == OfToken(t)
    ensures TokenInv(cfg, TokenStep(cfg, w, f, t, c))
  {
    if t.Open? { OpenKeeps(cfg, w, f, t, c); }
    else if t.OpenInsert? { OpenInsertKeeps(cfg, w, f, t, c); }
    else if t.SetFirst? { SetFirstKeeps(cfg, w, f, t, c); }
    else if t.SetSecond? { SetSecondKeeps(cfg, w, f, t, c); }
    else if InValidate(t) { ValidateKeeps(cfg, w, f, t, c); }
    else if t.Drop? { DropKeeps(cfg, w, f, t, c); }
    else { RowStepKeeps(cfg, w, f, t, c); }
  }

  lemma RowStepKeeps(cfg: Config, w: World, f: int, t: Token, c: Choice)
    requires TokenInv(cfg, w) && f in w.flights && w.flights[f] == OfToken(t)
    requires InRefresh(t) || InLogout(t)
    ensures TokenInv(cfg, TokenStep(cfg, w, f, t, c))
  {
    StepOf(cfg, w, f, t, c);
    if InRefresh(t) {
      RefreshKeeps(cfg, w, f, t, c);
    } else {
      LogoutKeeps(cfg, w, f, t, c);
    }
  }

  lemma RefreshKeeps(cfg: Config, w: World, f: int, t: Token, c: Choice)
    requires TokenInv(cfg, w) && f in w.flights && w.flights[f] == OfToken(t)
    requires InRefresh(t)
    ensures TokenInv(cfg, RefreshStep(cfg, w, f, t, c))
  {
    if t.RefreshStart? { RefreshReadKeeps(cfg, w, f, t, c); }
    else if t.RefreshClock? { RefreshClockKeeps(cfg, w, f, t, c); }
    else if t.RefreshRenew? { RefreshRenewKeeps(cfg, w, f, t, c); }
    else { RefreshUpdateKeeps(cfg, w, f, t, c); }
  }

  lemma LogoutKeeps(cfg: Config, w: World, f: int, t: Token, c: Choice)
    requires TokenInv(cfg, w) && f in w.flights && w.flights[f] == OfToken(t)
    requires InLogout(t)
    ensures TokenInv(cfg, LogoutStep(w, f, t, c))
  {
    if t.LogoutStart? { LogoutReadKeeps(cfg, w, f, t, c); }
    else if t.LogoutClock? { LogoutClockKeeps(cfg, w, f, t, c); }
    else { LogoutRetireKeeps(cfg, w, f, t, c); }
  }

  lemma BeginKeeps(cfg: Config, w: World, op: Flight)
    requires TokenInv(cfg, w)
    ensures TokenInv(cfg, BeginStep(w, op))
  {
    if MayBegin(w, op) {
      BeginProgress(w, op);
      BeginFacts(cfg, w, op);
      MoveKeeps(cfg, w, BeginStep(w, op), w.nextFlight, op, None, None);
    }
  }

  lemma BeginFacts(cfg: Config, w: World, op: Flight)
    requires MayBegin(w, op)
    ensures FlightFacts(cfg, BeginStep(w, op), op) && OwnHash(op).None?
  {
  }

  /** The cache, the clock and the worker: no flight moves. */
  lemma EnvironmentKeeps(cfg: Config, w: World, v: World)
    requires TokenInv(cfg, w) && v.flights == w.flights && v.nextFlight == w.nextFlight
    requires Progress(w, v, None, None) && v.birth == w.birth && v.presented == w.presented
    requires v.disclosed == w.disclosed
    requires v.setAt == w.setAt
    requires Wf(v.db)
    ensures TokenInv(cfg, v)
  {
    forall f | f in v.flights ensures f < v.nextFlight && FlightFacts(cfg, v, v.flights[f]) {
      FactsSurvive(cfg, w, v, None, None, w.flights[f]);
    }
  }

  lemma EnvironmentStepKeeps(cfg: Config, w: World, a: Action)
    requires TokenInv(cfg, w) && !a.Begin? && !a.Advance?
    ensures TokenInv(cfg, Step(cfg, w, a))
  {
    var v := Step(cfg, w, a);
    EnvironmentProgress(cfg, w, a);
    EnvironmentKeeps(cfg, w, v);
  }

  lemma EnvironmentProgress(cfg: Config, w: World, a: Action)
    requires Wf(w.db) && !a.Begin? && !a.Advance?
    ensures Progress(w, Step(cfg, w, a), None, None) && Wf(Step(cfg, w, a).db)
  {
    var v := Step(cfg, w, a);
    if a.CleanSessions? { SweepSessionRowsKeeps(w.db, w.now, a.ok); }
    else if a.CleanOtps? { SweepOtpRowsKeeps(w.db, w.now, a.ok); }
    assert RowsProgress(w.db, v.db, None);
    QuietProgress(w, v);
  }

  /** Time passed, entries and rows left, and nothing else. */
  lemma QuietProgress(w: World, v: World)
    requires v == w.(now := v.now, items := v.items, db := v.db) && w.now <= v.now && RowsProgress(w.db, v.db, None)
    requires forall k :: k in v.items ==> k in w.items && v.items[k] == w.items[k]
    ensures Progress(w, v, None, None)
  {
  }

  lemma StepKeeps(cfg: Config, w: World, a: Action)
    requires TokenInv(cfg, w)
    ensures TokenInv(cfg, Step(cfg, w, a))
  {
    if a.Begin? { BeginKeeps(cfg, w, a.op); }
    else if !a.Advance? { EnvironmentStepKeeps(cfg, w, a); }
    else if a.f in w.flights {
      var fl := w.flights[a.f];
      if fl.OfAccount? { AccountKeeps(cfg, w, a.f, fl.account, a.c); }
      else if fl.OfToken? { TokenStepKeeps(cfg, w, a.f, fl.token, a.c); }
    }
  }

  lemma {:induction false} RunKeeps(cfg: Config, w: World, actions: seq<Action>)
    requires TokenInv(cfg, w)
    ensures TokenInv(cfg, Run(cfg, w, actions))
  {
    if actions != [] {
      RunKeeps(cfg, w, actions[..|actions| - 1]);
      StepKeeps(cfg, Run(cfg, w, actions[..|actions| - 1]), actions[|actions| - 1]);
    }
  }

  /** Every state of every run from empty tables. */
  lemma Reachable(cfg: Config, now: nat, actions: seq<Action>)
    ensures TokenInv(cfg, Run(cfg, Start(now), actions))
  {
    RunKeeps(cfg, Start(now), actions);
  }
}
