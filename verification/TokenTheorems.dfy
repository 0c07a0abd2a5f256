/** Revocation, validity intervals and staleness of tokens, over every interleaving. */
module TokenTheorems {
  import opened Domain
  import opened Tables
  import opened CacheStates
  import opened Flights
  import opened Interleaving
  import opened TokenInvariant
  import TokenSteps

  // ---------------------------------------------------------------- revocation

  /** A logout, or a refresh away from the hash, that returned with a clean InvalidateSessionToken. */
  ghost predicate Revokes(w: World, f: int, h: TokenHash) {
    f in w.flights && w.flights[f].Finished?
    && var a := w.flights[f].answer;
       || (a.LoggedOut? && a.hash == h && a.dropped)
       || (a.Refreshed? && a.prior == h && a.dropped)
  }

  /** The flight has not been told, and will not report, that the hash is valid. */
  ghost predicate NotAccepting(w: World, v: int, h: TokenHash) {
    v in w.flights ==>
      var fl := w.flights[v];
      && (fl.OfToken? && fl.token.ValidateUser? ==> fl.token.hash != h)
      && (fl.Finished? && fl.answer.Validated? && fl.answer.hash == h ==> fl.answer.owner.None?)
  }

  lemma RevocationStays(cfg: Config, w: World, a: Action, f: int, h: TokenHash)
    requires Revokes(w, f, h) && f < w.nextFlight
    ensures Revokes(Step(cfg, w, a), f, h)
  {
    OthersStand(cfg, w, a, f);
  }

  lemma RevokedIsEnded(cfg: Config, w: World, f: int, h: TokenHash)
    requires TokenInv(cfg, w) && Revokes(w, f, h)
    ensures f < w.nextFlight && Ended(w, h, true)
  {
    assert FlightFacts(cfg, w, w.flights[f]);
  }

  lemma DeadHasNoOwner(w: World, h: TokenHash)
    requires DeadInTable(w, h)
    ensures TokenOwner(w.db, h, w.now).None?
  {
  }

  lemma LateReaderStep(cfg: Config, w: World, a: Action, v: int, h: TokenHash)
    requires TokenInv(cfg, w) && Ended(w, h, true) && NotAccepting(w, v, h)
    ensures NotAccepting(Step(cfg, w, a), v, h)
  {
    if a.Advance? && a.f == v {
      if v in w.flights && w.flights[v].OfToken? {
        assert FlightFacts(cfg, w, w.flights[v]);
        LateTokenStep(cfg, w, v, w.flights[v].token, a.c, h);
      } else if v in w.flights && w.flights[v].OfAccount? {
        AccountStepKeeps(w.db, w.flights[v].account, w.now, cfg.otpExpiry, a.c);
      }
    } else if v in w.flights {
      OthersStand(cfg, w, a, v);
    } else {
      LateBegin(cfg, w, a, v, h);
    }
  }

  lemma LateTokenStep(cfg: Config, w: World, v: int, t: Token, c: Choice, h: TokenHash)
    requires v in w.flights && w.flights[v] == OfToken(t) && TokenFacts(cfg, w, t)
    requires Ended(w, h, true) && NotAccepting(w, v, h)
    ensures NotAccepting(TokenStep(cfg, w, v, t, c), v, h)
  {
    DeadHasNoOwner(w, h);
    WhereVerdictsComeFrom(cfg, w, v, t, c);
  }

  lemma LateBegin(cfg: Config, w: World, a: Action, v: int, h: TokenHash)
    requires v !in w.flights && !(a.Advance? && a.f == v)
    ensures NotAccepting(Step(cfg, w, a), v, h)
  {
  }

  /** End-to-end revocation. Once a Logout or RefreshSession on a token has returned and its
      invalidation succeeded, no ValidateSession flight whose first cache read comes later answers
      that the token is valid, whatever else runs in between. */
  lemma {:induction false} RevokedForGood(cfg: Config, now: nat, before: seq<Action>, after: seq<Action>,
                                          f: int, v: int, h: TokenHash)
    requires Revokes(Run(cfg, Start(now), before), f, h)
    requires var w := Run(cfg, Start(now), before);
             v !in w.flights || w.flights[v] == OfToken(ValidateStart(h))
    ensures var w := Run(cfg, Run(cfg, Start(now), before), after);
            Revokes(w, f, h) && NotAccepting(w, v, h)
  {
    var w := Run(cfg, Start(now), before);
    TokenSteps.Reachable(cfg, now, before);
    if after != [] {
      var n := |after| - 1;
      RevokedForGood(cfg, now, before, after[..n], f, v, h);
      TokenSteps.RunKeeps(cfg, w, after[..n]);
      var u := Run(cfg, w, after[..n]);
      RevokedIsEnded(cfg, u, f, h);
      RevocationStays(cfg, u, after[n], f, h);
      LateReaderStep(cfg, u, after[n], v, h);
    }
  }

  // ---------------------------------------------------------------- one interval of validity

  /** The flight may still write its own hash into a row. */
  predicate Writing(fl: Flight) {
    fl.OfToken? && (fl.token.OpenInsert? || fl.token.RefreshUpdate?)
  }

  /** Generated, and no flight is about to write it. */
  ghost predicate Settled(w: World, h: TokenHash) {
    h in w.birth && forall f :: f in w.flights && Writing(w.flights[f]) ==> OwnHash(w.flights[f]) != Some(h)
  }

  /** A step leaves every row with its token, or gives it a hash that some flight was writing. */
  ghost predicate RowsFrom(w: World, b: Store) {
    forall i :: i in b.sessions ==>
      || (i in w.db.sessions && SameToken(w.db.sessions[i], b.sessions[i]))
      || (exists f :: f in w.flights && Writing(w.flights[f]) && OwnHash(w.flights[f]) == Some(b.sessions[i].tokenHash))
  }

  lemma WriterRows(w: World, b: Store, f: int)
    requires f in w.flights && Writing(w.flights[f]) && RowsProgress(w.db, b, OwnHash(w.flights[f]))
    ensures RowsFrom(w, b)
  {
  }

  lemma QuietRows(w: World, b: Store)
    requires RowsProgress(w.db, b, None)
    ensures RowsFrom(w, b)
  {
  }

  lemma RowsStep(cfg: Config, w: World, a: Action)
    requires TokenInv(cfg, w)
    ensures RowsFrom(w, Step(cfg, w, a).db)
  {
    if a.Advance? && a.f in w.flights && w.flights[a.f].OfToken? {
      assert FlightFacts(cfg, w, w.flights[a.f]);
      TokenRowsStep(cfg, w, a.f, w.flights[a.f].token, a.c);
    } else if a.Advance? && a.f in w.flights && w.flights[a.f].OfAccount? {
      AccountStepKeeps(w.db, w.flights[a.f].account, w.now, cfg.otpExpiry, a.c);
      ShrunkRows(w, Step(cfg, w, a).db);
    } else {
      assert SessionsShrink(w.db, Step(cfg, w, a).db);
      ShrunkRows(w, Step(cfg, w, a).db);
    }
  }

  lemma ShrunkRows(w: World, b: Store)
    requires SessionsShrink(w.db, b)
    ensures RowsFrom(w, b)
  {
  }

  lemma TokenRowsStep(cfg: Config, w: World, f: int, t: Token, c: Choice)
    requires Wf(w.db) && TokenFacts(cfg, w, t) && f in w.flights && w.flights[f] == OfToken(t)
    ensures RowsFrom(w, TokenStep(cfg, w, f, t, c).db)
  {
    StepOf(cfg, w, f, t, c);
    if t.OpenInsert? {
      TokenSteps.InsertSessionRows(w.db, t.uid, t.hash, t.expiresAt, w.now, !Fails(c, CreateSession));
      WriterRows(w, OpenStep(cfg, w, f, t, c).db, f);
    } else if t.RefreshUpdate? {
      TokenSteps.UpdateRows(w.db, t.s, !Fails(c, UpdateSession));
      WriterRows(w, RefreshStep(cfg, w, f, t, c).db, f);
    } else if t.LogoutRetire? {
      TokenSteps.RetireRows(w.db, t.id, w.now, !Fails(c, SoftDeleteSession));
      QuietRows(w, LogoutStep(w, f, t, c).db);
    } else {
      OtherStepsKeepTables(cfg, w, f, t, c);
    }
  }

  lemma OtherStepsKeepTables(cfg: Config, w: World, f: int, t: Token, c: Choice)
    requires !t.OpenInsert? && !t.RefreshUpdate? && !t.LogoutRetire?
    ensures TokenStep(cfg, w, f, t, c).db == w.db
  {
  }

  lemma SettledStays(cfg: Config, w: World, a: Action, h: TokenHash)
    requires Settled(w, h)
    ensures Settled(Step(cfg, w, a), h)
  {
    if a.Advance? {
      if a.f in w.flights && w.flights[a.f].OfToken? { SettledTokenStep(cfg, w, a.f, w.flights[a.f].token, a.c, h); }
      else { SettledAccountStep(cfg, w, a.f, a.c, h); }
    }
  }

  lemma SettledAccountStep(cfg: Config, w: World, f: int, c: Choice, h: TokenHash)
    requires Settled(w, h) && (f in w.flights ==> !w.flights[f].OfToken?)
    ensures Settled(AdvanceStep(cfg, w, f, c), h)
  {
    if f in w.flights && w.flights[f].OfAccount? {
      AccountLeads(w.db, w.flights[f].account, w.now, cfg.otpExpiry, c);
    }
  }

  /** A flight comes to write only a hash that its own step has just generated. */
  ghost predicate WritesOnlyNew(w: World, v: World, f: int, c: Choice) {
    && w.birth.Keys <= v.birth.Keys
    && (f in v.flights && Writing(v.flights[f]) ==>
          v.flights == w.flights || (OwnHash(v.flights[f]) == Some(c.hash) && Fresh(w, c.hash)))
  }

  lemma OpenWrites(cfg: Config, w: World, f: int, t: Token, c: Choice)
    requires InOpen(t)
    ensures WritesOnlyNew(w, OpenStep(cfg, w, f, t, c), f, c)
  {
  }

  lemma ReadWrites(cfg: Config, w: World, f: int, h: TokenHash, c: Choice)
    ensures WritesOnlyNew(w, RefreshStep(cfg, w, f, RefreshStart(h), c), f, c)
  {
  }

  lemma ClockWrites(cfg: Config, w: World, f: int, h: TokenHash, s: Session, c: Choice)
    ensures WritesOnlyNew(w, RefreshStep(cfg, w, f, RefreshClock(h, s), c), f, c)
  {
  }

  lemma RenewWrites(cfg: Config, w: World, f: int, h: TokenHash, s: Session, c: Choice)
    ensures WritesOnlyNew(w, RefreshStep(cfg, w, f, RefreshRenew(h, s), c), f, c)
  {
  }

  lemma UpdateWrites(cfg: Config, w: World, f: int, h: TokenHash, s: Session, c: Choice)
    ensures WritesOnlyNew(w, RefreshStep(cfg, w, f, RefreshUpdate(h, s), c), f, c)
  {
  }

  lemma RefreshWrites(cfg: Config, w: World, f: int, t: Token, c: Choice)
    requires InRefresh(t)
    ensures WritesOnlyNew(w, RefreshStep(cfg, w, f, t, c), f, c)
  {
    if t.RefreshStart? { ReadWrites(cfg, w, f, t.hash, c); }
    else if t.RefreshClock? { ClockWrites(cfg, w, f, t.hash, t.s, c); }
    else if t.RefreshRenew? { RenewWrites(cfg, w, f, t.hash, t.s, c); }
    else { UpdateWrites(cfg, w, f, t.hash, t.s, c); }
  }

  lemma DropWritesNothing(w: World, f: int, t: Token, c: Choice)
    requires t.Drop?
    ensures WritesOnlyNew(w, DropStep(w, f, t, c), f, c)
  {
    DropLeads(w, f, t, c);
  }

  lemma SetWritesNothing(cfg: Config, w: World, f: int, t: Token, c: Choice)
    requires InSet(t)
    ensures WritesOnlyNew(w, SetStep(cfg, w, f, t, c), f, c)
  {
    SetLeads(cfg, w, f, t, c);
  }

  lemma ValidateWritesNothing(w: World, f: int, t: Token, c: Choice)
    requires InValidate(t)
    ensures WritesOnlyNew(w, ValidateStep(w, f, t, c), f, c)
  {
    ValidateLeads(w, f, t, c);
    ReadingWritesNothing(w, ValidateStep(w, f, t, c), f, c);
  }

  lemma ReadingWritesNothing(w: World, v: World, f: int, c: Choice)
    requires f in v.flights && v.birth == w.birth
    requires ValidateNext(v.flights[f]) || LogoutNext(v.flights[f])
    ensures WritesOnlyNew(w, v, f, c)
  {
  }

  lemma LogoutWritesNothing(w: World, f: int, t: Token, c: Choice)
    requires InLogout(t)
    ensures WritesOnlyNew(w, LogoutStep(w, f, t, c), f, c)
  {
    LogoutLeads(w, f, t, c);
    ReadingWritesNothing(w, LogoutStep(w, f, t, c), f, c);
  }

  lemma SettledTokenStep(cfg: Config, w: World, f: int, t: Token, c: Choice, h: TokenHash)
    requires Settled(w, h) && f in w.flights && w.flights[f] == OfToken(t)
    ensures Settled(TokenStep(cfg, w, f, t, c), h)
  {
    var v := TokenStep(cfg, w, f, t, c);
    StepOf(cfg, w, f, t, c);
    assert WritesOnlyNew(w, v, f, c) by {
      if InOpen(t) { OpenWrites(cfg, w, f, t, c); }
      else if InRefresh(t) { RefreshWrites(cfg, w, f, t, c); }
      else if t.Drop? { DropWritesNothing(w, f, t, c); }
      else if InSet(t) { SetWritesNothing(cfg, w, f, t, c); }
      else if InValidate(t) { ValidateWritesNothing(w, f, t, c); }
      else { LogoutWritesNothing(w, f, t, c); }
    }
    SettledThrough(w, v, f, c, h);
  }

  lemma SettledThrough(w: World, v: World, f: int, c: Choice, h: TokenHash)
    requires Settled(w, h) && OneMoves(w, v, f) && WritesOnlyNew(w, v, f, c)
    ensures Settled(v, h)
  {
  }

  /** Dead in the table and settled: dead for good. */
  lemma DeadStays(cfg: Config, w: World, a: Action, h: TokenHash)
    requires TokenInv(cfg, w) && Settled(w, h) && DeadInTable(w, h)
    ensures DeadInTable(Step(cfg, w, a), h)
  {
    RowsStep(cfg, w, a);
    ClockAdvances(cfg, w, a);
    DeadThroughRows(w, Step(cfg, w, a), h);
  }

  lemma DeadThroughRows(w: World, v: World, h: TokenHash)
    requires Settled(w, h) && DeadInTable(w, h) && RowsFrom(w, v.db) && w.now <= v.now
    ensures DeadInTable(v, h)
  {
  }

  lemma ClockAdvances(cfg: Config, w: World, a: Action)
    ensures w.now <= Step(cfg, w, a).now
  {
  }

  lemma LiveIsSettled(cfg: Config, w: World, h: TokenHash)
    requires TokenInv(cfg, w) && TokenOwner(w.db, h, w.now).Some?
    ensures Settled(w, h)
  {
    forall f | f in w.flights && Writing(w.flights[f]) ensures OwnHash(w.flights[f]) != Some(h) {
      assert FlightFacts(cfg, w, w.flights[f]);
    }
  }

  lemma NoOwnerIsDead(w: World, h: TokenHash)
    requires Wf(w.db) && TokenOwner(w.db, h, w.now).None?
    ensures DeadInTable(w, h)
  {
  }

  lemma {:induction false} SettledRun(cfg: Config, w: World, actions: seq<Action>, h: TokenHash)
    requires TokenInv(cfg, w) && Settled(w, h)
    ensures Settled(Run(cfg, w, actions), h)
    ensures DeadInTable(w, h) ==> DeadInTable(Run(cfg, w, actions), h)
  {
    if actions != [] {
      var n := |actions| - 1;
      SettledRun(cfg, w, actions[..n], h);
      TokenSteps.RunKeeps(cfg, w, actions[..n]);
      SettledStays(cfg, Run(cfg, w, actions[..n]), actions[n], h);
      if DeadInTable(w, h) { DeadStays(cfg, Run(cfg, w, actions[..n]), actions[n], h); }
    }
  }

  /** The instants at which the database calls a hash valid form one interval: replaced, logged
      out, expired, swept or removed with its user, it never becomes valid again, although a late
      UPDATE can clear deleted_at on the row it lived in. */
  lemma ValidityIsOneInterval(cfg: Config, now: nat, first: seq<Action>, second: seq<Action>, third: seq<Action>,
                              h: TokenHash)
    requires var w := Run(cfg, Start(now), first); TokenOwner(w.db, h, w.now).Some?
    requires var w := Run(cfg, Start(now), first + second); TokenOwner(w.db, h, w.now).None?
    ensures var w := Run(cfg, Start(now), first + second + third); TokenOwner(w.db, h, w.now).None?
  {
    TokenSteps.Reachable(cfg, now, first);
    TokenSteps.Reachable(cfg, now, first + second);
    RunConcat(cfg, Start(now), first, second);
    RunConcat(cfg, Start(now), first + second, third);
    var u := Run(cfg, Start(now), first);
    var v := Run(cfg, Start(now), first + second);
    LiveIsSettled(cfg, u, h);
    SettledRun(cfg, u, second, h);
    NoOwnerIsDead(v, h);
    SettledRun(cfg, v, third, h);
    DeadHasNoOwner(Run(cfg, v, third), h);
  }

  // ---------------------------------------------------------------- staleness

  /** How long after its expiry was fixed the hash was cached. */
  ghost function CachingDelay(w: World, h: TokenHash): Time
    requires h in w.birth
  {
    if h in w.setAt then w.setAt[h] - w.birth[h].at else 0
  }

  /** What the one-second minimum of the cache adds to a shorter TTL. */
  function Clamp(ttl: Time): Time {
    if ttl < SECOND then SECOND - ttl else 0
  }

  /** Whatever invalidations failed: a token reported valid was issued to that user, and was read
      before its expiry plus the delay of caching it plus the sub-second clamp. */
  lemma BoundedStaleness(cfg: Config, now: nat, actions: seq<Action>, v: int, h: TokenHash, uid: int, t: Time)
    requires var w := Run(cfg, Start(now), actions);
             v in w.flights && w.flights[v] == Finished(Validated(h, Some(uid), t))
    ensures var w := Run(cfg, Start(now), actions);
            && h in w.birth && w.birth[h].userId == uid
            && 0 <= CachingDelay(w, h)
            && t < w.birth[h].expiresAt + CachingDelay(w, h) + Clamp(cfg.ttl)
  {
    var w := Run(cfg, Start(now), actions);
    TokenSteps.Reachable(cfg, now, actions);
    assert FlightFacts(cfg, w, w.flights[v]);
    if h in w.setAt { EntryExpiryBound(w.setAt[h], cfg.ttl); }
  }

  /** The user of a positive answer existed at the moment the answer was made. */
  lemma AnswerNeedsUser(cfg: Config, w: World, f: int, c: Choice, h: TokenHash, uid: int, t: Time)
    requires TokenInv(cfg, w) && f in w.flights && !w.flights[f].Finished?
    requires Step(cfg, w, Advance(f, c)).flights[f] == Finished(Validated(h, Some(uid), t))
    ensures uid in w.db.users && w.flights[f] == OfToken(ValidateUser(h, uid, t))
  {
    if w.flights[f].OfToken? {
      assert FlightFacts(cfg, w, w.flights[f]);
      TokenAnswerNeedsUser(cfg, w, f, w.flights[f].token, c, h, uid, t);
    }
  }

  lemma TokenAnswerNeedsUser(cfg: Config, w: World, f: int, token: Token, c: Choice, h: TokenHash, uid: int, t: Time)
    requires f in w.flights && w.flights[f] == OfToken(token) && FlightFacts(cfg, w, OfToken(token))
    requires TokenStep(cfg, w, f, token, c).flights[f] == Finished(Validated(h, Some(uid), t))
    ensures uid in w.db.users && token == ValidateUser(h, uid, t)
  {
    WhereVerdictsComeFrom(cfg, w, f, token, c);
  }
}
