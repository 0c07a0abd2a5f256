/** The in-memory cache against the database, over whole runs of atomic calls in one process. */
module MemoryAgreement {
  import opened Domain
  import opened Tables
  import opened CacheStates
  import opened Runs
  import opened CacheAgreement
  import O = Operations

  /** Every live row is in the map, with the owner and the expiry of the row. */
  ghost predicate RowsCached(sessions: map<int, Session>, entries: map<TokenHash, Session>) {
    forall i :: i in sessions && sessions[i].deletedAt == None ==>
      && sessions[i].tokenHash in entries
      && entries[sessions[i].tokenHash] == sessions[i]
  }

  /** Every entry is filed under its own token hash, and is a live row of the table unless its
      time is up or its user is gone for good. */
  ghost predicate EntriesBacked(db: Store, entries: map<TokenHash, Session>, now: Time) {
    forall h :: h in entries ==>
      && entries[h].tokenHash == h && entries[h].userId < db.nextUser
      && (|| entries[h].expiresAt < now
          || entries[h].userId !in db.users
          || (entries[h].id in db.sessions && db.sessions[entries[h].id] == entries[h] && entries[h].deletedAt == None))
  }

  ghost predicate Mirrors(db: Store, entries: map<TokenHash, Session>, now: Time) {
    RowsCached(db.sessions, entries) && EntriesBacked(db, entries, now)
  }

  function EntriesAfter(entries: map<TokenHash, Session>, spent: Option<TokenHash>,
                        added: Option<Session>): map<TokenHash, Session> {
    var left := if spent.Some? then entries - {spent.value} else entries;
    if added.Some? then left[added.value.tokenHash := added.value] else left
  }

  lemma RowsCachedStep(a: Store, b: Store, entries: map<TokenHash, Session>, spent: Option<TokenHash>,
                       added: Option<Session>)
    requires RowsCached(a.sessions, entries) && Wf(b) && RowsOnly(a, b, spent, added)
    ensures RowsCached(b.sessions, EntriesAfter(entries, spent, added))
  {
    forall i | i in b.sessions && b.sessions[i].deletedAt == None
      ensures var r := EntriesAfter(entries, spent, added);
              b.sessions[i].tokenHash in r && r[b.sessions[i].tokenHash] == b.sessions[i]
    {
      if added.Some? && added.value.tokenHash == b.sessions[i].tokenHash {
        assert b.sessions[added.value.id].tokenHash == b.sessions[i].tokenHash;
      }
    }
  }

  lemma EntriesBackedStep(a: Store, b: Store, entries: map<TokenHash, Session>, before: Time, now: Time,
                          spent: Option<TokenHash>, added: Option<Session>)
    requires EntriesBacked(a, entries, before) && before <= now && Wf(a) && Wf(b) && Evolves(a, b)
    requires RowsKept(a, b, now, spent) && RowsOnly(a, b, spent, added)
    ensures EntriesBacked(b, EntriesAfter(entries, spent, added), now)
  {
    var r := EntriesAfter(entries, spent, added);
    forall h | h in r
      ensures r[h].tokenHash == h && r[h].userId < b.nextUser
      ensures r[h].expiresAt < now || r[h].userId !in b.users
              || (r[h].id in b.sessions && b.sessions[r[h].id] == r[h] && r[h].deletedAt == None)
    {
      if added.Some? && h == added.value.tokenHash {
        assert b.sessions[added.value.id] == added.value;
      } else {
        assert h in entries && r[h] == entries[h] && Some(h) != spent;
      }
    }
  }

  lemma MirrorsCall(cfg: O.Config, s: O.State, c: Call, before: Time)
    requires Wf(s.db) && s.cache.OfMemory? && Mirrors(s.db, s.cache.entries, before) && before <= c.env.now
    ensures var t := Apply(cfg, s, c).0; t.cache.OfMemory? && Mirrors(t.db, t.cache.entries, c.env.now)
  {
    var t := Apply(cfg, s, c).0;
    var spent, added := Spent(cfg, s, c), Added(cfg, s, c);
    ApplyTables(cfg, s, c);
    ApplyEffect(cfg, s, c);
    RowsCachedStep(s.db, t.db, s.cache.entries, spent, added);
    EntriesBackedStep(s.db, t.db, s.cache.entries, before, c.env.now, spent, added);
    if c.op.Evict? {
      assert EntriesAfter(s.cache.entries, spent, added) == s.cache.entries;
    }
  }

  /** From empty tables and an empty map, every run keeps the two in step, whatever else fails. */
  lemma {:induction false} AfterMirrors(sys: Service, calls: seq<Call>)
    requires Lawful(calls)
    ensures var s := After(sys, Empty(OfMemory(map[])), calls);
            s.cache.OfMemory? && Wf(s.db) && Mirrors(s.db, s.cache.entries, LastTime(calls))
  {
    AfterIsSound(sys, OfMemory(map[]), calls);
    if calls != [] {
      var n := |calls| - 1;
      AfterMirrors(sys, calls[..n]);
      StepMirrors(sys, After(sys, Empty(OfMemory(map[])), calls[..n]), calls[n], LastTime(calls[..n]));
    }
  }

  lemma StepMirrors(sys: Service, s: O.State, c: Call, before: Time)
    requires Wf(s.db) && s.cache.OfMemory? && Mirrors(s.db, s.cache.entries, before) && before <= c.env.now
    ensures var t := sys.step(s, c).0; t.cache.OfMemory? && Mirrors(t.db, t.cache.entries, c.env.now)
  {
    StepIs(sys, s, c);
    MirrorsCall(sys.config, s, c, before);
  }

  /** The token belongs to a live row whose time is up at this very instant. */
  ghost predicate ExpiresNow(db: Store, h: TokenHash, now: Time) {
    var row := LiveSession(db, h);
    row.Some? && row.value.expiresAt == now
  }

  lemma MirroredOwner(db: Store, entries: map<TokenHash, Session>, h: TokenHash, now: Time, before: Time)
    requires Wf(db) && Mirrors(db, entries, before) && before <= now
    ensures var verdict := Ask(OfMemory(entries), h, now, {});
            && (ExpiresNow(db, h, now) ==>
                verdict == Says(Some(LiveSession(db, h).value.userId)) && TokenOwner(db, h, now).None?)
            && (!ExpiresNow(db, h, now) ==>
                  || verdict == Says(TokenOwner(db, h, now))
                  || (TokenOwner(db, h, now).None? && verdict.owner.Some? && verdict.owner.value !in db.users))
  {
    var row := LiveSession(db, h);
    if h in entries && now <= entries[h].expiresAt && entries[h].userId in db.users {
      assert IsLiveSession(db.sessions[entries[h].id], h);
      assert row == Some(entries[h]);
    }
  }

  lemma MirroredVerdict(cfg: O.Config, s: O.State, token: string, env: O.Env, before: Time)
    requires Wf(s.db) && s.cache.OfMemory? && Mirrors(s.db, s.cache.entries, before) && before <= env.now
    ensures var (cached, database) := (O.Validate(cfg, s, token, env),
                                       O.Validate(cfg, s.(cache := OfNothing), token, Working(env)));
            && (SameVerdict(cached, database)
                <==> token == "" || GetUserByID in env.faults
                     || !ExpiresNow(s.db, HashToken(token, cfg.secret), env.now))
            && (Positive(database) ==> Positive(cached))
  {
    MirroredOwner(s.db, s.cache.entries, HashToken(token, cfg.secret), env.now, before);
  }

  /** Validation through the in-memory cache gives the database's verdict at every instant but one:
      exactly when a live row expires at that very instant does the cache still accept the token. */
  lemma MemoryAgreesExceptAtExpiry(sys: Service, calls: seq<Call>, k: nat)
    requires Lawful(calls) && k < |calls| && calls[k].op.Validate?
    ensures var (token, env) := (calls[k].op.token, calls[k].env);
            SameVerdict(Answer(sys, Empty(OfMemory(map[])), calls, k), Reference(sys, calls, k))
            <==> token == "" || GetUserByID in env.faults
                 || !ExpiresNow(After(sys, Empty(OfNothing), calls[..k]).db, HashToken(token, sys.config.secret),
                                env.now)
    ensures Positive(Reference(sys, calls, k)) ==> Positive(Answer(sys, Empty(OfMemory(map[])), calls, k))
  {
    var prefix := calls[..k];
    assert Lawful(prefix);
    AfterMirrors(sys, prefix);
    TablesIgnoreCache(sys, OfMemory(map[]), OfNothing, prefix);
    NoCacheStays(sys, prefix);
    ValidationIs(sys, Empty(OfMemory(map[])), calls, k);
    MirroredVerdict(sys.config, After(sys, Empty(OfMemory(map[])), prefix), calls[k].op.token, calls[k].env,
                    LastTime(prefix));
  }

  /** That instant is reached: a provider login at the epoch and a validation when its row expires.
      The map accepts the token, and the database does not. */
  lemma ExpiryIsReached(sys: Service)
    requires 0 <= sys.config.ttl
    ensures var calls := ShortRun(sys.config);
            && Lawful(calls) && calls[1].op.Validate?
            && Positive(Answer(sys, Empty(OfMemory(map[])), calls, 1)) && !Positive(Reference(sys, calls, 1))
  {
    var calls := ShortRun(sys.config);
    var h := HashToken("t", sys.config.secret);
    ShortRunIsLawful(sys.config);
    ShortLogin(sys, OfNothing);
    var db := After(sys, Empty(OfNothing), calls[..1]).db;
    assert IsLiveSession(db.sessions[1], h) && LiveSession(db, h) == Some(db.sessions[1]);
    assert ExpiresNow(db, h, calls[1].env.now);
    MemoryAgreesExceptAtExpiry(sys, calls, 1);
  }
}
