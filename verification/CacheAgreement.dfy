/** The cached service against the uncached one, over whole runs of atomic calls. */
module CacheAgreement {
  import opened Domain
  import opened Tables
  import opened CacheStates
  import opened Runs
  import O = Operations
  import Usernames

  // ---------------------------------------------------------------- what a call does to sessions

  /** The session a call inserts. */
  ghost function Opened(cfg: O.Config, db: Store, uid: int, env: O.Env): Option<Session> {
    if Randomness in env.faults then None
    else InsertSession(db, uid, HashToken(env.token, cfg.secret), env.now + cfg.ttl, env.now,
                       CreateSession !in env.faults).1
  }

  /** The token hash a successful call takes out of use. */
  ghost function Spent(cfg: O.Config, s: O.State, c: Call): Option<TokenHash> {
    match c.op
    case Refresh(token) => if O.Refresh(cfg, s, token, c.env).1.Refreshed? then Some(HashToken(token, cfg.secret))
                           else None
    case Logout(token) => if O.Logout(cfg, s, token, c.env).1.LoggedOut? then Some(HashToken(token, cfg.secret))
                          else None
    case _ => None
  }

  /** The row a successful call puts into use. */
  ghost function Added(cfg: O.Config, s: O.State, c: Call): Option<Session> {
    match c.op
    case VerifyOtp(otpHash, code) =>
      var (db, admitted) := O.AdmitByOtp(s.db, otpHash, code, c.env);
      if admitted.Ok? then Opened(cfg, db, admitted.value.0, c.env) else None
    case Login(email, password) =>
      var (db, admitted) := O.AdmitByPassword(s.db, email, password, c.env);
      if admitted.Ok? then Opened(cfg, db, admitted.value, c.env) else None
    case Exchange(key, email) =>
      var (db, admitted) := O.AdmitByProvider(s.db, key, email, c.env);
      if admitted.Ok? then Opened(cfg, db, admitted.value, c.env) else None
    case Refresh(token) =>
      if O.Refresh(cfg, s, token, c.env).1.Refreshed?
      then Some(O.Renewed(cfg, O.CheckToken(cfg, s.db, token, c.env).value, c.env)) else None
    case _ => None
  }

  /** A live row stays as it is, unless its token is spent, its time is up or its user is gone. */
  ghost predicate RowsKept(a: Store, b: Store, now: Time, spent: Option<TokenHash>) {
    forall i :: i in a.sessions ==>
      var s := a.sessions[i];
      s.deletedAt == None && Some(s.tokenHash) != spent && now <= s.expiresAt && s.userId in b.users ==>
        i in b.sessions && b.sessions[i] == s
  }

  /** A live row was there before under a token not spent, or is the one added. */
  ghost predicate RowsOnly(a: Store, b: Store, spent: Option<TokenHash>, added: Option<Session>) {
    && (forall i :: i in b.sessions && b.sessions[i].deletedAt == None ==>
          || added == Some(b.sessions[i])
          || (i in a.sessions && a.sessions[i] == b.sessions[i] && Some(b.sessions[i].tokenHash) != spent))
    && (added.Some? ==> added.value.id in b.sessions && b.sessions[added.value.id] == added.value
                        && added.value.deletedAt == None && added.value.userId in b.users)
  }

  function CacheAfter(cfg: O.Config, c: CacheState, spent: Option<TokenHash>, added: Option<Session>,
                      env: O.Env): CacheState {
    var forgotten := if spent.Some? then Forget(c, spent.value, env.faults) else c;
    if added.None? then forgotten
    else Remember(forgotten, added.value.tokenHash, added.value, cfg.ttl, env.now, env.faults)
  }

  ghost predicate Effect(cfg: O.Config, s: O.State, c: Call, t: O.State) {
    && RowsKept(s.db, t.db, c.env.now, Spent(cfg, s, c))
    && RowsOnly(s.db, t.db, Spent(cfg, s, c), Added(cfg, s, c))
    && (Added(cfg, s, c).Some? ==> Added(cfg, s, c).value.expiresAt == c.env.now + cfg.ttl
                                   && Added(cfg, s, c).value.tokenHash == HashToken(c.env.token, cfg.secret))
    && t.cache == if c.op.Evict? then EvictFrom(s.cache, c.op.cacheKey)
                  else CacheAfter(cfg, s.cache, Spent(cfg, s, c), Added(cfg, s, c), c.env)
  }

  /** The tables differ at most in what sessions do not see. */
  ghost predicate SameSessions(a: Store, b: Store) {
    b.sessions == a.sessions && a.users.Keys <= b.users.Keys
  }

  lemma VerificationKeepsSessions(db: Store, otpHash: string, code: string, env: O.Env)
    ensures SameSessions(db, O.AdmitByOtp(db, otpHash, code, env).0)
  {
  }

  lemma LoginKeepsSessions(db: Store, email: string, password: string, env: O.Env)
    ensures SameSessions(db, O.AdmitByPassword(db, email, password, env).0)
  {
  }

  lemma ProviderKeepsSessions(db: Store, key: LinkKey, email: string, env: O.Env)
    ensures SameSessions(db, O.AdmitByProvider(db, key, email, env).0)
  {
  }

  lemma OpenEffect(cfg: O.Config, a: Store, s: O.State, uid: int, env: O.Env)
    requires Wf(s.db) && SameSessions(a, s.db)
    ensures var (t, expiresAt) := O.OpenSession(cfg, s, uid, env);
            var added := Opened(cfg, s.db, uid, env);
            && RowsKept(a, t.db, env.now, None) && RowsOnly(a, t.db, None, added)
            && (added.Some? ==> added.value.expiresAt == env.now + cfg.ttl
                                && added.value.tokenHash == HashToken(env.token, cfg.secret))
            && t.cache == CacheAfter(cfg, s.cache, None, added, env)
            && (expiresAt.Some? <==> added.Some?)
  {
  }

  lemma VerifyEffect(cfg: O.Config, s: O.State, c: Call)
    requires Wf(s.db) && c.op.VerifyOtp?
    ensures Effect(cfg, s, c, Apply(cfg, s, c).0)
  {
    VerificationKeepsSessions(s.db, c.op.otpHash, c.op.code, c.env);
    AdmitByOtpTables(cfg, s.db, c.op.otpHash, c.op.code, c.env);
    var (db, admitted) := O.AdmitByOtp(s.db, c.op.otpHash, c.op.code, c.env);
    if admitted.Ok? { OpenEffect(cfg, s.db, s.(db := db), admitted.value.0, c.env); }
  }

  lemma LoginEffect(cfg: O.Config, s: O.State, c: Call)
    requires Wf(s.db) && c.op.Login?
    ensures Effect(cfg, s, c, Apply(cfg, s, c).0)
  {
    PasswordEffect(cfg, s, c.op.email, c.op.password, c.env);
  }

  lemma PasswordEffect(cfg: O.Config, s: O.State, email: string, password: string, env: O.Env)
    requires Wf(s.db)
    ensures var (db, admitted) := O.AdmitByPassword(s.db, email, password, env);
            var added := if admitted.Ok? then Opened(cfg, db, admitted.value, env) else None;
            OpenedEffect(cfg, s, O.Login(cfg, s, email, password, env).0, added, env)
  {
    LoginKeepsSessions(s.db, email, password, env);
    AdmitByPasswordTables(cfg, s.db, email, password, env);
    var (db, admitted) := O.AdmitByPassword(s.db, email, password, env);
    OpenForEffect(cfg, s, db, admitted, env);
  }

  lemma ExchangeEffect(cfg: O.Config, s: O.State, c: Call)
    requires Wf(s.db) && c.op.Exchange?
    ensures Effect(cfg, s, c, Apply(cfg, s, c).0)
  {
    ProviderEffect(cfg, s, c.op.key, c.op.email, c.env);
  }

  lemma ProviderEffect(cfg: O.Config, s: O.State, key: LinkKey, email: string, env: O.Env)
    requires Wf(s.db)
    ensures var (db, admitted) := O.AdmitByProvider(s.db, key, email, env);
            var added := if admitted.Ok? then Opened(cfg, db, admitted.value, env) else None;
            OpenedEffect(cfg, s, O.Exchange(cfg, s, key, email, env).0, added, env)
  {
    ProviderKeepsSessions(s.db, key, email, env);
    AdmitByProviderTables(cfg, s.db, key, email, env);
    var (db, admitted) := O.AdmitByProvider(s.db, key, email, env);
    OpenForEffect(cfg, s, db, admitted, env);
  }

  /** What a call that can only open a session does. */
  ghost predicate OpenedEffect(cfg: O.Config, s: O.State, t: O.State, added: Option<Session>, env: O.Env) {
    && RowsKept(s.db, t.db, env.now, None) && RowsOnly(s.db, t.db, None, added)
    && (added.Some? ==> added.value.expiresAt == env.now + cfg.ttl
                        && added.value.tokenHash == HashToken(env.token, cfg.secret))
    && t.cache == CacheAfter(cfg, s.cache, None, added, env)
  }

  lemma OpenForEffect(cfg: O.Config, s: O.State, db: Store, admitted: Result<int>, env: O.Env)
    requires Wf(db) && SameSessions(s.db, db)
    ensures var added := if admitted.Ok? then Opened(cfg, db, admitted.value, env) else None;
            OpenedEffect(cfg, s, O.OpenFor(cfg, s, db, admitted, env).0, added, env)
  {
    if admitted.Ok? { OpenEffect(cfg, s.db, s.(db := db), admitted.value, env); }
  }

  lemma RefreshEffect(cfg: O.Config, s: O.State, c: Call)
    requires Wf(s.db) && c.op.Refresh?
    ensures Effect(cfg, s, c, Apply(cfg, s, c).0)
  {
    var row := O.CheckToken(cfg, s.db, c.op.token, c.env);
    if O.Refresh(cfg, s, c.op.token, c.env).1.Refreshed? {
      RotateRows(cfg, s.db, row.value, c.env);
      RotateCache(cfg, s, c.op.token, c.env);
    } else {
      assert O.Refresh(cfg, s, c.op.token, c.env).0 == s;
    }
  }

  lemma RotateCache(cfg: O.Config, s: O.State, token: string, env: O.Env)
    requires O.Refresh(cfg, s, token, env).1.Refreshed?
    ensures var row := O.CheckToken(cfg, s.db, token, env).value;
            var row' := O.Renewed(cfg, row, env);
            var t := O.Refresh(cfg, s, token, env).0;
            && t.db == UpdateSessionRow(s.db, row', UpdateSession !in env.faults).0
            && t.cache == CacheAfter(cfg, s.cache, Some(HashToken(token, cfg.secret)), Some(row'), env)
  {
  }

  lemma RotateRows(cfg: O.Config, db: Store, row: Session, env: O.Env)
    requires Wf(db) && row.id in db.sessions && db.sessions[row.id] == row && row.deletedAt == None
    requires UpdateSessionRow(db, O.Renewed(cfg, row, env), UpdateSession !in env.faults).1
    ensures var row' := O.Renewed(cfg, row, env);
            var b := UpdateSessionRow(db, row', UpdateSession !in env.faults).0;
            RowsKept(db, b, env.now, Some(row.tokenHash)) && RowsOnly(db, b, Some(row.tokenHash), Some(row'))
  {
  }

  lemma LogoutEffect(cfg: O.Config, s: O.State, c: Call)
    requires Wf(s.db) && c.op.Logout?
    ensures Effect(cfg, s, c, Apply(cfg, s, c).0)
  {
    var row := O.CheckToken(cfg, s.db, c.op.token, c.env);
    if row.Ok? {
      assert s.db.sessions[row.value.id] == row.value;
    }
  }

  lemma DeleteEffect(cfg: O.Config, s: O.State, c: Call)
    requires Wf(s.db) && c.op.Delete?
    ensures Effect(cfg, s, c, Apply(cfg, s, c).0)
  {
  }

  lemma CleanupEffect(cfg: O.Config, s: O.State, c: Call)
    requires Wf(s.db) && c.op.Cleanup?
    ensures Effect(cfg, s, c, Apply(cfg, s, c).0)
  {
  }

  lemma SignupKeepsSessions(cfg: O.Config, db: Store, email: string, password: string, env: O.Env)
    ensures SameSessions(db, O.Signup(cfg, db, email, password, env).0)
  {
  }

  lemma ForgotKeepsSessions(cfg: O.Config, db: Store, email: string, env: O.Env)
    ensures SameSessions(db, O.ForgotPassword(cfg, db, email, env).0)
  {
  }

  lemma ResetKeepsSessions(db: Store, otpHash: string, code: string, password: string, env: O.Env)
    ensures SameSessions(db, O.Reset(db, otpHash, code, password, env).0)
  {
  }

  lemma AccountCallsKeepSessions(cfg: O.Config, s: O.State, c: Call)
    requires c.op.Signup? || c.op.Forgot? || c.op.Reset?
    ensures SameSessions(s.db, Apply(cfg, s, c).0.db) && Apply(cfg, s, c).0.cache == s.cache
  {
    if c.op.Signup? { SignupKeepsSessions(cfg, s.db, c.op.email, c.op.password, c.env); }
    else if c.op.Forgot? { ForgotKeepsSessions(cfg, s.db, c.op.email, c.env); }
    else { ResetKeepsSessions(s.db, c.op.otpHash, c.op.code, c.op.password, c.env); }
  }

  lemma OtherEffect(cfg: O.Config, s: O.State, c: Call)
    requires Wf(s.db) && !OnSessions(c.op)
    ensures Effect(cfg, s, c, Apply(cfg, s, c).0)
  {
    if c.op.Delete? { DeleteEffect(cfg, s, c); }
    else if c.op.Cleanup? { CleanupEffect(cfg, s, c); }
    else if c.op.Signup? || c.op.Forgot? || c.op.Reset? { AccountCallsKeepSessions(cfg, s, c); }
    else { assert Apply(cfg, s, c).0.db == s.db; }
  }

  lemma ApplyEffect(cfg: O.Config, s: O.State, c: Call)
    requires Wf(s.db)
    ensures Effect(cfg, s, c, Apply(cfg, s, c).0)
  {
    if c.op.Refresh? { RefreshEffect(cfg, s, c); }
    else if c.op.Logout? { LogoutEffect(cfg, s, c); }
    else if c.op.VerifyOtp? { VerifyEffect(cfg, s, c); }
    else if c.op.Login? { LoginEffect(cfg, s, c); }
    else if c.op.Exchange? { ExchangeEffect(cfg, s, c); }
    else { OtherEffect(cfg, s, c); }
  }

  // ---------------------------------------------------------------- memcached against no cache

  /** The table agrees that the token is the user's until `expires`. */
  ghost predicate RowBacks(db: Store, h: TokenHash, uid: int, expires: Time) {
    exists i :: i in db.sessions && IsLiveSession(db.sessions[i], h)
                && db.sessions[i].userId == uid && expires <= db.sessions[i].expiresAt
  }

  /** Every validity entry that has not run out is backed by a row, or its user is gone for good;
      and no row gives its token to anyone else. */
  ghost predicate Backed(db: Store, items: Items, now: Time) {
    forall h :: ValidityKey(h) in items && now < items[ValidityKey(h)].expires ==>
      var item := items[ValidityKey(h)];
      && item.value.Validity?
      && item.value.userId < db.nextUser
      && (item.value.userId in db.users ==> RowBacks(db, h, item.value.userId, item.expires))
      && HeldBy(db, h, item.value.userId)
  }

  ghost predicate HeldBy(db: Store, h: TokenHash, uid: int) {
    forall i :: i in db.sessions && IsLiveSession(db.sessions[i], h) ==> db.sessions[i].userId == uid
  }

  /** Validity entries are old ones of tokens not spent, or the one of the row just added. */
  ghost predicate EntriesFrom(a: Items, b: Items, spent: Option<TokenHash>, added: Option<Session>) {
    forall h :: ValidityKey(h) in b ==>
      || (ValidityKey(h) in a && b[ValidityKey(h)] == a[ValidityKey(h)] && Some(h) != spent)
      || (added.Some? && h == added.value.tokenHash
          && b[ValidityKey(h)].value == Validity(added.value.userId)
          && b[ValidityKey(h)].expires <= added.value.expiresAt)
  }

  lemma CacheAfterEntries(cfg: O.Config, items: Items, spent: Option<TokenHash>, added: Option<Session>, env: O.Env)
    requires SECOND <= cfg.ttl && 0 <= env.now && env.faults !! INVALIDATION
    requires added.Some? ==> added.value.expiresAt == env.now + cfg.ttl
    ensures var c := CacheAfter(cfg, OfMemcached(items), spent, added, env);
            c.OfMemcached? && EntriesFrom(items, c.items, spent, added)
  {
    EntryExpiryBound(env.now, cfg.ttl);
  }

  lemma BackedStep(a: Store, b: Store, items: Items, items': Items, before: Time, now: Time,
                   spent: Option<TokenHash>, added: Option<Session>)
    requires Backed(a, items, before) && before <= now && Wf(a) && Wf(b) && Evolves(a, b)
    requires RowsKept(a, b, now, spent) && RowsOnly(a, b, spent, added) && EntriesFrom(items, items', spent, added)
    requires added.Some? ==> ValidityKey(added.value.tokenHash) !in items
    ensures Backed(b, items', now)
  {
    forall h | ValidityKey(h) in items' && now < items'[ValidityKey(h)].expires
      ensures var item := items'[ValidityKey(h)];
              && item.value.Validity? && item.value.userId < b.nextUser
              && (item.value.userId in b.users ==> RowBacks(b, h, item.value.userId, item.expires))
              && HeldBy(b, h, item.value.userId)
    {
      if ValidityKey(h) in items {
        BackedOldEntry(a, b, items, before, now, spent, added, h);
      } else {
        assert b.sessions[added.value.id] == added.value;
      }
    }
  }

  lemma BackedOldEntry(a: Store, b: Store, items: Items, before: Time, now: Time,
                       spent: Option<TokenHash>, added: Option<Session>, h: TokenHash)
    requires Backed(a, items, before) && before <= now && Wf(a) && Evolves(a, b)
    requires RowsKept(a, b, now, spent) && RowsOnly(a, b, spent, added)
    requires ValidityKey(h) in items && now < items[ValidityKey(h)].expires && Some(h) != spent
    requires added.Some? ==> added.value.tokenHash != h
    ensures var item := items[ValidityKey(h)];
            && item.value.Validity? && item.value.userId < b.nextUser
            && (item.value.userId in b.users ==> RowBacks(b, h, item.value.userId, item.expires))
            && HeldBy(b, h, item.value.userId)
  {
    var item := items[ValidityKey(h)];
    var uid := item.value.userId;
    if uid in b.users {
      assert uid in a.users;
      var i :| i in a.sessions && IsLiveSession(a.sessions[i], h) && a.sessions[i].userId == uid
               && item.expires <= a.sessions[i].expiresAt;
      assert b.sessions[i] == a.sessions[i];
    }
  }

  /** Every validity entry belongs to a token that some call of the run drew. */
  ghost predicate EntriesDrawn(cfg: O.Config, calls: seq<Call>, items: Items) {
    forall h :: ValidityKey(h) in items ==>
      exists k :: 0 <= k < |calls| && h == HashToken(calls[k].env.token, cfg.secret)
  }

  lemma NextEntryIsFresh(cfg: O.Config, calls: seq<Call>, items: Items)
    requires calls != [] && Lawful(calls) && EntriesDrawn(cfg, calls[..|calls| - 1], items)
    ensures ValidityKey(HashToken(calls[|calls| - 1].env.token, cfg.secret)) !in items
  {
    var n := |calls| - 1;
    forall k | 0 <= k < n
      ensures HashToken(calls[k].env.token, cfg.secret) != HashToken(calls[n].env.token, cfg.secret)
    {
      if HashToken(calls[k].env.token, cfg.secret) == HashToken(calls[n].env.token, cfg.secret) {
        HashTokenInjective(calls[k].env.token, calls[n].env.token, cfg.secret);
      }
    }
  }

  ghost predicate Clean(calls: seq<Call>) {
    forall k :: 0 <= k < |calls| ==> calls[k].env.faults !! INVALIDATION
  }

  lemma {:induction false} AfterIsBacked(sys: Service, calls: seq<Call>)
    requires SECOND <= sys.config.ttl && Lawful(calls) && Clean(calls)
    ensures var s := After(sys, Empty(OfMemcached(map[])), calls);
            s.cache.OfMemcached? && Wf(s.db) && Backed(s.db, s.cache.items, LastTime(calls))
            && EntriesDrawn(sys.config, calls, s.cache.items)
  {
    AfterIsSound(sys, OfMemcached(map[]), calls);
    if calls != [] {
      var n := |calls| - 1;
      assert Clean(calls[..n]) && Lawful(calls[..n]);
      AfterIsBacked(sys, calls[..n]);
      var s := After(sys, Empty(OfMemcached(map[])), calls[..n]);
      NextEntryIsFresh(sys.config, calls, s.cache.items);
      StepBacked(sys, s, calls[n], LastTime(calls[..n]));
      EntriesDrawnStep(sys.config, calls, s.cache.items, After(sys, Empty(OfMemcached(map[])), calls).cache.items);
    }
  }

  lemma EntriesDrawnStep(cfg: O.Config, calls: seq<Call>, a: Items, b: Items)
    requires calls != [] && EntriesDrawn(cfg, calls[..|calls| - 1], a)
    requires forall h :: ValidityKey(h) in b ==>
             ValidityKey(h) in a || h == HashToken(calls[|calls| - 1].env.token, cfg.secret)
    ensures EntriesDrawn(cfg, calls, b)
  {
    var n := |calls| - 1;
    forall h | ValidityKey(h) in b
      ensures exists k :: 0 <= k < |calls| && h == HashToken(calls[k].env.token, cfg.secret)
    {
      if ValidityKey(h) in a {
        var k :| 0 <= k < n && h == HashToken(calls[..n][k].env.token, cfg.secret);
        assert calls[..n][k] == calls[k];
      }
    }
  }

  lemma StepBacked(sys: Service, s: O.State, c: Call, before: Time)
    requires SECOND <= sys.config.ttl && Wf(s.db) && s.cache.OfMemcached? && Backed(s.db, s.cache.items, before)
    requires before <= c.env.now && 0 <= c.env.now && c.env.faults !! INVALIDATION
    requires ValidityKey(HashToken(c.env.token, sys.config.secret)) !in s.cache.items
    ensures var t := sys.step(s, c).0;
            && t.cache.OfMemcached? && Backed(t.db, t.cache.items, c.env.now)
            && forall h :: ValidityKey(h) in t.cache.items ==>
                 ValidityKey(h) in s.cache.items || h == HashToken(c.env.token, sys.config.secret)
  {
    StepIs(sys, s, c);
    BackedCall(sys.config, s, c, before);
  }

  lemma BackedCall(cfg: O.Config, s: O.State, c: Call, before: Time)
    requires SECOND <= cfg.ttl && Wf(s.db) && s.cache.OfMemcached? && Backed(s.db, s.cache.items, before)
    requires before <= c.env.now && 0 <= c.env.now && c.env.faults !! INVALIDATION
    requires ValidityKey(HashToken(c.env.token, cfg.secret)) !in s.cache.items
    ensures var t := Apply(cfg, s, c).0;
            && t.cache.OfMemcached? && Backed(t.db, t.cache.items, c.env.now)
            && forall h :: ValidityKey(h) in t.cache.items ==>
                 ValidityKey(h) in s.cache.items || h == HashToken(c.env.token, cfg.secret)
  {
    var t := Apply(cfg, s, c).0;
    var spent, added := Spent(cfg, s, c), Added(cfg, s, c);
    ApplyTables(cfg, s, c);
    ApplyEffect(cfg, s, c);
    if !c.op.Evict? { CacheAfterEntries(cfg, s.cache.items, spent, added, c.env); }
    BackedStep(s.db, t.db, s.cache.items, t.cache.items, before, c.env.now, spent, added);
  }

  /** The tables of a run do not depend on the cache. */
  lemma {:induction false} TablesIgnoreCache(sys: Service, a: CacheState, b: CacheState, calls: seq<Call>)
    ensures After(sys, Empty(a), calls).db == After(sys, Empty(b), calls).db
  {
    if calls != [] {
      var n := |calls| - 1;
      TablesIgnoreCache(sys, a, b, calls[..n]);
      var s, t := After(sys, Empty(a), calls[..n]), After(sys, Empty(b), calls[..n]);
      StepIgnoresCache(sys, s, t, calls[n]);
    }
  }

  lemma StepIgnoresCache(sys: Service, s: O.State, t: O.State, c: Call)
    requires s.db == t.db
    ensures sys.step(s, c).0.db == sys.step(t, c).0.db
  {
    StepIs(sys, s, c);
    StepIs(sys, t, c);
    ApplyIgnoresCache(sys.config, s, t, c);
  }

  lemma ApplyIgnoresCache(cfg: O.Config, s: O.State, t: O.State, c: Call)
    requires s.db == t.db
    ensures Apply(cfg, s, c).0.db == Apply(cfg, t, c).0.db
  {
  }

  lemma {:induction false} NoCacheStays(sys: Service, calls: seq<Call>)
    ensures After(sys, Empty(OfNothing), calls).cache == OfNothing
  {
    if calls != [] {
      var n := |calls| - 1;
      NoCacheStays(sys, calls[..n]);
      AfterIsSound(sys, OfNothing, calls[..n]);
      StepWithoutCache(sys, After(sys, Empty(OfNothing), calls[..n]), calls[n]);
    }
  }

  lemma StepWithoutCache(sys: Service, s: O.State, c: Call)
    requires Wf(s.db) && s.cache == OfNothing
    ensures sys.step(s, c).0.cache == OfNothing
  {
    StepIs(sys, s, c);
    ApplyEffect(sys.config, s, c);
  }

  /** A positive answer to ValidateSession. */
  predicate Positive(r: O.Response) {
    r.Checked? && r.owner.Some?
  }

  /** Both positive and equal, or both not positive. */
  predicate SameVerdict(r: O.Response, q: O.Response) {
    Positive(r) || Positive(q) ==> r == q
  }

  /** The environment in which the service's own lookup of a token works. */
  function Working(env: O.Env): O.Env {
    env.(faults := env.faults - {CheckSession})
  }

  lemma BackedVerdict(cfg: O.Config, s: O.State, token: string, env: O.Env, before: Time)
    requires Wf(s.db) && s.cache.OfMemcached? && Backed(s.db, s.cache.items, before) && before <= env.now
    ensures var cached := O.Validate(cfg, s, token, env);
            var t := s.(cache := OfNothing);
            && (Positive(cached) ==> cached == O.Validate(cfg, t, token, Working(env)))
            && (Positive(O.Validate(cfg, t, token, env)) ==> cached == O.Validate(cfg, t, token, env))
  {
    var h := HashToken(token, cfg.secret);
    var hit := Lookup(s.cache.items, ValidityKey(h), env.now);
    if hit.Some? {
      var uid := hit.value.userId;
      assert TokenOwner(s.db, h, env.now).Some? ==> TokenOwner(s.db, h, env.now) == Some(uid);
      if uid in s.db.users {
        var i :| i in s.db.sessions && IsLiveSession(s.db.sessions[i], h) && s.db.sessions[i].userId == uid
                 && s.cache.items[ValidityKey(h)].expires <= s.db.sessions[i].expiresAt;
        assert LiveSession(s.db, h) == Some(s.db.sessions[i]);
        assert TokenOwner(s.db, h, env.now) == Some(uid);
      }
    }
  }

  /** What the database says of the token that call k validates: the answer of the uncached service
      whose lookup works. */
  ghost function Reference(sys: Service, calls: seq<Call>, k: nat): O.Response
    requires k < |calls| && calls[k].op.Validate?
  {
    O.Validate(sys.config, After(sys, Empty(OfNothing), calls[..k]), calls[k].op.token, Working(calls[k].env))
  }

  /** On a run, whatever memcached makes the service accept the database accepts, for the same user,
      and whatever the uncached service accepts the cached one does. Where the lookup of the uncached
      service works, these are the same. */
  ghost predicate TransparentAt(sys: Service, calls: seq<Call>, k: nat)
    requires k < |calls| && calls[k].op.Validate?
  {
    var cached, uncached := Answer(sys, Empty(OfMemcached(map[])), calls, k), Answer(sys, Empty(OfNothing), calls, k);
    && (Positive(cached) ==> cached == Reference(sys, calls, k))
    && (Positive(uncached) ==> cached == uncached)
  }

  /** Over every run with arbitrary evictions and arbitrary failures other than of invalidations. */
  ghost predicate Transparent(sys: Service) {
    forall calls: seq<Call>, k: nat :: Lawful(calls) && Clean(calls) && k < |calls| && calls[k].op.Validate? ==>
      TransparentAt(sys, calls, k)
  }

  lemma ValidationIs(sys: Service, s: O.State, calls: seq<Call>, k: nat)
    requires k < |calls| && calls[k].op.Validate?
    ensures Answer(sys, s, calls, k)
            == O.Validate(sys.config, After(sys, s, calls[..k]), calls[k].op.token, calls[k].env)
  {
    StepIs(sys, After(sys, s, calls[..k]), calls[k]);
  }

  lemma TransparentFromOneSecond(sys: Service, calls: seq<Call>, k: nat)
    requires SECOND <= sys.config.ttl && Lawful(calls) && Clean(calls) && k < |calls| && calls[k].op.Validate?
    ensures TransparentAt(sys, calls, k)
    ensures CheckSession !in calls[k].env.faults ==>
              SameVerdict(Answer(sys, Empty(OfMemcached(map[])), calls, k), Answer(sys, Empty(OfNothing), calls, k))
  {
    var prefix := calls[..k];
    assert Lawful(prefix) && Clean(prefix);
    AfterIsBacked(sys, prefix);
    TablesIgnoreCache(sys, OfMemcached(map[]), OfNothing, prefix);
    NoCacheStays(sys, prefix);
    ValidationIs(sys, Empty(OfMemcached(map[])), calls, k);
    ValidationIs(sys, Empty(OfNothing), calls, k);
    var s := After(sys, Empty(OfMemcached(map[])), prefix);
    BackedVerdict(sys.config, s, calls[k].op.token, calls[k].env, LastTime(prefix));
    if CheckSession !in calls[k].env.faults { assert Working(calls[k].env) == calls[k].env; }
  }

  // ---------------------------------------------------------------- below one second

  const KEY: LinkKey := LinkKey(1, "sub")

  /** A provider login at the epoch, then a validation once the row has expired. */
  function ShortRun(cfg: O.Config): seq<Call> {
    [Call(Exchange(KEY, "a@b.io"), O.Env(0, {}, "t", "o", "", [O.Draw(Some("000000"), false)])),
     Call(Validate("t"), O.Env(if cfg.ttl < 0 then 0 else cfg.ttl, {}, "u", "p", "", []))]
  }

  lemma ShortRunIsLawful(cfg: O.Config)
    ensures Lawful(ShortRun(cfg)) && Clean(ShortRun(cfg))
  {
    assert "t" != "u" && "o" != "p" by { assert "t"[0] != "u"[0] && "o"[0] != "p"[0]; }
  }

  lemma ShortName()
    ensures O.PickName(EMPTY, "a@b.io", [O.Draw(Some("000000"), false)], 10) == Some("a_000000")
  {
    var suffix: Usernames.Suffix := "000000";
    assert Usernames.EmailPrefix("a@b.io") == "a" by {
      assert "a@b.io"[1..][0] == '@';
      assert Usernames.EmailPrefix("a@b.io"[1..]) == "";
    }
    assert Usernames.Candidate("a", suffix) == "a_000000";
  }

  /** The tables after the provider login, but for the session. */
  function ShortTables(): Store {
    EMPTY.(users := map[1 := User("a@b.io", Some("a_000000"), true, None, 0)],
           credentials := map[1 := Blank],
           links := map[KEY := Link(1, 0, 0)],
           nextUser := 2)
  }

  lemma ShortAdmission(env: O.Env)
    requires env.now == 0 && env.faults == {} && env.draws == [O.Draw(Some("000000"), false)]
    ensures O.AdmitByProvider(EMPTY, KEY, "a@b.io", env) == (ShortTables(), Ok(1))
  {
    ShortName();
    var (db, uid) := CreateUser(EMPTY, "a@b.io", Some("a_000000"), true, Blank, 0, {});
    assert uid == Some(1);
    assert db == ShortTables().(links := map[]);
  }

  lemma ShortLogin(sys: Service, cache: CacheState)
    ensures var h := HashToken("t", sys.config.secret);
            var row := Session(1, 1, h, sys.config.ttl, None, 0);
            After(sys, Empty(cache), ShortRun(sys.config)[..1])
            == O.State(ShortTables().(sessions := map[1 := row], nextSession := 2),
                       Remember(cache, h, row, sys.config.ttl, 0, {}))
  {
    var calls := ShortRun(sys.config);
    assert calls[..1] == [calls[0]] && calls[..1][..0] == [];
    StepIs(sys, Empty(cache), calls[0]);
    ShortAdmission(calls[0].env);
    ShortOpening(sys.config, cache, calls[0].env);
    assert After(sys, Empty(cache), calls[..1]) == sys.step(Empty(cache), calls[0]).0;
  }

  lemma ShortOpening(cfg: O.Config, cache: CacheState, env: O.Env)
    requires env.now == 0 && env.faults == {} && env.token == "t"
    ensures var h := HashToken("t", cfg.secret);
            var row := Session(1, 1, h, cfg.ttl, None, 0);
            O.OpenSession(cfg, O.State(ShortTables(), cache), 1, env).0
            == O.State(ShortTables().(sessions := map[1 := row], nextSession := 2),
                       Remember(cache, h, row, cfg.ttl, 0, {}))
  {
  }

  lemma ShortVerdicts(cfg: O.Config, db: Store, env: O.Env)
    requires cfg.ttl < SECOND && env.faults == {} && env.now == if cfg.ttl < 0 then 0 else cfg.ttl
    requires var h := HashToken("t", cfg.secret);
             && db == ShortTables().(sessions := map[1 := Session(1, 1, h, cfg.ttl, None, 0)], nextSession := 2)
    ensures var h := HashToken("t", cfg.secret);
            var row := Session(1, 1, h, cfg.ttl, None, 0);
            && Positive(O.Validate(cfg, O.State(db, Remember(OfMemcached(map[]), h, row, cfg.ttl, 0, {})), "t", env))
            && !Positive(O.Validate(cfg, O.State(db, OfNothing), "t", env))
  {
    var h := HashToken("t", cfg.secret);
    var row := Session(1, 1, h, cfg.ttl, None, 0);
    var cached := Remember(OfMemcached(map[]), h, row, cfg.ttl, 0, {});
    assert Lookup(cached.items, ValidityKey(h), env.now) == Some(Validity(1));
    assert TokenOwner(db, h, env.now).None?;
  }

  /** The cached service still accepts the token, the uncached one and the database do not. */
  lemma ShortRunDiffers(sys: Service)
    requires sys.config.ttl < SECOND
    ensures !TransparentAt(sys, ShortRun(sys.config), 1)
  {
    var calls := ShortRun(sys.config);
    ShortLogin(sys, OfMemcached(map[]));
    ShortLogin(sys, OfNothing);
    ValidationIs(sys, Empty(OfMemcached(map[])), calls, 1);
    ShortVerdicts(sys.config, After(sys, Empty(OfNothing), calls[..1]).db, calls[1].env);
    assert Working(calls[1].env) == calls[1].env;
  }

  /** The exact condition: the cache is transparent over every run if and only if sessions live
      for at least the one second below which the cache rounds up. */
  lemma TransparencyCondition(sys: Service)
    ensures Transparent(sys) <==> SECOND <= sys.config.ttl
  {
    if SECOND <= sys.config.ttl {
      forall calls: seq<Call>, k: nat | Lawful(calls) && Clean(calls) && k < |calls| && calls[k].op.Validate?
        ensures TransparentAt(sys, calls, k)
      {
        TransparentFromOneSecond(sys, calls, k);
      }
    } else {
      ShortRunIsLawful(sys.config);
      ShortRunDiffers(sys);
    }
  }
}
