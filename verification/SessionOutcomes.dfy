/** Sessions validated, refreshed, ended and swept: exactly when, and with which rows. */
module SessionOutcomes {
  import opened Domain
  import opened Tables
  import opened CacheStates
  import opened Runs
  import opened Outcomes
  import opened AccountOutcomes
  import O = Operations

  // ---------------------------------------------------------------- ValidateSession

  /** The cache says that the token is of user u. */
  predicate Hit(c: CacheState, h: TokenHash, env: O.Env, u: int) {
    || (c.OfMemcached? && CacheGet !in env.faults && ValidityKey(h) in c.items
        && env.now < c.items[ValidityKey(h)].expires && c.items[ValidityKey(h)].value == Validity(u))
    || (c.OfMemory? && h in c.entries && env.now <= c.entries[h].expiresAt && c.entries[h].userId == u)
  }

  /** Row i makes the token valid. */
  predicate Vouches(a: Store, h: TokenHash, now: Time, i: int) {
    && i in a.sessions && a.sessions[i].tokenHash == h && a.sessions[i].deletedAt == None
    && now < a.sessions[i].expiresAt
  }

  /** The answer once the owner of the token is known: the user as GetUser tells it. */
  predicate Owned(a: Store, u: int, env: O.Env, answer: O.Response) {
    if u in a.users && GetUserByID !in env.faults then
      answer.Checked? && answer.owner.Some? && Told(a, u, answer.owner.value)
    else answer == O.Rejected(if GetUserByID in env.faults then Internal else NotFound)
  }

  /** Everything ValidateSession answers: a hit of the cache counts, whatever the table says; without one
      the table does; but the in-memory cache never sends anyone to the table. */
  ghost predicate Validates(cfg: O.Config, s: O.State, token: string, env: O.Env, answer: O.Response) {
    var h := HashToken(token, cfg.secret);
    if token == "" then answer == O.Checked(None)
    else if exists u :: Hit(s.cache, h, env, u) then
      forall u :: Hit(s.cache, h, env, u) ==> Owned(s.db, u, env, answer)
    else if s.cache.OfMemory? then answer == O.Checked(None)
    else if CheckSession in env.faults then answer == O.Rejected(Internal)
    else if exists i :: Vouches(s.db, h, env.now, i) then
      forall i :: Vouches(s.db, h, env.now, i) ==> Owned(s.db, s.db.sessions[i].userId, env, answer)
    else answer == O.Checked(None)
  }

  lemma OwnerIsVouched(db: Store, h: TokenHash, now: Time)
    requires Wf(db)
    ensures forall i :: Vouches(db, h, now, i) ==> TokenOwner(db, h, now) == Some(db.sessions[i].userId)
    ensures TokenOwner(db, h, now).Some? ==> exists i :: Vouches(db, h, now, i)
  {
    var row := LiveSession(db, h);
    if row.Some? {
      var i :| i in db.sessions && db.sessions[i] == row.value;
      assert forall j :: Vouches(db, h, now, j) ==> db.sessions[j].tokenHash == db.sessions[i].tokenHash;
      if now < row.value.expiresAt { assert Vouches(db, h, now, i); }
    } else {
      assert forall i :: Vouches(db, h, now, i) ==> IsLiveSession(db.sessions[i], h);
    }
  }

  lemma HitIsVerdict(c: CacheState, h: TokenHash, env: O.Env)
    ensures forall u :: Hit(c, h, env, u) <==> Ask(c, h, env.now, env.faults) == Says(Some(u))
    ensures !c.OfMemory? ==> Ask(c, h, env.now, env.faults) != Says(None)
    ensures c.OfMemory? ==> Ask(c, h, env.now, env.faults).Says?
  {
  }

  lemma ValidateOutcome(cfg: O.Config, s: O.State, token: string, env: O.Env)
    requires Wf(s.db)
    ensures Validates(cfg, s, token, env, O.Validate(cfg, s, token, env))
  {
    var h := HashToken(token, cfg.secret);
    OwnerIsVouched(s.db, h, env.now);
    HitIsVerdict(s.cache, h, env);
  }

  /** ValidateSession over runs, told from the tables and the cache. */
  lemma ValidateExactly(sys: Service, cache: CacheState, calls: seq<Call>, k: nat)
    requires k < |calls| && calls[k].op.Validate?
    ensures Validates(sys.config, After(sys, Empty(cache), calls[..k]), calls[k].op.token, calls[k].env,
                      Answer(sys, Empty(cache), calls, k))
  {
    AfterIsSound(sys, cache, calls[..k]);
    StepIs(sys, After(sys, Empty(cache), calls[..k]), calls[k]);
    ValidateOutcome(sys.config, After(sys, Empty(cache), calls[..k]), calls[k].op.token, calls[k].env);
  }

  // ---------------------------------------------------------------- RefreshSession and Logout

  /** Row i is the undeleted one of the token. */
  predicate Carries(a: Store, h: TokenHash, i: int) {
    i in a.sessions && a.sessions[i].tokenHash == h && a.sessions[i].deletedAt == None
  }

  /** Why a token is turned away. */
  ghost predicate TokenError(a: Store, token: string, h: TokenHash, env: O.Env, error: Error) {
    && (error == Unauthorized <==>
          || token == ""
          || (GetSession !in env.faults && exists i :: Carries(a, h, i) && env.now > a.sessions[i].expiresAt))
    && (error == NotFound <==> token != "" && GetSession !in env.faults && forall i :: !Carries(a, h, i))
    && error != Conflict && error != Validation
  }

  /** Row i is of this token, and not past its expiry. */
  predicate Usable(a: Store, token: string, h: TokenHash, now: Time, i: int) {
    token != "" && Carries(a, h, i) && now <= a.sessions[i].expiresAt
  }

  /** The rows of the other tables, and of all users, are as before. */
  predicate OnlySessions(a: Store, b: Store) {
    SameUsers(a, b) && b.otps == a.otps && b.links == a.links
  }

  const REFRESH_NEEDS: set<CallSite> := {GetSession, Randomness, UpdateSession}

  const LOGOUT_NEEDS: set<CallSite> := {GetSession, SoftDeleteSession}

  /** Everything RefreshSession does to the tables, and answers. */
  ghost predicate Refreshes(cfg: O.Config, token: string, env: O.Env, a: Store, b: Store, answer: O.Response) {
    var h := HashToken(token, cfg.secret);
    && (answer.Refreshed? <==> (exists i :: Usable(a, token, h, env.now, i)) && env.faults !! REFRESH_NEEDS)
    && (answer.Refreshed? ==> answer == O.Refreshed(env.token))
    && (answer.Refreshed? || (answer.Rejected? && TokenError(a, token, h, env, answer.error)))
    && (answer.Refreshed? ==> forall i :: Usable(a, token, h, env.now, i) ==> Rotated(cfg, env, i, a, b))
    && (!answer.Refreshed? ==> b.sessions == a.sessions)
    && OnlySessions(a, b)
  }

  /** Row i has the new hash and the new expiry, and is otherwise the same row; no other has changed. */
  ghost predicate Rotated(cfg: O.Config, env: O.Env, i: int, a: Store, b: Store)
    requires i in a.sessions
  {
    b.sessions == a.sessions[i := Session(i, a.sessions[i].userId, HashToken(env.token, cfg.secret),
                                          env.now + cfg.ttl, None, a.sessions[i].createdAt)]
  }

  /** Everything Logout does to the tables, and answers. */
  ghost predicate LogsOut(cfg: O.Config, token: string, env: O.Env, a: Store, b: Store, answer: O.Response) {
    var h := HashToken(token, cfg.secret);
    && (answer.LoggedOut? <==> (exists i :: Usable(a, token, h, env.now, i)) && env.faults !! LOGOUT_NEEDS)
    && (answer.LoggedOut? || (answer.Rejected? && TokenError(a, token, h, env, answer.error)))
    && (answer.LoggedOut? ==> forall i :: Usable(a, token, h, env.now, i) ==> Ended(env, i, a, b))
    && (!answer.LoggedOut? ==> b.sessions == a.sessions)
    && OnlySessions(a, b)
  }

  /** Row i is marked as deleted now; no other has changed. */
  predicate Ended(env: O.Env, i: int, a: Store, b: Store)
    requires i in a.sessions
  {
    b.sessions == a.sessions[i := a.sessions[i].(deletedAt := Some(env.now))]
  }

  lemma CheckedToken(cfg: O.Config, db: Store, token: string, env: O.Env)
    requires Wf(db)
    ensures var row := O.CheckToken(cfg, db, token, env);
            var h := HashToken(token, cfg.secret);
            && TokenError(db, token, h, env, if row.Err? then row.error else Internal)
            && (row.Ok? <==> GetSession !in env.faults && exists i :: Usable(db, token, h, env.now, i))
            && (row.Ok? ==> row.value.id in db.sessions && db.sessions[row.value.id] == row.value
                            && forall i :: Carries(db, h, i) <==> i == row.value.id)
  {
    var h := HashToken(token, cfg.secret);
    var row := LiveSession(db, h);
    if row.Some? {
      var i :| i in db.sessions && db.sessions[i] == row.value;
      assert Carries(db, h, i) && i == row.value.id;
      assert forall j :: Carries(db, h, j) ==> j == i;
      assert Usable(db, token, h, env.now, i) <==> token != "" && env.now <= row.value.expiresAt;
    } else {
      assert forall i :: Carries(db, h, i) ==> IsLiveSession(db.sessions[i], h);
    }
  }

  lemma RefreshOutcome(cfg: O.Config, s: O.State, token: string, env: O.Env, t: Store, answer: O.Response)
    requires Wf(s.db) && !TokenHashTaken(s.db, HashToken(env.token, cfg.secret))
    requires var r := O.Refresh(cfg, s, token, env); t == r.0.db && answer == r.1
    ensures Refreshes(cfg, token, env, s.db, t, answer)
  {
    CheckedToken(cfg, s.db, token, env);
  }

  lemma LogoutOutcome(cfg: O.Config, s: O.State, token: string, env: O.Env, t: Store, answer: O.Response)
    requires Wf(s.db) && (var r := O.Logout(cfg, s, token, env); t == r.0.db && answer == r.1)
    ensures LogsOut(cfg, token, env, s.db, t, answer)
  {
    CheckedToken(cfg, s.db, token, env);
  }

  /** RefreshSession over runs: it succeeds exactly when the token has an undeleted row that is not past
      its expiry and its own calls work; then that row has the new token and lives for the TTL from now,
      and is the same row otherwise. */
  lemma RefreshExactly(sys: Service, cache: CacheState, calls: seq<Call>, k: nat)
    requires Lawful(calls) && k < |calls| && calls[k].op.Refresh?
    ensures Refreshes(sys.config, calls[k].op.token, calls[k].env, Before(sys, cache, calls, k),
                      Behind(sys, cache, calls, k), Answer(sys, Empty(cache), calls, k))
  {
    CallIsSound(sys, cache, calls, k);
    StepIs(sys, After(sys, Empty(cache), calls[..k]), calls[k]);
    RefreshOutcome(sys.config, After(sys, Empty(cache), calls[..k]), calls[k].op.token, calls[k].env,
                   Behind(sys, cache, calls, k), Answer(sys, Empty(cache), calls, k));
  }

  /** Logout over runs: it succeeds exactly when the token has an undeleted row that is not past its
      expiry and its own calls work; then that row is deleted and every other row is as before. */
  lemma LogoutExactly(sys: Service, cache: CacheState, calls: seq<Call>, k: nat)
    requires k < |calls| && calls[k].op.Logout?
    ensures LogsOut(sys.config, calls[k].op.token, calls[k].env, Before(sys, cache, calls, k),
                    Behind(sys, cache, calls, k), Answer(sys, Empty(cache), calls, k))
  {
    AfterIsSound(sys, cache, calls[..k]);
    AfterNext(sys, Empty(cache), calls, k);
    StepIs(sys, After(sys, Empty(cache), calls[..k]), calls[k]);
    LogoutOutcome(sys.config, After(sys, Empty(cache), calls[..k]), calls[k].op.token, calls[k].env,
                  Behind(sys, cache, calls, k), Answer(sys, Empty(cache), calls, k));
  }

  // ---------------------------------------------------------------- the cleanup worker

  /** Exactly the undeleted rows that are not past their expiry are left, as they were. */
  ghost predicate SessionsLeft(now: Time, a: map<int, Session>, b: map<int, Session>) {
    && (forall i :: i in b <==> i in a && a[i].deletedAt == None && now <= a[i].expiresAt)
    && (forall i :: i in b ==> b[i] == a[i])
  }

  ghost predicate CodesLeft(now: Time, a: map<int, Otp>, b: map<int, Otp>) {
    && (forall i :: i in b <==> i in a && a[i].deletedAt == None && now <= a[i].expiresAt)
    && (forall i :: i in b ==> b[i] == a[i])
  }

  ghost predicate Sweeps(env: O.Env, a: Store, b: Store) {
    && (if SweepSessions in env.faults then b.sessions == a.sessions else SessionsLeft(env.now, a.sessions, b.sessions))
    && (if SweepOtps in env.faults then b.otps == a.otps else CodesLeft(env.now, a.otps, b.otps))
    && SameUsers(a, b) && b.links == a.links
  }

  lemma CleanupOutcome(db: Store, env: O.Env)
    ensures Sweeps(env, db, O.Cleanup(db, env))
  {
  }

  /** A round of the cleanup worker over runs: each of its two deletes, if it works, leaves exactly the
      undeleted rows that are not past their expiry; nothing else changes. */
  lemma CleanupExactly(sys: Service, cache: CacheState, calls: seq<Call>, k: nat)
    requires k < |calls| && calls[k].op.Cleanup?
    ensures Sweeps(calls[k].env, Before(sys, cache, calls, k), Behind(sys, cache, calls, k))
  {
    AfterNext(sys, Empty(cache), calls, k);
    StepIs(sys, After(sys, Empty(cache), calls[..k]), calls[k]);
    CleanupOutcome(Before(sys, cache, calls, k), calls[k].env);
  }
}
