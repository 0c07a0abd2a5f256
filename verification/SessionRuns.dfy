/** How long a token lives: over whole runs, exactly when it is accepted, with and without memcached. */
module SessionRuns {
  import opened Domain
  import opened Tables
  import opened CacheStates
  import opened Runs
  import opened Outcomes
  import opened CacheAgreement
  import A = AccountOutcomes
  import C = CodeOutcomes
  import S = SessionOutcomes
  import R = CodeRuns
  import O = Operations
  import RefreshChains

  // ---------------------------------------------------------------- tokens handed out

  /** The answer hands out the token that the call drew. */
  predicate Grants(answer: O.Response, token: string) {
    || (answer.LoggedIn? && answer.token == token)
    || (answer.Verified? && answer.token == token)
    || (answer.Refreshed? && answer.token == token)
  }

  /** Row x is what call i stored for user u and the token it drew. */
  predicate Granted(cfg: O.Config, env: O.Env, b: Store, x: int, u: int) {
    && x in b.sessions && u in b.users && b.sessions[x].userId == u
    && b.sessions[x].tokenHash == HashToken(env.token, cfg.secret) && b.sessions[x].deletedAt == None
    && b.sessions[x].expiresAt == env.now + cfg.ttl
  }

  ghost predicate GrantedAt(sys: Service, cache: CacheState, calls: seq<Call>, i: nat, u: int) {
    i < |calls| && exists x :: Granted(sys.config, calls[i].env, Behind(sys, cache, calls, i), x, u)
  }

  lemma AnswersThatGrant(sys: Service, s: O.State, c: Call)
    ensures var answer := sys.step(s, c).1;
            (answer.LoggedIn? ==> c.op.Login? || c.op.Exchange?) && (answer.Verified? ==> c.op.VerifyOtp?)
            && (answer.Refreshed? ==> c.op.Refresh?)
  {
    StepIs(sys, s, c);
  }

  lemma VerifyGrants(cfg: O.Config, otpHash: string, code: string, env: O.Env, a: Store, b: Store, answer: O.Response)
    requires Wf(a) && Wf(b) && answer.Verified? && C.VerifiesOrRefuses(cfg, otpHash, code, env, a, b, answer)
    ensures answer.token == env.token && exists x, u :: Granted(cfg, env, b, x, u)
  {
    var i: int, name: string :| C.Verifiable(a, otpHash, code, env, i, name);
    assert C.Verifies(cfg, env, i, name, a, b, answer);
    assert Granted(cfg, env, b, a.nextSession, a.otps[i].userId);
  }

  lemma LoginGrants(cfg: O.Config, email: string, password: string, env: O.Env, a: Store, b: Store, answer: O.Response)
    requires Wf(a) && Wf(b) && answer.LoggedIn? && A.LogsIn(cfg, email, password, env, a, b, answer)
    ensures answer.token == env.token && exists x, u :: Granted(cfg, env, b, x, u)
  {
    var u :| A.Known(a, email, password, u);
    assert A.Notes(cfg, env, u, a, b, true);
    assert Granted(cfg, env, b, a.nextSession, u);
  }

  lemma ExchangeGrants(cfg: O.Config, key: LinkKey, email: string, env: O.Env, a: Store, b: Store, answer: O.Response)
    requires Wf(a) && Wf(b) && answer.LoggedIn? && A.Exchanges(cfg, key, email, env, a, b, answer)
    ensures answer.token == env.token && exists x, u :: Granted(cfg, env, b, x, u)
  {
    assert Granted(cfg, env, b, a.nextSession, if key in a.links then a.links[key].userId else a.nextUser);
  }

  lemma RefreshGrants(cfg: O.Config, token: string, env: O.Env, a: Store, b: Store, answer: O.Response)
    requires Wf(a) && Wf(b) && answer.Refreshed? && S.Refreshes(cfg, token, env, a, b, answer)
    ensures answer.token == env.token && exists x, u :: Granted(cfg, env, b, x, u)
  {
    var i :| S.Usable(a, token, HashToken(token, cfg.secret), env.now, i);
    assert S.Rotated(cfg, env, i, a, b);
    assert Granted(cfg, env, b, i, a.sessions[i].userId);
  }

  /** Whatever answer carries a token carries the one just drawn, and has stored a row for it. */
  lemma GrantsAreStored(sys: Service, cache: CacheState, calls: seq<Call>, i: nat)
    requires Lawful(calls) && i < |calls|
    requires var answer := Answer(sys, Empty(cache), calls, i);
             answer.LoggedIn? || answer.Verified? || answer.Refreshed?
    ensures Grants(Answer(sys, Empty(cache), calls, i), calls[i].env.token)
    ensures exists u :: GrantedAt(sys, cache, calls, i, u)
  {
    var (a, b) := (Before(sys, cache, calls, i), Behind(sys, cache, calls, i));
    var (c, answer) := (calls[i], Answer(sys, Empty(cache), calls, i));
    AnswersThatGrant(sys, After(sys, Empty(cache), calls[..i]), c);
    CallIsSound(sys, cache, calls, i);
    AfterIsSound(sys, cache, calls[..i + 1]);
    if c.op.VerifyOtp? {
      C.VerifyOtpExactly(sys, cache, calls, i);
      VerifyGrants(sys.config, c.op.otpHash, c.op.code, c.env, a, b, answer);
    } else if c.op.Login? {
      A.LoginExactly(sys, cache, calls, i);
      LoginGrants(sys.config, c.op.email, c.op.password, c.env, a, b, answer);
    } else if c.op.Exchange? {
      A.ExchangeExactly(sys, cache, calls, i);
      ExchangeGrants(sys.config, c.op.key, c.op.email, c.env, a, b, answer);
    } else {
      S.RefreshExactly(sys, cache, calls, i);
      RefreshGrants(sys.config, c.op.token, c.env, a, b, answer);
    }
    var x, u :| Granted(sys.config, c.env, b, x, u);
    assert GrantedAt(sys, cache, calls, i, u);
  }

  // ---------------------------------------------------------------- between the calls

  /** Call j takes the token out of use. */
  predicate Revokes(c: Call, answer: O.Response, token: string) {
    || (c.op.Refresh? && c.op.token == token && answer.Refreshed?)
    || (c.op.Logout? && c.op.token == token && answer.LoggedOut?)
  }

  lemma SpentIsRevoked(sys: Service, s: O.State, c: Call, token: string)
    requires Spent(sys.config, s, c) == Some(HashToken(token, sys.config.secret))
    ensures Revokes(c, sys.step(s, c).1, token)
  {
    StepIs(sys, s, c);
    HashTokenInjective(c.op.token, token, sys.config.secret);
  }

  lemma StepKeepsRow(sys: Service, s: O.State, c: Call, x: int, token: string)
    requires Wf(s.db) && x in s.db.sessions
    requires var r := s.db.sessions[x];
             r.deletedAt == None && r.tokenHash == HashToken(token, sys.config.secret) && c.env.now <= r.expiresAt
             && r.userId in sys.step(s, c).0.db.users
    requires !Revokes(c, sys.step(s, c).1, token)
    ensures var b := sys.step(s, c).0.db.sessions; x in b && b[x] == s.db.sessions[x]
  {
    if Spent(sys.config, s, c) == Some(HashToken(token, sys.config.secret)) { SpentIsRevoked(sys, s, c, token); }
    StepIs(sys, s, c);
    ApplyEffect(sys.config, s, c);
  }

  /** No call in between takes the token out of use. */
  ghost predicate Unrevoked(sys: Service, cache: CacheState, calls: seq<Call>, m: nat, n: nat, token: string)
    requires n <= |calls|
  {
    forall j: nat :: m <= j < n ==> !Revokes(calls[j], Answer(sys, Empty(cache), calls, j), token)
  }

  lemma {:induction false} RowStays(sys: Service, cache: CacheState, calls: seq<Call>, m: nat, n: nat, x: int,
                                    token: string, r: Session)
    requires m <= n <= |calls| && Unrevoked(sys, cache, calls, m, n, token)
    requires var db := After(sys, Empty(cache), calls[..m]).db; x in db.sessions && db.sessions[x] == r
    requires r.deletedAt == None && r.tokenHash == HashToken(token, sys.config.secret)
    requires forall j :: m <= j < n ==> calls[j].env.now <= r.expiresAt
    requires r.userId in After(sys, Empty(cache), calls[..n]).db.users
    ensures var db := After(sys, Empty(cache), calls[..n]).db; x in db.sessions && db.sessions[x] == r
  {
    if m < n {
      UserStays(sys, cache, calls, m, n, x);
      RowStays(sys, cache, calls, m, n - 1, x, token, r);
      AfterIsSound(sys, cache, calls[..n - 1]);
      AfterNext(sys, Empty(cache), calls, n - 1);
      StepKeepsRow(sys, After(sys, Empty(cache), calls[..n - 1]), calls[n - 1], x, token);
    }
  }

  lemma UserStays(sys: Service, cache: CacheState, calls: seq<Call>, m: nat, n: nat, x: int)
    requires m < n <= |calls| && x in After(sys, Empty(cache), calls[..m]).db.sessions
    requires After(sys, Empty(cache), calls[..m]).db.sessions[x].userId in After(sys, Empty(cache), calls[..n]).db.users
    ensures After(sys, Empty(cache), calls[..m]).db.sessions[x].userId
            in After(sys, Empty(cache), calls[..n - 1]).db.users
  {
    AfterIsSound(sys, cache, calls[..m]);
    R.UserBetween(sys, cache, calls, m, n - 1, n, After(sys, Empty(cache), calls[..m]).db.sessions[x].userId);
  }

  /** A revoked token has no undeleted row right after the call that revoked it. */
  lemma RevokedHasNoRow(sys: Service, cache: CacheState, calls: seq<Call>, j: nat, token: string)
    requires Lawful(calls) && j < |calls| && Revokes(calls[j], Answer(sys, Empty(cache), calls, j), token)
    ensures RefreshChains.NoRow(Behind(sys, cache, calls, j).sessions, HashToken(token, sys.config.secret))
  {
    if calls[j].op.Refresh? {
      RefreshChains.RefreshLeaves(sys, cache, calls, j);
    } else {
      S.LogoutExactly(sys, cache, calls, j);
      CallIsSound(sys, cache, calls, j);
      LogoutLeaves(sys.config, token, calls[j].env, Before(sys, cache, calls, j), Behind(sys, cache, calls, j),
                   Answer(sys, Empty(cache), calls, j));
    }
  }

  lemma LogoutLeaves(cfg: O.Config, token: string, env: O.Env, a: Store, b: Store, answer: O.Response)
    requires Wf(a) && answer.LoggedOut? && S.LogsOut(cfg, token, env, a, b, answer)
    ensures RefreshChains.NoRow(b.sessions, HashToken(token, cfg.secret))
  {
    var h := HashToken(token, cfg.secret);
    var i :| S.Usable(a, token, h, env.now, i);
    assert S.Ended(env, i, a, b);
  }

  lemma RevokedForever(sys: Service, cache: CacheState, calls: seq<Call>, i: nat, j: nat, n: nat)
    requires Lawful(calls) && i < j < n <= |calls|
    requires Revokes(calls[j], Answer(sys, Empty(cache), calls, j), calls[i].env.token)
    ensures RefreshChains.NoRow(After(sys, Empty(cache), calls[..n]).db.sessions,
                                HashToken(calls[i].env.token, sys.config.secret))
  {
    RevokedHasNoRow(sys, cache, calls, j, calls[i].env.token);
    RefreshChains.RowsBetween(sys, cache, calls, j + 1, n, calls[i].env.token,
                              Session(0, 0, HashToken("", ""), 0, None, 0));
  }

  // ---------------------------------------------------------------- without a cache

  /** At call k the token that call i handed out for u still holds: u is there, the TTL is not over, and
      nobody has refreshed the token or logged it out. */
  ghost predicate Holds(sys: Service, cache: CacheState, calls: seq<Call>, i: nat, k: nat, u: int)
    requires i < k < |calls|
  {
    && u in Before(sys, cache, calls, k).users && calls[k].env.now < calls[i].env.now + sys.config.ttl
    && Unrevoked(sys, cache, calls, i + 1, k, calls[i].env.token)
  }

  lemma HoldingIsVouched(sys: Service, cache: CacheState, calls: seq<Call>, i: nat, k: nat, u: int)
    requires Lawful(calls) && i < k < |calls| && GrantedAt(sys, cache, calls, i, u) && Holds(sys, cache, calls, i, k, u)
    ensures var db := Before(sys, cache, calls, k);
            exists x :: S.Vouches(db, HashToken(calls[i].env.token, sys.config.secret), calls[k].env.now, x)
                        && db.sessions[x].userId == u
  {
    var x :| Granted(sys.config, calls[i].env, Behind(sys, cache, calls, i), x, u);
    RowStays(sys, cache, calls, i + 1, k, x, calls[i].env.token, Behind(sys, cache, calls, i).sessions[x]);
    assert S.Vouches(Before(sys, cache, calls, k), HashToken(calls[i].env.token, sys.config.secret), calls[k].env.now,
                     x);
  }

  lemma GrantedIsOnlyRow(db: Store, cfg: O.Config, env: O.Env, x: int, u: int)
    requires Wf(db) && Granted(cfg, env, db, x, u)
    ensures RefreshChains.OnlyRow(db.sessions, HashToken(env.token, cfg.secret), db.sessions[x])
  {
  }

  lemma VouchedIsHolding(sys: Service, cache: CacheState, calls: seq<Call>, i: nat, k: nat, u: int, y: int)
    requires Lawful(calls) && i < k < |calls| && GrantedAt(sys, cache, calls, i, u)
    requires S.Vouches(Before(sys, cache, calls, k), HashToken(calls[i].env.token, sys.config.secret),
                       calls[k].env.now, y)
    ensures Holds(sys, cache, calls, i, k, u) && Before(sys, cache, calls, k).sessions[y].userId == u
  {
    var token := calls[i].env.token;
    var x :| Granted(sys.config, calls[i].env, Behind(sys, cache, calls, i), x, u);
    AfterIsSound(sys, cache, calls[..i + 1]);
    AfterIsSound(sys, cache, calls[..k]);
    GrantedIsOnlyRow(Behind(sys, cache, calls, i), sys.config, calls[i].env, x, u);
    RefreshChains.RowsBetween(sys, cache, calls, i + 1, k, token, Behind(sys, cache, calls, i).sessions[x]);
    forall j: nat | i + 1 <= j < k ensures !Revokes(calls[j], Answer(sys, Empty(cache), calls, j), token) {
      if Revokes(calls[j], Answer(sys, Empty(cache), calls, j), token) { RevokedForever(sys, cache, calls, i, j, k); }
    }
  }

  /** The service without a cache accepts a token that it handed out if and only if the user is still
      there, the TTL is not over, the token was neither refreshed nor logged out in between, and the two
      lookups work; it then names that user. */
  lemma TokenLife(sys: Service, calls: seq<Call>, i: nat, k: nat, u: int)
    requires Lawful(calls) && i < k < |calls| && GrantedAt(sys, OfNothing, calls, i, u)
    requires calls[k].op == Validate(calls[i].env.token)
    ensures var answer := Answer(sys, Empty(OfNothing), calls, k);
            && (Positive(answer) <==> calls[i].env.token != "" && Holds(sys, OfNothing, calls, i, k, u)
                                      && calls[k].env.faults !! {CheckSession, GetUserByID})
            && (Positive(answer) ==> A.Told(Before(sys, OfNothing, calls, k), u, answer.owner.value))
  {
    S.ValidateExactly(sys, OfNothing, calls, k);
    NoCacheStays(sys, calls[..k]);
    var db := Before(sys, OfNothing, calls, k);
    var h := HashToken(calls[i].env.token, sys.config.secret);
    if exists y :: S.Vouches(db, h, calls[k].env.now, y) {
      var y :| S.Vouches(db, h, calls[k].env.now, y);
      VouchedIsHolding(sys, OfNothing, calls, i, k, u, y);
    }
    if Holds(sys, OfNothing, calls, i, k, u) { HoldingIsVouched(sys, OfNothing, calls, i, k, u); }
  }

  // ---------------------------------------------------------------- on memcached

  const MEMCACHED: CacheState := OfMemcached(map[])

  lemma SameTables(sys: Service, calls: seq<Call>, k: nat)
    requires k < |calls|
    ensures Before(sys, MEMCACHED, calls, k) == Before(sys, OfNothing, calls, k)
    ensures Behind(sys, MEMCACHED, calls, k) == Behind(sys, OfNothing, calls, k)
  {
    TablesIgnoreCache(sys, MEMCACHED, OfNothing, calls[..k]);
    TablesIgnoreCache(sys, MEMCACHED, OfNothing, calls[..k + 1]);
  }

  /** Whether a token is refreshed or logged out does not depend on the cache. */
  lemma SameRevocations(sys: Service, calls: seq<Call>, j: nat, token: string)
    requires Lawful(calls) && j < |calls|
    ensures Revokes(calls[j], Answer(sys, Empty(MEMCACHED), calls, j), token)
            <==> Revokes(calls[j], Answer(sys, Empty(OfNothing), calls, j), token)
  {
    SameTables(sys, calls, j);
    if calls[j].op.Refresh? {
      S.RefreshExactly(sys, MEMCACHED, calls, j);
      S.RefreshExactly(sys, OfNothing, calls, j);
    } else if calls[j].op.Logout? {
      S.LogoutExactly(sys, MEMCACHED, calls, j);
      S.LogoutExactly(sys, OfNothing, calls, j);
    }
  }

  lemma SameHolding(sys: Service, calls: seq<Call>, i: nat, k: nat, u: int)
    requires Lawful(calls) && i < k < |calls|
    ensures GrantedAt(sys, MEMCACHED, calls, i, u) <==> GrantedAt(sys, OfNothing, calls, i, u)
    ensures Holds(sys, MEMCACHED, calls, i, k, u) <==> Holds(sys, OfNothing, calls, i, k, u)
  {
    SameTables(sys, calls, i);
    SameTables(sys, calls, k);
    forall j: nat | i + 1 <= j < k
      ensures Revokes(calls[j], Answer(sys, Empty(MEMCACHED), calls, j), calls[i].env.token)
              <==> Revokes(calls[j], Answer(sys, Empty(OfNothing), calls, j), calls[i].env.token)
    {
      SameRevocations(sys, calls, j, calls[i].env.token);
    }
  }

  /** The same on memcached, from a TTL of one second on and with invalidations that work, whatever was
      evicted and whichever other cache calls failed. */
  lemma CachedTokenLife(sys: Service, calls: seq<Call>, i: nat, k: nat, u: int)
    requires SECOND <= sys.config.ttl && Lawful(calls) && Clean(calls)
    requires i < k < |calls| && GrantedAt(sys, MEMCACHED, calls, i, u)
    requires calls[k].op == Validate(calls[i].env.token) && CheckSession !in calls[k].env.faults
    ensures var answer := Answer(sys, Empty(MEMCACHED), calls, k);
            && (Positive(answer) <==> calls[i].env.token != "" && Holds(sys, MEMCACHED, calls, i, k, u)
                                      && GetUserByID !in calls[k].env.faults)
            && (Positive(answer) ==> A.Told(Before(sys, MEMCACHED, calls, k), u, answer.owner.value))
  {
    SameHolding(sys, calls, i, k, u);
    SameTables(sys, calls, k);
    TokenLife(sys, calls, i, k, u);
    TransparentFromOneSecond(sys, calls, k);
  }

  /** The cache says until then that the token is of this user. */
  predicate Cached(c: CacheState, h: TokenHash, u: int, until: Time) {
    c.OfMemcached? && ValidityKey(h) in c.items && c.items[ValidityKey(h)] == Item(Validity(u), until)
  }

  lemma CacheAfterKeeps(cfg: O.Config, c: CacheState, spent: Option<TokenHash>, added: Option<Session>, env: O.Env,
                        h: TokenHash, u: int, until: Time)
    requires Cached(c, h, u, until) && spent != Some(h) && (added.Some? ==> added.value.tokenHash != h)
    ensures Cached(CacheAfter(cfg, c, spent, added, env), h, u, until)
  {
  }

  /** Neither evictions of other keys nor what happens to other tokens touches the entry. */
  lemma StepKeepsEntry(sys: Service, s: O.State, c: Call, token: string, u: int, until: Time)
    requires Wf(s.db) && Cached(s.cache, HashToken(token, sys.config.secret), u, until)
    requires !Revokes(c, sys.step(s, c).1, token) && c.env.token != token
    requires c.op != Evict(ValidityKey(HashToken(token, sys.config.secret)))
    ensures Cached(sys.step(s, c).0.cache, HashToken(token, sys.config.secret), u, until)
  {
    var h := HashToken(token, sys.config.secret);
    if Spent(sys.config, s, c) == Some(h) { SpentIsRevoked(sys, s, c, token); }
    if HashToken(c.env.token, sys.config.secret) == h { HashTokenInjective(c.env.token, token, sys.config.secret); }
    StepIs(sys, s, c);
    ApplyEffect(sys.config, s, c);
    if !c.op.Evict? {
      CacheAfterKeeps(sys.config, s.cache, Spent(sys.config, s, c), Added(sys.config, s, c), c.env, h, u, until);
    }
  }

  /** The entry of the token is not evicted in between. */
  predicate Unevicted(calls: seq<Call>, m: nat, n: nat, h: TokenHash)
    requires n <= |calls|
  {
    forall j :: m <= j < n ==> calls[j].op != Evict(ValidityKey(h))
  }

  lemma {:induction false} EntryStays(sys: Service, calls: seq<Call>, m: nat, n: nat, token: string, u: int,
                                      until: Time)
    requires m <= n <= |calls| && Unrevoked(sys, MEMCACHED, calls, m, n, token)
    requires Unevicted(calls, m, n, HashToken(token, sys.config.secret))
    requires forall j :: m <= j < n ==> calls[j].env.token != token
    requires Cached(After(sys, Empty(MEMCACHED), calls[..m]).cache, HashToken(token, sys.config.secret), u, until)
    ensures Cached(After(sys, Empty(MEMCACHED), calls[..n]).cache, HashToken(token, sys.config.secret), u, until)
  {
    if m < n {
      EntryStays(sys, calls, m, n - 1, token, u, until);
      AfterIsSound(sys, MEMCACHED, calls[..n - 1]);
      AfterNext(sys, Empty(MEMCACHED), calls, n - 1);
      StepKeepsEntry(sys, After(sys, Empty(MEMCACHED), calls[..n - 1]), calls[n - 1], token, u, until);
    }
  }

  lemma AddedIsCached(cfg: O.Config, s: O.State, c: Call, t: O.State, x: int, u: int)
    requires s.cache.OfMemcached? && !c.op.Evict? && Effect(cfg, s, c, t)
    requires !TokenHashTaken(s.db, HashToken(c.env.token, cfg.secret)) && Granted(cfg, c.env, t.db, x, u)
    requires c.env.faults !! {CacheSetSession, CacheSetValidity}
    ensures Cached(t.cache, HashToken(c.env.token, cfg.secret), u, EntryExpiry(c.env.now, cfg.ttl))
  {
    assert Added(cfg, s, c) == Some(t.db.sessions[x]);
  }

  lemma GrantIsCached(sys: Service, calls: seq<Call>, i: nat, u: int)
    requires Lawful(calls) && GrantedAt(sys, MEMCACHED, calls, i, u)
    requires calls[i].env.faults !! {CacheSetSession, CacheSetValidity}
    ensures Cached(After(sys, Empty(MEMCACHED), calls[..i + 1]).cache,
                   HashToken(calls[i].env.token, sys.config.secret), u, EntryExpiry(calls[i].env.now, sys.config.ttl))
  {
    var s, c := After(sys, Empty(MEMCACHED), calls[..i]), calls[i];
    CallIsSound(sys, MEMCACHED, calls, i);
    StepIs(sys, s, c);
    ApplyEffect(sys.config, s, c);
    StaysMemcached(sys, calls[..i]);
    var x :| Granted(sys.config, c.env, Behind(sys, MEMCACHED, calls, i), x, u);
    assert !c.op.Evict?;
    AddedIsCached(sys.config, s, c, After(sys, Empty(MEMCACHED), calls[..i + 1]), x, u);
  }

  lemma {:induction false} StaysMemcached(sys: Service, calls: seq<Call>)
    ensures After(sys, Empty(MEMCACHED), calls).cache.OfMemcached?
  {
    if calls != [] {
      var n := |calls| - 1;
      StaysMemcached(sys, calls[..n]);
      AfterIsSound(sys, MEMCACHED, calls[..n]);
      StepIs(sys, After(sys, Empty(MEMCACHED), calls[..n]), calls[n]);
      ApplyEffect(sys.config, After(sys, Empty(MEMCACHED), calls[..n]), calls[n]);
    }
  }

  /** What the cache is there for: once both of its entries are stored, it answers for the token without
      the session table, until the entry runs out, is evicted or the token is revoked; whatever happens
      to all other tokens. */
  lemma ServedFromCache(sys: Service, calls: seq<Call>, i: nat, k: nat, u: int)
    requires Lawful(calls) && i < k < |calls| && GrantedAt(sys, MEMCACHED, calls, i, u)
    requires calls[k].op == Validate(calls[i].env.token) && calls[i].env.token != ""
    requires calls[i].env.faults !! {CacheSetSession, CacheSetValidity}
    requires calls[k].env.faults !! {CacheGet, GetUserByID}
    requires calls[k].env.now < EntryExpiry(calls[i].env.now, sys.config.ttl)
    requires Unrevoked(sys, MEMCACHED, calls, i + 1, k, calls[i].env.token)
    requires Unevicted(calls, i + 1, k, HashToken(calls[i].env.token, sys.config.secret))
    requires u in Before(sys, MEMCACHED, calls, k).users
    ensures var answer := Answer(sys, Empty(MEMCACHED), calls, k);
            Positive(answer) && A.Told(Before(sys, MEMCACHED, calls, k), u, answer.owner.value)
  {
    GrantIsCached(sys, calls, i, u);
    EntryStays(sys, calls, i + 1, k, calls[i].env.token, u, EntryExpiry(calls[i].env.now, sys.config.ttl));
    S.ValidateExactly(sys, MEMCACHED, calls, k);
    assert S.Hit(After(sys, Empty(MEMCACHED), calls[..k]).cache, HashToken(calls[i].env.token, sys.config.secret),
                 calls[k].env, u);
  }

  /** An eviction takes exactly the entry of its key, and leaves the tables alone. */
  lemma EvictionExactly(sys: Service, calls: seq<Call>, j: nat)
    requires j < |calls| && calls[j].op.Evict?
    ensures var s, t := After(sys, Empty(MEMCACHED), calls[..j]), After(sys, Empty(MEMCACHED), calls[..j + 1]);
            && s.cache.OfMemcached? && t.cache.OfMemcached? && t.db == s.db
            && (forall k :: k in t.cache.items <==> k in s.cache.items && k != calls[j].op.cacheKey)
            && (forall k :: k in t.cache.items ==> t.cache.items[k] == s.cache.items[k])
  {
    StaysMemcached(sys, calls[..j]);
    AfterNext(sys, Empty(MEMCACHED), calls, j);
    StepIs(sys, After(sys, Empty(MEMCACHED), calls[..j]), calls[j]);
  }
}
