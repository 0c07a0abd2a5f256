/** Chains of refreshes inside a run: one row that keeps its identity while its tokens follow each
    other. */
module RefreshChains {
  import opened Domain
  import opened Tables
  import opened CacheStates
  import opened Runs
  import opened CacheAgreement
  import O = Operations

  // ---------------------------------------------------------------- one refresh

  /** The ids of the user's undeleted rows. */
  ghost function LiveIds(db: Store, uid: int): set<int> {
    set i | i in db.sessions && db.sessions[i].deletedAt == None && db.sessions[i].userId == uid
  }

  /** A successful refresh rewrites the live row of the token in place and touches nothing else. */
  lemma RefreshRewrites(cfg: O.Config, s: O.State, token: string, env: O.Env)
    requires Wf(s.db) && !TokenHashTaken(s.db, HashToken(env.token, cfg.secret))
    requires O.Refresh(cfg, s, token, env).1.Refreshed?
    ensures var found := LiveSession(s.db, HashToken(token, cfg.secret));
            && found.Some? && env.now <= found.value.expiresAt
            && found.value.id in s.db.sessions && s.db.sessions[found.value.id] == found.value
            && O.Refresh(cfg, s, token, env).0.db
               == s.db.(sessions := s.db.sessions[found.value.id := O.Renewed(cfg, found.value, env)])
  {
  }

  /** The user's rows are the same ones, and as many, after a refresh. */
  lemma RefreshKeepsCount(cfg: O.Config, s: O.State, token: string, env: O.Env, uid: int)
    requires Wf(s.db) && !TokenHashTaken(s.db, HashToken(env.token, cfg.secret))
    requires O.Refresh(cfg, s, token, env).1.Refreshed?
    ensures LiveIds(O.Refresh(cfg, s, token, env).0.db, uid) == LiveIds(s.db, uid)
    ensures |LiveIds(O.Refresh(cfg, s, token, env).0.db, uid)| == |LiveIds(s.db, uid)|
  {
    RefreshRewrites(cfg, s, token, env);
  }

  // ---------------------------------------------------------------- tokens between calls

  /** No undeleted row has the token. */
  ghost predicate NoRow(sessions: map<int, Session>, h: TokenHash) {
    forall i :: i in sessions ==> !IsLiveSession(sessions[i], h)
  }

  /** Only this row, just as it is, can be live under the token. */
  ghost predicate OnlyRow(sessions: map<int, Session>, h: TokenHash, row: Session) {
    forall i :: i in sessions && IsLiveSession(sessions[i], h) ==> sessions[i] == row
  }

  /** Rows that are live after a call were there before it, or are new rows for the token it drew. */
  ghost predicate OldOrDrawn(a: Store, b: Store, h: TokenHash, latest: Time) {
    forall i :: i in b.sessions && b.sessions[i].deletedAt == None ==>
      || (i in a.sessions && a.sessions[i] == b.sessions[i])
      || (b.sessions[i].tokenHash == h && b.sessions[i].expiresAt == latest)
  }

  lemma StepRowsOnly(sys: Service, s: O.State, c: Call)
    requires Wf(s.db)
    ensures OldOrDrawn(s.db, sys.step(s, c).0.db, HashToken(c.env.token, sys.config.secret), c.env.now + sys.config.ttl)
  {
    StepIs(sys, s, c);
    CallRowsOnly(sys.config, s, c);
  }

  lemma CallRowsOnly(cfg: O.Config, s: O.State, c: Call)
    requires Wf(s.db)
    ensures OldOrDrawn(s.db, Apply(cfg, s, c).0.db, HashToken(c.env.token, cfg.secret), c.env.now + cfg.ttl)
  {
    ApplyEffect(cfg, s, c);
    EffectRowsOnly(cfg, s, c, Apply(cfg, s, c).0);
  }

  lemma EffectRowsOnly(cfg: O.Config, s: O.State, c: Call, t: O.State)
    requires Effect(cfg, s, c, t)
    ensures OldOrDrawn(s.db, t.db, HashToken(c.env.token, cfg.secret), c.env.now + cfg.ttl)
  {
  }

  lemma RowsOfOtherTokens(sys: Service, s: O.State, c: Call, h: TokenHash, row: Session)
    requires Wf(s.db) && HashToken(c.env.token, sys.config.secret) != h
    ensures NoRow(s.db.sessions, h) ==> NoRow(sys.step(s, c).0.db.sessions, h)
    ensures OnlyRow(s.db.sessions, h, row) ==> OnlyRow(sys.step(s, c).0.db.sessions, h, row)
  {
    StepRowsOnly(sys, s, c);
  }

  /** Only the call that draws a token makes a row for it. */
  lemma {:induction false} RowsBetween(sys: Service, cache: CacheState, calls: seq<Call>, m: nat, n: nat,
                                       token: string, row: Session)
    requires m <= n <= |calls| && forall k :: m <= k < n ==> calls[k].env.token != token
    ensures var h := HashToken(token, sys.config.secret);
            var (a, b) := (After(sys, Empty(cache), calls[..m]).db.sessions,
                           After(sys, Empty(cache), calls[..n]).db.sessions);
            && (NoRow(a, h) ==> NoRow(b, h))
            && (OnlyRow(a, h, row) ==> OnlyRow(b, h, row))
  {
    if m < n {
      RowsBetween(sys, cache, calls, m, n - 1, token, row);
      AfterIsSound(sys, cache, calls[..n - 1]);
      AfterNext(sys, Empty(cache), calls, n - 1);
      if HashToken(calls[n - 1].env.token, sys.config.secret) == HashToken(token, sys.config.secret) {
        HashTokenInjective(calls[n - 1].env.token, token, sys.config.secret);
      }
      RowsOfOtherTokens(sys, After(sys, Empty(cache), calls[..n - 1]), calls[n - 1],
                        HashToken(token, sys.config.secret), row);
    }
  }

  /** No live row expires later than a row made at the last call would. */
  ghost predicate WithinTtl(sessions: map<int, Session>, latest: Time) {
    forall i :: i in sessions && sessions[i].deletedAt == None ==> sessions[i].expiresAt <= latest
  }

  lemma {:induction false} AllWithinTtl(sys: Service, cache: CacheState, calls: seq<Call>)
    requires Lawful(calls)
    ensures WithinTtl(After(sys, Empty(cache), calls).db.sessions, LastTime(calls) + sys.config.ttl)
  {
    if calls != [] {
      var n := |calls| - 1;
      AllWithinTtl(sys, cache, calls[..n]);
      AfterIsSound(sys, cache, calls[..n]);
      StepRowsOnly(sys, After(sys, Empty(cache), calls[..n]), calls[n]);
    }
  }

  // ---------------------------------------------------------------- chains

  ghost predicate RefreshedAt(sys: Service, cache: CacheState, calls: seq<Call>, k: nat) {
    k < |calls| && calls[k].op.Refresh? && Answer(sys, Empty(cache), calls, k).Refreshed?
  }

  /** Calls of the run that succeed in refreshing, each the token that the one before handed out. */
  ghost predicate Chain(sys: Service, cache: CacheState, calls: seq<Call>, ks: seq<nat>) {
    && (forall n :: 0 <= n < |ks| ==> RefreshedAt(sys, cache, calls, ks[n]))
    && (forall n :: 0 < n < |ks| ==> ks[n - 1] < ks[n] && calls[ks[n]].op.token == calls[ks[n - 1]].env.token)
  }

  /** The row that the refresh at call k found. */
  ghost function FoundAt(sys: Service, cache: CacheState, calls: seq<Call>, k: nat): Session
    requires k < |calls| && calls[k].op.Refresh?
  {
    var found := LiveSession(After(sys, Empty(cache), calls[..k]).db, HashToken(calls[k].op.token, sys.config.secret));
    if found.Some? then found.value else Session(0, 0, HashToken("", ""), 0, None, 0)
  }

  lemma RefreshRows(cfg: O.Config, s: O.State, token: string, env: O.Env)
    requires Wf(s.db) && !TokenHashTaken(s.db, HashToken(env.token, cfg.secret))
    requires O.Refresh(cfg, s, token, env).1.Refreshed?
    ensures var (a, b) := (s.db.sessions, O.Refresh(cfg, s, token, env).0.db.sessions);
            var (old', new') := (HashToken(token, cfg.secret), HashToken(env.token, cfg.secret));
            && NoRow(a, new') && NoRow(b, old')
            && OnlyRow(b, new', O.Renewed(cfg, LiveSession(s.db, old').value, env))
  {
    RefreshRewrites(cfg, s, token, env);
  }

  lemma RefreshIsFresh(sys: Service, cache: CacheState, calls: seq<Call>, k: nat)
    requires Lawful(calls) && k < |calls|
    ensures var db := After(sys, Empty(cache), calls[..k]).db;
            Wf(db) && !TokenHashTaken(db, HashToken(calls[k].env.token, sys.config.secret))
  {
    AfterIsSound(sys, cache, calls[..k]);
    assert calls[..k] + [calls[k]] == calls[..k + 1];
    NextIsFresh(sys, cache, calls[..k], calls[k]);
  }

  lemma StepRefreshes(sys: Service, s: O.State, c: Call)
    requires c.op.Refresh?
    ensures sys.step(s, c) == O.Refresh(sys.config, s, c.op.token, c.env)
  {
    StepIs(sys, s, c);
  }

  /** What a refresh inside a run finds. */
  lemma RefreshFinds(sys: Service, cache: CacheState, calls: seq<Call>, k: nat)
    requires Lawful(calls) && RefreshedAt(sys, cache, calls, k)
    ensures var a := After(sys, Empty(cache), calls[..k]).db;
            var row := FoundAt(sys, cache, calls, k);
            && LiveSession(a, HashToken(calls[k].op.token, sys.config.secret)) == Some(row)
            && row.expiresAt <= LastTime(calls[..k]) + sys.config.ttl
  {
    RefreshIsFresh(sys, cache, calls, k);
    AllWithinTtl(sys, cache, calls[..k]);
    var s := After(sys, Empty(cache), calls[..k]);
    StepRefreshes(sys, s, calls[k]);
    RefreshRewrites(sys.config, s, calls[k].op.token, calls[k].env);
  }

  /** What it leaves behind. */
  lemma RefreshLeaves(sys: Service, cache: CacheState, calls: seq<Call>, k: nat)
    requires Lawful(calls) && RefreshedAt(sys, cache, calls, k)
    ensures var b := After(sys, Empty(cache), calls[..k + 1]).db.sessions;
            && NoRow(b, HashToken(calls[k].op.token, sys.config.secret))
            && OnlyRow(b, HashToken(calls[k].env.token, sys.config.secret),
                       O.Renewed(sys.config, FoundAt(sys, cache, calls, k), calls[k].env))
  {
    RefreshIsFresh(sys, cache, calls, k);
    AfterNext(sys, Empty(cache), calls, k);
    RefreshFinds(sys, cache, calls, k);
    var s := After(sys, Empty(cache), calls[..k]);
    StepRefreshes(sys, s, calls[k]);
    RefreshRows(sys.config, s, calls[k].op.token, calls[k].env);
  }

  /** A chain finds, link by link, exactly the row that the link before left behind. */
  lemma NextLink(sys: Service, cache: CacheState, calls: seq<Call>, j: nat, k: nat)
    requires Lawful(calls) && j < k && RefreshedAt(sys, cache, calls, j) && RefreshedAt(sys, cache, calls, k)
    requires calls[k].op.token == calls[j].env.token
    ensures FoundAt(sys, cache, calls, k) == O.Renewed(sys.config, FoundAt(sys, cache, calls, j), calls[j].env)
  {
    RefreshLeaves(sys, cache, calls, j);
    RefreshFinds(sys, cache, calls, k);
    RowsBetween(sys, cache, calls, j + 1, k, calls[j].env.token,
                O.Renewed(sys.config, FoundAt(sys, cache, calls, j), calls[j].env));
  }

  /** Along a chain, whatever other calls stand between its links, the row keeps its id, its user
      and its creation time, and its expiry never moves back. */
  lemma {:induction false} ChainConserves(sys: Service, cache: CacheState, calls: seq<Call>, ks: seq<nat>, m: nat,
                                          n: nat)
    requires Lawful(calls) && Chain(sys, cache, calls, ks) && m <= n < |ks|
    ensures var (r, q) := (FoundAt(sys, cache, calls, ks[m]), FoundAt(sys, cache, calls, ks[n]));
            && q.id == r.id && q.userId == r.userId && q.createdAt == r.createdAt
            && r.expiresAt <= q.expiresAt <= calls[ks[n]].env.now + sys.config.ttl
  {
    RefreshFinds(sys, cache, calls, ks[n]);
    if m < n {
      ChainConserves(sys, cache, calls, ks, m, n - 1);
      NextLink(sys, cache, calls, ks[n - 1], ks[n]);
    }
  }

  /** Token n of a chain: the one the first refresh was given, then each one handed out. */
  ghost function TokenOf(calls: seq<Call>, ks: seq<nat>, n: nat): string
    requires 0 < |ks| && n <= |ks| && forall i :: 0 <= i < |ks| ==> ks[i] < |calls| && calls[ks[i]].op.Refresh?
  {
    if n == 0 then calls[ks[0]].op.token else calls[ks[n - 1]].env.token
  }

  lemma {:induction false} ChainGrows(sys: Service, cache: CacheState, calls: seq<Call>, ks: seq<nat>, m: nat, n: nat)
    requires Chain(sys, cache, calls, ks) && m <= n < |ks|
    ensures ks[m] <= ks[n]
  {
    if m < n { ChainGrows(sys, cache, calls, ks, m, n - 1); }
  }

  /** A token of a chain has a live row only after it was handed out and before it was refreshed. */
  lemma TokenWindow(sys: Service, cache: CacheState, calls: seq<Call>, ks: seq<nat>, n: nat, t: nat)
    requires Lawful(calls) && Chain(sys, cache, calls, ks) && 0 < |ks| && n <= |ks| && t <= |calls|
    requires !NoRow(After(sys, Empty(cache), calls[..t]).db.sessions,
                    HashToken(TokenOf(calls, ks, n), sys.config.secret))
    ensures n > 0 ==> ks[n - 1] < t
    ensures n < |ks| ==> t <= ks[n]
  {
    if n > 0 && t <= ks[n - 1] { NotBeforeDrawn(sys, cache, calls, ks[n - 1], t); }
    if n < |ks| && t > ks[n] {
      assert TokenOf(calls, ks, n) == calls[ks[n]].op.token;
      NotAfterRefresh(sys, cache, calls, ks[n], t);
    }
  }

  lemma NotBeforeDrawn(sys: Service, cache: CacheState, calls: seq<Call>, k: nat, t: nat)
    requires Lawful(calls) && t <= k < |calls|
    ensures NoRow(After(sys, Empty(cache), calls[..t]).db.sessions, HashToken(calls[k].env.token, sys.config.secret))
  {
    assert Lawful(calls[..t] + [calls[k]]);
    NextIsFresh(sys, cache, calls[..t], calls[k]);
  }

  lemma NotRedrawn(sys: Service, cache: CacheState, calls: seq<Call>, k: nat, j: nat)
    requires Lawful(calls) && RefreshedAt(sys, cache, calls, k) && k <= j < |calls|
    ensures calls[j].env.token != calls[k].op.token
  {
    if calls[j].env.token == calls[k].op.token {
      RefreshFinds(sys, cache, calls, k);
      NotBeforeDrawn(sys, cache, calls, j, k);
    }
  }

  lemma NotAfterRefresh(sys: Service, cache: CacheState, calls: seq<Call>, k: nat, t: nat)
    requires Lawful(calls) && RefreshedAt(sys, cache, calls, k) && k < t <= |calls|
    ensures NoRow(After(sys, Empty(cache), calls[..t]).db.sessions, HashToken(calls[k].op.token, sys.config.secret))
  {
    RefreshLeaves(sys, cache, calls, k);
    var token := calls[k].op.token;
    forall j | k <= j < t ensures calls[j].env.token != token {
      NotRedrawn(sys, cache, calls, k, j);
    }
    RowsBetween(sys, cache, calls, k + 1, t, token, FoundAt(sys, cache, calls, k));
  }

  /** A token refreshed at call j and one drawn at call k, not earlier, are never live together. */
  lemma RefreshedOrUndrawn(sys: Service, cache: CacheState, calls: seq<Call>, j: nat, k: nat, t: nat)
    requires Lawful(calls) && RefreshedAt(sys, cache, calls, j) && j <= k < |calls| && t <= |calls|
    ensures var sessions := After(sys, Empty(cache), calls[..t]).db.sessions;
            || NoRow(sessions, HashToken(calls[j].op.token, sys.config.secret))
            || NoRow(sessions, HashToken(calls[k].env.token, sys.config.secret))
  {
    if t <= k { NotBeforeDrawn(sys, cache, calls, k, t); }
    else { NotAfterRefresh(sys, cache, calls, j, t); }
  }

  /** At no point of the run do two tokens of a chain have a live row. */
  lemma OneTokenAtATime(sys: Service, cache: CacheState, calls: seq<Call>, ks: seq<nat>, m: nat, n: nat, t: nat)
    requires Lawful(calls) && Chain(sys, cache, calls, ks) && 0 < |ks| && m < n <= |ks| && t <= |calls|
    ensures var sessions := After(sys, Empty(cache), calls[..t]).db.sessions;
            || NoRow(sessions, HashToken(TokenOf(calls, ks, m), sys.config.secret))
            || NoRow(sessions, HashToken(TokenOf(calls, ks, n), sys.config.secret))
  {
    ChainGrows(sys, cache, calls, ks, m, n - 1);
    RefreshedOrUndrawn(sys, cache, calls, ks[m], ks[n - 1], t);
    assert TokenOf(calls, ks, m) == calls[ks[m]].op.token;
  }
}
