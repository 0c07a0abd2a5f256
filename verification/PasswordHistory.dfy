/** Which password logs a user in: the last one written, told from the run alone. */
module PasswordHistory {
  import opened Domain
  import opened Tables
  import opened CacheStates
  import opened Runs
  import O = Operations
  import Usernames

  /** The call gets as far as storing the password. */
  ghost predicate Resets(a: Store, c: Call, uid: int)
    requires c.op.Reset?
  {
    && O.CheckResetOtp(a, c.op.otpHash, c.op.code, c.env) == Ok(uid)
    && Hashing !in c.env.faults && UpdatePassword !in c.env.faults
  }

  /** What a call from tables `a` to tables `b` sets as the password of the user: Signup and
      ResetPassword a text, the provider login of a new user nothing that could be typed in. */
  ghost function Written(a: Store, c: Call, b: Store, uid: int): Option<Digest> {
    var created := uid !in a.users && uid in b.users;
    if c.op.Signup? then if created then Some(Bcrypt(c.op.password)) else None
    else if c.op.Exchange? then if created then Some(Blank) else None
    else if c.op.Reset? && Resets(a, c, uid) then Some(Bcrypt(c.op.password))
    else None
  }

  ghost function WrittenAt(sys: Service, cache: CacheState, calls: seq<Call>, k: nat, uid: int): Option<Digest>
    requires k < |calls|
  {
    Written(After(sys, Empty(cache), calls[..k]).db, calls[k], After(sys, Empty(cache), calls[..k + 1]).db, uid)
  }

  /** What each call of a run wrote for the user. */
  ghost function Writes(sys: Service, cache: CacheState, calls: seq<Call>, uid: int): (r: seq<Option<Digest>>)
    ensures |r| == |calls| && forall k :: 0 <= k < |calls| ==> r[k] == WrittenAt(sys, cache, calls, k, uid)
  {
    seq(|calls|, k requires 0 <= k < |calls| => WrittenAt(sys, cache, calls, k, uid))
  }

  function LastOf(writes: seq<Option<Digest>>): Option<Digest> {
    if writes == [] then None
    else if writes[|writes| - 1].Some? then writes[|writes| - 1]
    else LastOf(writes[..|writes| - 1])
  }

  /** The digest a run wrote last for the user. */
  ghost function LastWritten(sys: Service, cache: CacheState, calls: seq<Call>, uid: int): Option<Digest> {
    LastOf(Writes(sys, cache, calls, uid))
  }

  /** Entry j is a write and nothing is written after it. */
  predicate IsLast(writes: seq<Option<Digest>>, j: nat) {
    j < |writes| && writes[j].Some? && forall m :: j < m < |writes| ==> writes[m].None?
  }

  lemma {:induction false} LastOfAt(writes: seq<Option<Digest>>, i: nat)
    requires i < |writes| && writes[i].Some?
    ensures exists j: nat :: i <= j < |writes| && IsLast(writes, j) && writes[j] == LastOf(writes)
  {
    var n := |writes| - 1;
    if writes[n].None? {
      LastOfAt(writes[..n], i);
      var j: nat :| i <= j < n && IsLast(writes[..n], j) && writes[..n][j] == LastOf(writes[..n]);
      assert forall m :: j < m < n ==> writes[m] == writes[..n][m];
      assert IsLast(writes, j) && writes[j] == LastOf(writes);
    } else {
      assert IsLast(writes, n);
    }
  }

  lemma WritesPrefix(sys: Service, cache: CacheState, calls: seq<Call>, n: nat, uid: int)
    requires n <= |calls|
    ensures Writes(sys, cache, calls[..n], uid) == Writes(sys, cache, calls, uid)[..n]
  {
    forall k | 0 <= k < n ensures WrittenAt(sys, cache, calls[..n], k, uid) == WrittenAt(sys, cache, calls, k, uid) {
      assert calls[..n][..k] == calls[..k] && calls[..n][..k + 1] == calls[..k + 1];
    }
  }

  // ---------------------------------------------------------------- one call

  /** Every user of the later tables has the digest just written, or the one it had. */
  ghost predicate CredentialsFollow(a: Store, c: Call, b: Store) {
    forall u :: u in b.users ==>
      && u in b.credentials
      && var w := Written(a, c, b, u);
         if w.Some? then b.credentials[u] == w.value
         else u in a.users && u in a.credentials && b.credentials[u] == a.credentials[u]
  }

  /** The tables as they were, or with the row of CreateUser. */
  ghost predicate MaybeCreated(a: Store, email: string, password: string, env: O.Env, b: Store) {
    var db := CreateUser(a, email, None, false, Bcrypt(password), env.now, env.faults).0;
    (b.users == a.users && b.credentials == a.credentials) || (b.users == db.users && b.credentials == db.credentials)
  }

  lemma SignupCreates(cfg: O.Config, db: Store, email: string, password: string, env: O.Env)
    ensures MaybeCreated(db, email, password, env, O.Signup(cfg, db, email, password, env).0)
  {
    var (db', uid) := CreateUser(db, email, None, false, Bcrypt(password), env.now, env.faults);
    if uid.Some? {
      var t := O.Issue(cfg, db', uid.value, SignupVerification, env).0;
      assert t.users == db'.users && t.credentials == db'.credentials;
    }
  }

  lemma SignupWrites(cfg: O.Config, db: Store, c: Call)
    requires Wf(db) && c.op.Signup?
    ensures CredentialsFollow(db, c, O.Signup(cfg, db, c.op.email, c.op.password, c.env).0)
  {
    SignupCreates(cfg, db, c.op.email, c.op.password, c.env);
    NewUserFollows(db, c, O.Signup(cfg, db, c.op.email, c.op.password, c.env).0);
  }

  lemma NewUserFollows(a: Store, c: Call, b: Store)
    requires Wf(a) && c.op.Signup? && MaybeCreated(a, c.op.email, c.op.password, c.env, b)
    ensures CredentialsFollow(a, c, b)
  {
  }

  lemma ExchangeWrites(cfg: O.Config, s: O.State, c: Call)
    requires Wf(s.db) && c.op.Exchange?
    ensures CredentialsFollow(s.db, c, O.Exchange(cfg, s, c.op.key, c.op.email, c.env).0.db)
  {
    ProviderWrites(s.db, c.op.key, c.op.email, c.env);
    var (db, admitted) := O.AdmitByProvider(s.db, c.op.key, c.op.email, c.env);
    OpeningApart(cfg, s, db, admitted, c.env);
    BlankFollows(s.db, c, O.OpenFor(cfg, s, db, admitted, c.env).0.db);
  }

  lemma BlankFollows(a: Store, c: Call, b: Store)
    requires c.op.Exchange? && Wf(a) && BlankForNew(a.credentials, b.users, b.credentials)
    ensures CredentialsFollow(a, c, b)
  {
  }

  /** Opening the session afterwards concerns neither users nor credentials. */
  lemma OpeningApart(cfg: O.Config, s: O.State, db: Store, admitted: Result<int>, env: O.Env)
    ensures var t := O.OpenFor(cfg, s, db, admitted, env).0.db; t.users == db.users && t.credentials == db.credentials
  {
  }

  /** Users that are new have the blank digest, the others the one they had. */
  ghost predicate BlankForNew(a: map<int, Digest>, users: map<int, User>, b: map<int, Digest>) {
    && users.Keys == b.Keys && a.Keys <= b.Keys
    && forall u :: u in users ==> b[u] == if u in a then a[u] else Blank
  }

  lemma ProviderWrites(db: Store, key: LinkKey, email: string, env: O.Env)
    requires Wf(db)
    ensures var t := O.AdmitByProvider(db, key, email, env).0; BlankForNew(db.credentials, t.users, t.credentials)
  {
    var touched := TouchLink(db, key, env.now, UpdateLinkLastLogin !in env.faults);
    assert BlankForNew(db.credentials, db.users, db.credentials);
    var name := O.PickName(db, email, env.draws, Usernames.MAX_TRIES);
    if name.Some? {
      EnrolWrites(db, key, email, name.value, env);
      assert O.AdmitByProvider(db, key, email, env).0 in {db, touched, O.Enrol(db, key, email, name.value, env).0};
    }
  }

  lemma EnrolWrites(db: Store, key: LinkKey, email: string, name: string, env: O.Env)
    requires Wf(db)
    ensures var t := O.Enrol(db, key, email, name, env).0; BlankForNew(db.credentials, t.users, t.credentials)
  {
    var t := CreateUser(db, email, Some(name), true, Blank, env.now, env.faults).0;
    var r := O.Enrol(db, key, email, name, env).0;
    assert BlankForNew(db.credentials, t.users, t.credentials);
    assert r.users == t.users && r.credentials == t.credentials;
  }

  lemma ResetWrites(db: Store, c: Call)
    requires Wf(db) && c.op.Reset?
    ensures CredentialsFollow(db, c, O.Reset(db, c.op.otpHash, c.op.code, c.op.password, c.env).0)
  {
    var uid := O.CheckResetOtp(db, c.op.otpHash, c.op.code, c.env);
    if uid.Ok? { StoreWrites(db, c.op.otpHash, uid.value, c.op.password, c.env); }
  }

  lemma StoreWrites(db: Store, otpHash: string, uid: int, password: string, env: O.Env)
    requires Wf(db)
    ensures var t := O.StorePassword(db, otpHash, uid, password, env).0;
            && t.users == db.users
            && t.credentials == if Hashing !in env.faults && UpdatePassword !in env.faults && uid in db.credentials
                                then db.credentials[uid := Bcrypt(password)] else db.credentials
  {
  }

  /** The call leaves the credentials alone, and no user comes or goes. */
  ghost predicate NothingWritten(a: Store, b: Store) {
    b.credentials == a.credentials && b.users.Keys == a.users.Keys
  }

  lemma ForgotWritesNothing(cfg: O.Config, db: Store, email: string, env: O.Env)
    ensures NothingWritten(db, O.ForgotPassword(cfg, db, email, env).0)
  {
  }

  lemma CleanupWritesNothing(db: Store, env: O.Env)
    ensures NothingWritten(db, O.Cleanup(db, env))
  {
  }

  lemma LoginWritesNothing(cfg: O.Config, s: O.State, email: string, password: string, env: O.Env)
    ensures NothingWritten(s.db, O.Login(cfg, s, email, password, env).0.db)
  {
    var (db, admitted) := O.AdmitByPassword(s.db, email, password, env);
    assert NothingWritten(s.db, db);
    OpeningApart(cfg, s, db, admitted, env);
  }

  lemma AdmissionWritesNothing(db: Store, otpHash: string, code: string, env: O.Env)
    ensures NothingWritten(db, O.AdmitByOtp(db, otpHash, code, env).0)
  {
  }

  lemma VerifyWritesNothing(cfg: O.Config, s: O.State, otpHash: string, code: string, env: O.Env)
    ensures NothingWritten(s.db, O.VerifyOtp(cfg, s, otpHash, code, env).0.db)
  {
    AdmissionWritesNothing(s.db, otpHash, code, env);
    var (db, admitted) := O.AdmitByOtp(s.db, otpHash, code, env);
    if admitted.Ok? { SessionWritesNothing(cfg, s.(db := db), admitted.value.0, env); }
  }

  lemma SessionWritesNothing(cfg: O.Config, s: O.State, uid: int, env: O.Env)
    ensures NothingWritten(s.db, O.OpenSession(cfg, s, uid, env).0.db)
  {
  }

  lemma RefreshWritesNothing(cfg: O.Config, s: O.State, token: string, env: O.Env)
    ensures NothingWritten(s.db, O.Refresh(cfg, s, token, env).0.db)
  {
  }

  lemma LogoutWritesNothing(cfg: O.Config, s: O.State, token: string, env: O.Env)
    ensures NothingWritten(s.db, O.Logout(cfg, s, token, env).0.db)
  {
  }

  lemma DeleteWrites(db: Store, c: Call)
    requires Wf(db) && c.op.Delete?
    ensures CredentialsFollow(db, c, O.DeleteUser(db, c.op.uid, c.env).0)
  {
  }

  lemma NothingFollows(a: Store, c: Call, b: Store)
    requires Wf(a) && !c.op.Reset? && NothingWritten(a, b)
    ensures CredentialsFollow(a, c, b)
  {
  }

  lemma SessionStepWritesNothing(sys: Service, s: O.State, c: Call)
    requires OnSessions(c.op) && !c.op.Exchange?
    ensures NothingWritten(s.db, sys.step(s, c).0.db)
  {
    StepIs(sys, s, c);
    if c.op.VerifyOtp? { VerifyWritesNothing(sys.config, s, c.op.otpHash, c.op.code, c.env); }
    else if c.op.Login? { LoginWritesNothing(sys.config, s, c.op.email, c.op.password, c.env); }
    else if c.op.Refresh? { RefreshWritesNothing(sys.config, s, c.op.token, c.env); }
    else { LogoutWritesNothing(sys.config, s, c.op.token, c.env); }
  }

  lemma OtherStepWritesNothing(sys: Service, s: O.State, c: Call)
    requires !OnSessions(c.op) && !c.op.Signup? && !c.op.Reset? && !c.op.Delete?
    ensures NothingWritten(s.db, sys.step(s, c).0.db)
  {
    StepIs(sys, s, c);
    if c.op.Forgot? { ForgotWritesNothing(sys.config, s.db, c.op.email, c.env); }
    else if c.op.Cleanup? { CleanupWritesNothing(s.db, c.env); }
    else { assert sys.step(s, c).0.db == s.db; }
  }

  lemma StepWrites(sys: Service, s: O.State, c: Call)
    requires Wf(s.db)
    ensures CredentialsFollow(s.db, c, sys.step(s, c).0.db)
  {
    StepIs(sys, s, c);
    if c.op.Signup? { SignupWrites(sys.config, s.db, c); }
    else if c.op.Exchange? { ExchangeWrites(sys.config, s, c); }
    else if c.op.Reset? { ResetWrites(s.db, c); }
    else if c.op.Delete? { DeleteWrites(s.db, c); }
    else {
      if OnSessions(c.op) { SessionStepWritesNothing(sys, s, c); } else { OtherStepWritesNothing(sys, s, c); }
      NothingFollows(s.db, c, sys.step(s, c).0.db);
    }
  }

  // ---------------------------------------------------------------- runs

  /** The stored digest of every user is the last one its run wrote. */
  lemma {:induction false} StoredIsLastWritten(sys: Service, cache: CacheState, calls: seq<Call>, uid: int)
    requires uid in After(sys, Empty(cache), calls).db.users
    ensures var db := After(sys, Empty(cache), calls).db;
            uid in db.credentials && LastWritten(sys, cache, calls, uid) == Some(db.credentials[uid])
  {
    if calls != [] {
      var n := |calls| - 1;
      AfterIsSound(sys, cache, calls[..n]);
      var s := After(sys, Empty(cache), calls[..n]);
      StepWrites(sys, s, calls[n]);
      assert calls[..n + 1] == calls;
      WritesPrefix(sys, cache, calls, n, uid);
      if WrittenAt(sys, cache, calls, n, uid).None? { StoredIsLastWritten(sys, cache, calls[..n], uid); }
    }
  }

  /** The calls of Login that end it when they fail. */
  const LOGIN_NEEDS: set<CallSite> := {GetUserByEmail, Randomness, Domain.CreateSession}

  lemma LoginOutcome(cfg: O.Config, s: O.State, email: string, password: string, env: O.Env)
    requires Wf(s.db) && !TokenHashTaken(s.db, HashToken(env.token, cfg.secret)) && env.faults !! LOGIN_NEEDS
    ensures O.Login(cfg, s, email, password, env).1.LoggedIn?
            <==> exists u :: u in s.db.users && s.db.users[u].email == email && s.db.users[u].verified
                             && s.db.credentials[u] == Bcrypt(password)
  {
    var u := UserByEmail(s.db, email);
    var (db, admitted) := O.AdmitByPassword(s.db, email, password, env);
    assert db.sessions == s.db.sessions && db.users.Keys == s.db.users.Keys;
    if admitted.Ok? { assert O.OpenSession(cfg, s.(db := db), admitted.value, env).1.Some?; }
  }

  lemma StepLoginOutcome(sys: Service, s: O.State, c: Call)
    requires Wf(s.db) && c.op.Login? && !TokenHashTaken(s.db, HashToken(c.env.token, sys.config.secret))
    requires c.env.faults !! LOGIN_NEEDS
    ensures sys.step(s, c).1.LoggedIn?
            <==> exists u :: u in s.db.users && s.db.users[u].email == c.op.email && s.db.users[u].verified
                             && s.db.credentials[u] == Bcrypt(c.op.password)
  {
    StepIs(sys, s, c);
    LoginOutcome(sys.config, s, c.op.email, c.op.password, c.env);
  }

  /** With the store working, Login succeeds exactly when a verified user has the email and the
      password is the last one the run wrote for that user. */
  lemma LoginTakesTheLastPassword(sys: Service, cache: CacheState, calls: seq<Call>, k: nat)
    requires Lawful(calls) && k < |calls| && calls[k].op.Login? && calls[k].env.faults !! LOGIN_NEEDS
    ensures var users := After(sys, Empty(cache), calls[..k]).db.users;
            Answer(sys, Empty(cache), calls, k).LoggedIn?
            <==> exists u :: u in users && users[u].email == calls[k].op.email && users[u].verified
                             && LastWritten(sys, cache, calls[..k], u) == Some(Bcrypt(calls[k].op.password))
  {
    var s := After(sys, Empty(cache), calls[..k]);
    AfterIsSound(sys, cache, calls[..k]);
    assert Lawful(calls[..k] + [calls[k]]) by { assert calls[..k] + [calls[k]] == calls[..k + 1]; }
    NextIsFresh(sys, cache, calls[..k], calls[k]);
    StepLoginOutcome(sys, s, calls[k]);
    forall u | u in s.db.users
      ensures u in s.db.credentials && LastWritten(sys, cache, calls[..k], u) == Some(s.db.credentials[u])
    {
      StoredIsLastWritten(sys, cache, calls[..k], u);
    }
  }

  /** After entry i every write is by a reset, of the password the reset was given. */
  ghost predicate ResetsAfter(calls: seq<Call>, writes: seq<Option<Digest>>, i: nat) {
    forall j :: i < j < |writes| <= |calls| && writes[j].Some? ==>
      calls[j].op.Reset? && writes[j] == Some(Bcrypt(calls[j].op.password))
  }

  /** The last write is by a reset to this password. */
  ghost predicate LastIsReset(calls: seq<Call>, writes: seq<Option<Digest>>, password: string) {
    exists j: nat :: j < |calls| && IsLast(writes, j) && calls[j].op.Reset? && calls[j].op.password == password
  }

  lemma {:induction false} LastResetCounts(calls: seq<Call>, writes: seq<Option<Digest>>, i: nat, password: string)
    requires i < |writes| <= |calls| && writes[i] == Some(Blank) && !calls[i].op.Reset? && ResetsAfter(calls, writes, i)
    ensures LastOf(writes) == Some(Bcrypt(password)) <==> LastIsReset(calls, writes, password)
  {
    LastOfAt(writes, i);
    var j: nat :| i <= j < |writes| && IsLast(writes, j) && writes[j] == LastOf(writes);
    assert forall m: nat :: IsLast(writes, m) ==> m == j;
  }

  /** A user whom a provider login created logs in with a password exactly when the last thing
      written for that user was a reset to it; so before any reset, with none. */
  lemma ProviderUserNeedsReset(sys: Service, cache: CacheState, calls: seq<Call>, i: nat, k: nat, u: int)
    requires Lawful(calls) && i < k < |calls| && calls[i].op.Exchange?
    requires u !in After(sys, Empty(cache), calls[..i]).db.users
    requires u in After(sys, Empty(cache), calls[..i + 1]).db.users
    requires calls[k].op.Login? && calls[k].env.faults !! LOGIN_NEEDS
    requires var users := After(sys, Empty(cache), calls[..k]).db.users;
             u in users && users[u].email == calls[k].op.email && users[u].verified
    ensures Answer(sys, Empty(cache), calls, k).LoggedIn?
            <==> LastIsReset(calls, Writes(sys, cache, calls[..k], u), calls[k].op.password)
  {
    LoginTakesTheLastPassword(sys, cache, calls, k);
    AfterIsSound(sys, cache, calls[..k]);
    WritesAfterCreation(sys, cache, calls, i, k, u);
    LastResetCounts(calls, Writes(sys, cache, calls[..k], u), i, calls[k].op.password);
  }

  lemma WritesAfterCreation(sys: Service, cache: CacheState, calls: seq<Call>, i: nat, k: nat, u: int)
    requires i < k <= |calls| && calls[i].op.Exchange?
    requires u !in After(sys, Empty(cache), calls[..i]).db.users
    requires u in After(sys, Empty(cache), calls[..i + 1]).db.users
    ensures var writes := Writes(sys, cache, calls[..k], u); writes[i] == Some(Blank) && ResetsAfter(calls, writes, i)
  {
    WritesPrefix(sys, cache, calls, k, u);
    CreationWrites(sys, cache, calls, i, u);
    forall j: nat | i < j < k && WrittenAt(sys, cache, calls, j, u).Some?
      ensures calls[j].op.Reset? && WrittenAt(sys, cache, calls, j, u) == Some(Bcrypt(calls[j].op.password))
    {
      OnlyResetRewrites(sys, cache, calls, i, j, u);
    }
  }

  lemma CreationWrites(sys: Service, cache: CacheState, calls: seq<Call>, i: nat, u: int)
    requires i < |calls| && calls[i].op.Exchange?
    requires u !in After(sys, Empty(cache), calls[..i]).db.users
    requires u in After(sys, Empty(cache), calls[..i + 1]).db.users
    ensures WrittenAt(sys, cache, calls, i, u) == Some(Blank)
  {
    AfterNext(sys, Empty(cache), calls, i);
  }

  /** Once a user exists, only ResetPassword writes its password. */
  lemma OnlyResetRewrites(sys: Service, cache: CacheState, calls: seq<Call>, i: nat, j: nat, u: int)
    requires i < j < |calls| && u in After(sys, Empty(cache), calls[..i + 1]).db.users
    requires WrittenAt(sys, cache, calls, j, u).Some?
    ensures calls[j].op.Reset?
  {
    AfterIsSound(sys, cache, calls[..i + 1]);
    NeverRecreated(sys, cache, calls, i + 1, j, u);
    AfterNext(sys, Empty(cache), calls, j);
  }

  ghost predicate Existed(db: Store, u: int) {
    u < db.nextUser
  }

  lemma StepNeverRecreates(sys: Service, s: O.State, c: Call, u: int)
    requires Wf(s.db) && Existed(s.db, u)
    ensures Existed(sys.step(s, c).0.db, u) && (u in sys.step(s, c).0.db.users ==> u in s.db.users)
  {
    StepTables(sys, s, c);
  }

  lemma {:induction false} NeverRecreated(sys: Service, cache: CacheState, calls: seq<Call>, m: nat, n: nat, u: int)
    requires m <= n < |calls| && Existed(After(sys, Empty(cache), calls[..m]).db, u)
    ensures Existed(After(sys, Empty(cache), calls[..n]).db, u)
    ensures var (a, b) := (After(sys, Empty(cache), calls[..n]).db, After(sys, Empty(cache), calls[..n + 1]).db);
            u in b.users ==> u in a.users
  {
    if m < n {
      NeverRecreated(sys, cache, calls, m, n - 1, u);
      AfterIsSound(sys, cache, calls[..n - 1]);
      AfterNext(sys, Empty(cache), calls, n - 1);
      StepNeverRecreates(sys, After(sys, Empty(cache), calls[..n - 1]), calls[n - 1], u);
    }
    AfterIsSound(sys, cache, calls[..n]);
    AfterNext(sys, Empty(cache), calls, n);
    StepNeverRecreates(sys, After(sys, Empty(cache), calls[..n]), calls[n], u);
  }
}
