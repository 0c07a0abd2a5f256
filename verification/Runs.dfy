/** Whole runs of atomic service calls, the cleanup worker and cache evictions. */
module Runs {
  import opened Domain
  import opened Tables
  import opened CacheStates
  import O = Operations
  import Usernames

  datatype Op =
    | Signup(email: string, password: string)
    | VerifyOtp(otpHash: string, code: string)
    | Login(email: string, password: string)
    | Exchange(key: LinkKey, email: string)
    | Validate(token: string)
    | Refresh(token: string)
    | Logout(token: string)
    | Forgot(email: string)
    | Reset(otpHash: string, code: string, password: string)
    | GetUser(uid: int)
    | Delete(uid: int)
    | Cleanup
    | Evict(cacheKey: CacheKey)

  datatype Call = Call(op: Op, env: O.Env)

  /** Eviction concerns memcached only. */
  function EvictFrom(c: CacheState, k: CacheKey): CacheState {
    if c.OfMemcached? then OfMemcached(c.items - {k}) else c
  }

  function OnTables(s: O.State, r: (Store, O.Response)): (O.State, O.Response) {
    (s.(db := r.0), r.1)
  }

  ghost function Apply(cfg: O.Config, s: O.State, c: Call): (O.State, O.Response) {
    match c.op
    case Signup(email, password) => OnTables(s, O.Signup(cfg, s.db, email, password, c.env))
    case VerifyOtp(otpHash, code) => O.VerifyOtp(cfg, s, otpHash, code, c.env)
    case Login(email, password) => O.Login(cfg, s, email, password, c.env)
    case Exchange(key, email) => O.Exchange(cfg, s, key, email, c.env)
    case Validate(token) => (s, O.Validate(cfg, s, token, c.env))
    case Refresh(token) => O.Refresh(cfg, s, token, c.env)
    case Logout(token) => O.Logout(cfg, s, token, c.env)
    case Forgot(email) => OnTables(s, O.ForgotPassword(cfg, s.db, email, c.env))
    case Reset(otpHash, code, password) => OnTables(s, O.Reset(s.db, otpHash, code, password, c.env))
    case GetUser(uid) => (s, O.GetUser(s.db, uid, c.env))
    case Delete(uid) => OnTables(s, O.DeleteUser(s.db, uid, c.env))
    case Cleanup => (s.(db := O.Cleanup(s.db, c.env)), O.Silent)
    case Evict(k) => (s.(cache := EvictFrom(s.cache, k)), O.Silent)
  }

  /** A configuration, and the operations under it as one transition function. */
  datatype Deployment = Deployment(config: O.Config, step: (O.State, Call) -> (O.State, O.Response))

  ghost predicate Serves(d: Deployment) {
    forall s, c {:trigger Apply(d.config, s, c)} :: d.step(s, c) == Apply(d.config, s, c)
  }

  ghost function Deploy(config: O.Config): Deployment {
    Deployment(config, (s, c) => Apply(config, s, c))
  }

  type Service = d: Deployment | Serves(d) ghost witness Deploy(O.Config(0, 0, ""))

  /** Every configuration has its service. */
  lemma EveryConfigServes(config: O.Config)
    ensures Serves(Deploy(config)) && Deploy(config).config == config
  {
  }

  lemma StepIs(sys: Service, s: O.State, c: Call)
    ensures sys.step(s, c) == Apply(sys.config, s, c)
  {
  }

  /** The state after a run. */
  function After(sys: Deployment, s: O.State, calls: seq<Call>): O.State {
    if calls == [] then s
    else sys.step(After(sys, s, calls[..|calls| - 1]), calls[|calls| - 1]).0
  }

  /** The response of call k of a run. */
  function Answer(sys: Deployment, s: O.State, calls: seq<Call>, k: nat): O.Response
    requires k < |calls|
  {
    sys.step(After(sys, s, calls[..k]), calls[k]).1
  }

  lemma AfterNext(sys: Deployment, s: O.State, calls: seq<Call>, n: nat)
    requires n < |calls|
    ensures After(sys, s, calls[..n + 1]) == sys.step(After(sys, s, calls[..n]), calls[n]).0
  {
    assert calls[..n + 1][..n] == calls[..n];
  }

  /** The clock never goes back, and the random source never repeats a token or an otp hash. */
  ghost predicate Lawful(calls: seq<Call>) {
    && (forall i :: 0 <= i < |calls| ==> 0 <= calls[i].env.now && calls[i].env.otpHash != "")
    && (forall i, j :: 0 <= i < j < |calls| ==>
          && calls[i].env.now <= calls[j].env.now
          && calls[i].env.token != calls[j].env.token
          && calls[i].env.otpHash != calls[j].env.otpHash)
  }

  function LastTime(calls: seq<Call>): Time {
    if calls == [] then 0 else calls[|calls| - 1].env.now
  }

  function Empty(cache: CacheState): O.State {
    O.State(EMPTY, cache)
  }

  // ---------------------------------------------------------------- what a call does to the tables

  /** Every session row carries a token hash that some row had before, or this one. */
  ghost predicate TokensCarry(a: map<int, Session>, b: map<int, Session>, h: TokenHash) {
    forall i :: i in b ==> b[i].tokenHash == h || (i in a && a[i].tokenHash == b[i].tokenHash)
  }

  /** New otp rows carry this hash. */
  ghost predicate CodesCarry(a: map<int, Otp>, b: map<int, Otp>, otpHash: string) {
    forall i :: i in b && i !in a ==> b[i].otpHash == otpHash
  }

  /** New rows carry the token and the otp hash of the call; nothing that cannot be undone is undone. */
  ghost predicate TablesStep(cfg: O.Config, env: O.Env, a: Store, b: Store) {
    && Keeps(a, b)
    && TokensCarry(a.sessions, b.sessions, HashToken(env.token, cfg.secret)) && CodesCarry(a.otps, b.otps, env.otpHash)
  }

  lemma KeptAndCarried(cfg: O.Config, env: O.Env, a: Store, b: Store)
    requires Keeps(a, b)
    requires TokensCarry(a.sessions, b.sessions, HashToken(env.token, cfg.secret))
    requires CodesCarry(a.otps, b.otps, env.otpHash)
    ensures TablesStep(cfg, env, a, b)
  {
  }

  lemma TablesStepThen(cfg: O.Config, env: O.Env, a: Store, b: Store, c: Store)
    requires Wf(a) && TablesStep(cfg, env, a, b) && TablesStep(cfg, env, b, c)
    ensures TablesStep(cfg, env, a, c)
  {
    EvolvesTransitive(a, b, c);
  }

  lemma TablesStay(cfg: O.Config, env: O.Env, db: Store)
    requires Wf(db)
    ensures TablesStep(cfg, env, db, db)
  {
    EvolvesToItself(db);
  }

  lemma CreateUserTables(cfg: O.Config, env: O.Env, db: Store, email: string, username: Option<string>,
                         verified: bool, digest: Digest)
    requires Wf(db)
    ensures TablesStep(cfg, env, db, CreateUser(db, email, username, verified, digest, env.now, env.faults).0)
  {
    CreateUserKeeps(db, email, username, verified, digest, env.now, env.faults);
  }

  lemma InsertTokenTables(cfg: O.Config, env: O.Env, db: Store, uid: int, h: TokenHash, expiresAt: Time, ok: bool,
                          t: Store)
    requires Wf(db) && h == HashToken(env.token, cfg.secret)
    requires t == InsertSession(db, uid, h, expiresAt, env.now, ok).0
    ensures TablesStep(cfg, env, db, t)
  {
    InsertSessionKeeps(db, uid, h, expiresAt, env.now, ok);
    InsertSessionCarries(db, uid, h, expiresAt, env.now, ok);
    KeptAndCarried(cfg, env, db, t);
  }

  lemma InsertSessionCarries(db: Store, uid: int, h: TokenHash, expiresAt: Time, now: Time, ok: bool)
    ensures var t := InsertSession(db, uid, h, expiresAt, now, ok).0;
            TokensCarry(db.sessions, t.sessions, h) && t.otps == db.otps
  {
  }

  lemma OpenSessionTables(cfg: O.Config, s: O.State, uid: int, env: O.Env)
    requires Wf(s.db)
    ensures TablesStep(cfg, env, s.db, O.OpenSession(cfg, s, uid, env).0.db)
  {
    if Randomness in env.faults {
      TablesStay(cfg, env, s.db);
    } else {
      InsertTokenTables(cfg, env, s.db, uid, HashToken(env.token, cfg.secret), env.now + cfg.ttl,
                        CreateSession !in env.faults, O.OpenSession(cfg, s, uid, env).0.db);
    }
  }

  lemma SignupTables(cfg: O.Config, db: Store, email: string, password: string, env: O.Env)
    requires Wf(db)
    ensures TablesStep(cfg, env, db, O.Signup(cfg, db, email, password, env).0)
  {
    TablesStay(cfg, env, db);
    CreateUserTables(cfg, env, db, email, None, false, Bcrypt(password));
    var (db', uid) := CreateUser(db, email, None, false, Bcrypt(password), env.now, env.faults);
    WelcomeTables(cfg, db', uid, env);
    TablesStepThen(cfg, env, db, db', O.Welcome(cfg, db', uid, env).0);
    assert O.Signup(cfg, db, email, password, env).0 in {db, O.Welcome(cfg, db', uid, env).0};
  }

  lemma WelcomeTables(cfg: O.Config, db: Store, uid: Option<int>, env: O.Env)
    requires Wf(db)
    ensures TablesStep(cfg, env, db, O.Welcome(cfg, db, uid, env).0)
  {
    TablesStay(cfg, env, db);
    if uid.Some? { IssueTables(cfg, db, uid.value, SignupVerification, env); }
  }

  lemma InsertOtpCarries(db: Store, uid: int, otpHash: string, code: Digest, purpose: Purpose, expiresAt: Time,
                         now: Time, ok: bool)
    ensures var t := InsertOtp(db, uid, otpHash, code, purpose, expiresAt, now, ok).0;
            CodesCarry(db.otps, t.otps, otpHash) && t.sessions == db.sessions
  {
  }

  lemma InsertCodeTables(cfg: O.Config, env: O.Env, db: Store, uid: int, code: Digest, purpose: Purpose,
                         expiresAt: Time,
                         ok: bool, t: Store)
    requires Wf(db) && t == InsertOtp(db, uid, env.otpHash, code, purpose, expiresAt, env.now, ok).0
    ensures TablesStep(cfg, env, db, t)
  {
    InsertOtpKeeps(db, uid, env.otpHash, code, purpose, expiresAt, env.now, ok);
    InsertOtpCarries(db, uid, env.otpHash, code, purpose, expiresAt, env.now, ok);
    KeptAndCarried(cfg, env, db, t);
  }

  lemma IssueTables(cfg: O.Config, db: Store, uid: int, purpose: Purpose, env: O.Env)
    requires Wf(db)
    ensures TablesStep(cfg, env, db, O.Issue(cfg, db, uid, purpose, env).0)
  {
    InsertCodeTables(cfg, env, db, uid, Bcrypt(env.code), purpose, env.now + cfg.otpExpiry, CreateOtp !in env.faults,
                     O.Issue(cfg, db, uid, purpose, env).0);
  }

  lemma AdmitByOtpTables(cfg: O.Config, db: Store, otpHash: string, code: string, env: O.Env)
    requires Wf(db)
    ensures TablesStep(cfg, env, db, O.AdmitByOtp(db, otpHash, code, env).0)
  {
    TablesStay(cfg, env, db);
    var uid := O.CheckSignupOtp(db, otpHash, code, env);
    if uid.Ok? {
      var name := O.PickName(db, db.users[uid.value].email, env.draws, Usernames.MAX_TRIES);
      if name.Some? {
        VerifyWritesTables(cfg, db, uid.value, name.value, otpHash, env);
        var db' := MarkVerified(db, uid.value, name.value, UpdateVerified !in env.faults).0;
        var retired := RetireOtp(db', otpHash, SignupVerification, env.now, true);
        assert O.AdmitByOtp(db, otpHash, code, env).0 in {db', retired};
      }
    }
  }

  lemma VerifyWritesTables(cfg: O.Config, db: Store, uid: int, name: string, otpHash: string, env: O.Env)
    requires Wf(db)
    ensures var db' := MarkVerified(db, uid, name, UpdateVerified !in env.faults).0;
            TablesStep(cfg, env, db, db')
            && TablesStep(cfg, env, db, RetireOtp(db', otpHash, SignupVerification, env.now, true))
  {
    MarkVerifiedKeeps(db, uid, name, UpdateVerified !in env.faults);
    var db' := MarkVerified(db, uid, name, UpdateVerified !in env.faults).0;
    assert TablesStep(cfg, env, db, db');
    RetireOtpKeeps(db', otpHash, SignupVerification, env.now, true);
    var db'' := RetireOtp(db', otpHash, SignupVerification, env.now, true);
    assert TablesStep(cfg, env, db', db'');
    TablesStepThen(cfg, env, db, db', db'');
  }

  lemma AdmitByPasswordTables(cfg: O.Config, db: Store, email: string, password: string, env: O.Env)
    requires Wf(db)
    ensures TablesStep(cfg, env, db, O.AdmitByPassword(db, email, password, env).0)
  {
    TablesStay(cfg, env, db);
    var u := UserByEmail(db, email);
    if u.Some? { TouchUserKeeps(db, u.value, env.now, UpdateUserLastLogin !in env.faults); }
  }

  lemma AdmitByProviderTables(cfg: O.Config, db: Store, key: LinkKey, email: string, env: O.Env)
    requires Wf(db)
    ensures TablesStep(cfg, env, db, O.AdmitByProvider(db, key, email, env).0)
  {
    TablesStay(cfg, env, db);
    TouchLinkTables(cfg, db, key, env, UpdateLinkLastLogin !in env.faults);
    var touched := TouchLink(db, key, env.now, UpdateLinkLastLogin !in env.faults);
    var name := O.PickName(db, email, env.draws, Usernames.MAX_TRIES);
    if name.Some? {
      EnrolTables(cfg, db, key, email, name.value, env);
      assert O.AdmitByProvider(db, key, email, env).0 in {db, touched, O.Enrol(db, key, email, name.value, env).0};
    }
  }

  lemma TouchLinkTables(cfg: O.Config, db: Store, key: LinkKey, env: O.Env, ok: bool)
    requires Wf(db)
    ensures TablesStep(cfg, env, db, TouchLink(db, key, env.now, ok))
  {
    TouchLinkKeeps(db, key, env.now, ok);
  }

  lemma EnrolTables(cfg: O.Config, db: Store, key: LinkKey, email: string, name: string, env: O.Env)
    requires Wf(db)
    ensures TablesStep(cfg, env, db, O.Enrol(db, key, email, name, env).0)
  {
    CreateUserTables(cfg, env, db, email, Some(name), true, Blank);
    var (db', uid) := CreateUser(db, email, Some(name), true, Blank, env.now, env.faults);
    if uid.Some? {
      InsertLinkKeeps(db', key, uid.value, env.now, CreateLink !in env.faults);
      var db'' := InsertLink(db', key, uid.value, env.now, CreateLink !in env.faults).0;
      assert TablesStep(cfg, env, db', db'');
      TablesStepThen(cfg, env, db, db', db'');
    }
  }

  lemma OpenForTables(cfg: O.Config, s: O.State, db: Store, admitted: Result<int>, env: O.Env)
    requires Wf(s.db) && TablesStep(cfg, env, s.db, db)
    ensures TablesStep(cfg, env, s.db, O.OpenFor(cfg, s, db, admitted, env).0.db)
  {
    if admitted.Ok? {
      OpenSessionTables(cfg, s.(db := db), admitted.value, env);
      TablesStepThen(cfg, env, s.db, db, O.OpenSession(cfg, s.(db := db), admitted.value, env).0.db);
    }
  }

  lemma RefreshTables(cfg: O.Config, s: O.State, token: string, env: O.Env)
    requires Wf(s.db)
    ensures TablesStep(cfg, env, s.db, O.Refresh(cfg, s, token, env).0.db)
  {
    TablesStay(cfg, env, s.db);
    var row := O.CheckToken(cfg, s.db, token, env);
    if row.Ok? {
      var row' := O.Renewed(cfg, row.value, env);
      assert row'.id in s.db.sessions && s.db.sessions[row'.id].userId == row'.userId;
      UpdateSessionRowKeeps(s.db, row', UpdateSession !in env.faults);
      var db := UpdateSessionRow(s.db, row', UpdateSession !in env.faults).0;
      assert TablesStep(cfg, env, s.db, db);
    }
  }

  lemma LogoutTables(cfg: O.Config, s: O.State, token: string, env: O.Env)
    requires Wf(s.db)
    ensures TablesStep(cfg, env, s.db, O.Logout(cfg, s, token, env).0.db)
  {
    var row := O.CheckToken(cfg, s.db, token, env);
    TablesStay(cfg, env, s.db);
    if row.Ok? {
      RetireSessionKeeps(s.db, row.value.id, env.now, true);
      assert TablesStep(cfg, env, s.db, RetireSession(s.db, row.value.id, env.now, true));
    }
  }

  lemma ForgotTables(cfg: O.Config, db: Store, email: string, env: O.Env)
    requires Wf(db)
    ensures TablesStep(cfg, env, db, O.ForgotPassword(cfg, db, email, env).0)
  {
    TablesStay(cfg, env, db);
    var u := UserByEmail(db, email);
    if u.Some? {
      ReissueTables(cfg, db, u.value, env);
      assert O.ForgotPassword(cfg, db, email, env).0 in {db, O.Reissue(cfg, db, u.value, env).0};
    }
  }

  lemma ReissueTables(cfg: O.Config, db: Store, uid: int, env: O.Env)
    requires Wf(db)
    ensures TablesStep(cfg, env, db, O.Reissue(cfg, db, uid, env).0)
  {
    var ok := SoftDeleteOtpsOfUser !in env.faults;
    RetireOtpsOfKeeps(db, uid, ResetPassword, env.now, ok);
    var db' := RetireOtpsOf(db, uid, ResetPassword, env.now, ok);
    assert TablesStep(cfg, env, db, db');
    IssueTables(cfg, db', uid, ResetPassword, env);
    TablesStepThen(cfg, env, db, db', O.Issue(cfg, db', uid, ResetPassword, env).0);
  }

  lemma ResetTables(cfg: O.Config, db: Store, otpHash: string, code: string, password: string, env: O.Env)
    requires Wf(db)
    ensures TablesStep(cfg, env, db, O.Reset(db, otpHash, code, password, env).0)
  {
    var uid := O.CheckResetOtp(db, otpHash, code, env);
    if uid.Ok? { StorePasswordTables(cfg, db, otpHash, uid.value, password, env); } else { TablesStay(cfg, env, db); }
  }

  lemma StorePasswordTables(cfg: O.Config, db: Store, otpHash: string, uid: int, password: string, env: O.Env)
    requires Wf(db)
    ensures TablesStep(cfg, env, db, O.StorePassword(db, otpHash, uid, password, env).0)
  {
    TablesStay(cfg, env, db);
    ResetWritesTables(cfg, db, uid, Bcrypt(password), otpHash, env);
  }

  lemma ResetWritesTables(cfg: O.Config, db: Store, uid: int, digest: Digest, otpHash: string, env: O.Env)
    requires Wf(db)
    ensures var db' := SetPassword(db, uid, digest, true);
            TablesStep(cfg, env, db, db')
            && TablesStep(cfg, env, db, RetireOtp(db', otpHash, ResetPassword, env.now, true))
  {
    SetPasswordKeeps(db, uid, digest, true);
    var db' := SetPassword(db, uid, digest, true);
    assert TablesStep(cfg, env, db, db');
    RetireOtpKeeps(db', otpHash, ResetPassword, env.now, true);
    var db'' := RetireOtp(db', otpHash, ResetPassword, env.now, true);
    assert TablesStep(cfg, env, db', db'');
    TablesStepThen(cfg, env, db, db', db'');
  }

  lemma CleanupTables(cfg: O.Config, db: Store, env: O.Env)
    requires Wf(db)
    ensures TablesStep(cfg, env, db, O.Cleanup(db, env))
  {
    SweepSessionRowsKeeps(db, env.now, SweepSessions !in env.faults);
    var db' := SweepSessionRows(db, env.now, SweepSessions !in env.faults);
    assert TablesStep(cfg, env, db, db');
    SweepOtpRowsKeeps(db', env.now, SweepOtps !in env.faults);
    assert TablesStep(cfg, env, db', O.Cleanup(db, env));
    TablesStepThen(cfg, env, db, db', O.Cleanup(db, env));
  }

  lemma LoginTables(cfg: O.Config, s: O.State, email: string, password: string, env: O.Env)
    requires Wf(s.db)
    ensures TablesStep(cfg, env, s.db, O.Login(cfg, s, email, password, env).0.db)
  {
    AdmitByPasswordTables(cfg, s.db, email, password, env);
    var (db, admitted) := O.AdmitByPassword(s.db, email, password, env);
    OpenForTables(cfg, s, db, admitted, env);
  }

  lemma ExchangeTables(cfg: O.Config, s: O.State, key: LinkKey, email: string, env: O.Env)
    requires Wf(s.db)
    ensures TablesStep(cfg, env, s.db, O.Exchange(cfg, s, key, email, env).0.db)
  {
    AdmitByProviderTables(cfg, s.db, key, email, env);
    var (db, admitted) := O.AdmitByProvider(s.db, key, email, env);
    OpenForTables(cfg, s, db, admitted, env);
  }

  lemma DeleteTables(cfg: O.Config, db: Store, uid: int, env: O.Env)
    requires Wf(db)
    ensures TablesStep(cfg, env, db, O.DeleteUser(db, uid, env).0)
  {
    TablesStay(cfg, env, db);
    RemoveUserKeeps(db, uid, true);
  }

  /** The calls that open or change sessions. */
  predicate OnSessions(op: Op) {
    op.VerifyOtp? || op.Login? || op.Exchange? || op.Refresh? || op.Logout?
  }

  lemma ApplyTables(cfg: O.Config, s: O.State, c: Call)
    requires Wf(s.db)
    ensures TablesStep(cfg, c.env, s.db, Apply(cfg, s, c).0.db)
  {
    if OnSessions(c.op) { ApplySessionTables(cfg, s, c); }
    else if c.op.Signup? { SignupTables(cfg, s.db, c.op.email, c.op.password, c.env); }
    else if c.op.Forgot? { ForgotTables(cfg, s.db, c.op.email, c.env); }
    else if c.op.Reset? { ResetTables(cfg, s.db, c.op.otpHash, c.op.code, c.op.password, c.env); }
    else if c.op.Delete? { DeleteTables(cfg, s.db, c.op.uid, c.env); }
    else if c.op.Cleanup? { CleanupTables(cfg, s.db, c.env); }
    else { TablesStay(cfg, c.env, s.db); }
  }

  lemma ApplySessionTables(cfg: O.Config, s: O.State, c: Call)
    requires Wf(s.db) && OnSessions(c.op)
    ensures TablesStep(cfg, c.env, s.db, Apply(cfg, s, c).0.db)
  {
    if c.op.VerifyOtp? { VerifyOtpTables(cfg, s, c.op.otpHash, c.op.code, c.env); }
    else if c.op.Login? { LoginTables(cfg, s, c.op.email, c.op.password, c.env); }
    else if c.op.Exchange? { ExchangeTables(cfg, s, c.op.key, c.op.email, c.env); }
    else if c.op.Refresh? { RefreshTables(cfg, s, c.op.token, c.env); }
    else { LogoutTables(cfg, s, c.op.token, c.env); }
  }

  lemma VerifyOtpTables(cfg: O.Config, s: O.State, otpHash: string, code: string, env: O.Env)
    requires Wf(s.db)
    ensures TablesStep(cfg, env, s.db, O.VerifyOtp(cfg, s, otpHash, code, env).0.db)
  {
    AdmitByOtpTables(cfg, s.db, otpHash, code, env);
    var (db, admitted) := O.AdmitByOtp(s.db, otpHash, code, env);
    if admitted.Ok? {
      OpenSessionTables(cfg, s.(db := db), admitted.value.0, env);
      TablesStepThen(cfg, env, s.db, db, O.OpenSession(cfg, s.(db := db), admitted.value.0, env).0.db);
    }
  }

  lemma StepTables(sys: Service, s: O.State, c: Call)
    requires Wf(s.db)
    ensures TablesStep(sys.config, c.env, s.db, sys.step(s, c).0.db)
  {
    StepIs(sys, s, c);
    ApplyTables(sys.config, s, c);
  }

  /** Every token hash and otp hash in the tables was drawn by some call of the run. */
  ghost predicate Drawn(cfg: O.Config, calls: seq<Call>, db: Store) {
    && (forall i :: i in db.sessions ==>
          exists k :: 0 <= k < |calls| && db.sessions[i].tokenHash == HashToken(calls[k].env.token, cfg.secret))
    && (forall i :: i in db.otps ==> exists k :: 0 <= k < |calls| && db.otps[i].otpHash == calls[k].env.otpHash)
  }

  lemma {:induction false} AfterIsSound(sys: Service, cache: CacheState, calls: seq<Call>)
    ensures var db := After(sys, Empty(cache), calls).db; Wf(db) && Drawn(sys.config, calls, db)
  {
    if calls != [] {
      var n := |calls| - 1;
      AfterIsSound(sys, cache, calls[..n]);
      var s := After(sys, Empty(cache), calls[..n]);
      StepTables(sys, s, calls[n]);
      DrawnStep(sys.config, calls, s.db, After(sys, Empty(cache), calls).db);
    }
  }

  lemma DrawnStep(cfg: O.Config, calls: seq<Call>, a: Store, b: Store)
    requires calls != [] && Drawn(cfg, calls[..|calls| - 1], a) && TablesStep(cfg, calls[|calls| - 1].env, a, b)
    ensures Drawn(cfg, calls, b)
  {
    var n := |calls| - 1;
    assert forall k :: 0 <= k < n ==> calls[..n][k] == calls[k];
    forall i | i in b.otps ensures exists k :: 0 <= k < |calls| && b.otps[i].otpHash == calls[k].env.otpHash {
      if i in a.otps { assert b.otps[i].otpHash == a.otps[i].otpHash; }
    }
  }

  /** So what the next call draws is new. */
  lemma NextIsFresh(sys: Service, cache: CacheState, calls: seq<Call>, c: Call)
    requires Lawful(calls + [c])
    ensures var db := After(sys, Empty(cache), calls).db;
            !TokenHashTaken(db, HashToken(c.env.token, sys.config.secret)) && !OtpHashTaken(db, c.env.otpHash)
  {
    AfterIsSound(sys, cache, calls);
    DrawnIsFresh(sys.config, After(sys, Empty(cache), calls).db, calls, c);
  }

  lemma DrawnIsFresh(cfg: O.Config, db: Store, calls: seq<Call>, c: Call)
    requires Lawful(calls + [c]) && Drawn(cfg, calls, db)
    ensures !TokenHashTaken(db, HashToken(c.env.token, cfg.secret)) && !OtpHashTaken(db, c.env.otpHash)
  {
    var all := calls + [c];
    forall i | i in db.sessions ensures db.sessions[i].tokenHash != HashToken(c.env.token, cfg.secret) {
      var k :| 0 <= k < |calls| && db.sessions[i].tokenHash == HashToken(calls[k].env.token, cfg.secret);
      assert all[k] == calls[k] && all[|calls|] == c;
      if db.sessions[i].tokenHash == HashToken(c.env.token, cfg.secret) {
        HashTokenInjective(calls[k].env.token, c.env.token, cfg.secret);
      }
    }
    forall i | i in db.otps ensures db.otps[i].otpHash != c.env.otpHash {
      var k :| 0 <= k < |calls| && db.otps[i].otpHash == calls[k].env.otpHash;
      assert all[k] == calls[k] && all[|calls|] == c;
    }
  }
}
