/** One-time codes over whole runs: where they come from, that each works once, that a user is
    verified once. */
module OneTimeCodes {
  import opened Domain
  import opened Tables
  import opened CacheStates
  import opened Runs
  import O = Operations

  // ---------------------------------------------------------------- what a call does to otps

  /** The answer tells the hash of a code for this purpose. */
  predicate Issues(op: Op, answer: O.Response, purpose: Purpose, otpHash: string) {
    match purpose
    case SignupVerification => op.Signup? && answer == O.SignedUp(otpHash)
    case ResetPassword => op.Forgot? && answer == O.ResetSent(otpHash)
  }

  /** The call, between these tables, dealt with this user: Signup created it, ForgotPassword found it,
      and it has the email that the call was given. */
  ghost predicate Concerns(op: Op, purpose: Purpose, a: Store, b: Store, u: int) {
    && u in b.users
    && (purpose.SignupVerification? ==> op.Signup? && u !in a.users && b.users[u].email == op.email)
    && (purpose.ResetPassword? ==> op.Forgot? && u in a.users && b.users[u].email == op.email)
  }

  /** The call stored the row for its user and told the hash of it. */
  ghost predicate IssuedBy(cfg: O.Config, c: Call, answer: O.Response, a: Store, b: Store, o: Otp) {
    && Issues(c.op, answer, o.purpose, o.otpHash) && Concerns(c.op, o.purpose, a, b, o.userId)
    && o.otpHash == c.env.otpHash && o.code == Bcrypt(c.env.code) && o.expiresAt == c.env.now + cfg.otpExpiry
  }

  ghost predicate NewOtpsAreIssued(cfg: O.Config, c: Call, answer: O.Response, a: Store, b: Store) {
    forall i :: i in b.otps && i !in a.otps ==> IssuedBy(cfg, c, answer, a, b, b.otps[i])
  }

  lemma IssueAdds(cfg: O.Config, db: Store, uid: int, purpose: Purpose, env: O.Env)
    requires Wf(db)
    ensures var (t, answer) := O.Issue(cfg, db, uid, purpose, env);
            && t.users == db.users
            && forall i :: i in t.otps && i !in db.otps ==>
                 && t.otps[i] == Otp(i, uid, env.otpHash, Bcrypt(env.code), purpose, env.now + cfg.otpExpiry, None,
                                     env.now)
                 && uid in db.users
                 && answer == if purpose.SignupVerification? then O.SignedUp(env.otpHash) else O.ResetSent(env.otpHash)
  {
  }

  lemma WelcomeAdds(cfg: O.Config, db: Store, uid: Option<int>, env: O.Env)
    requires Wf(db)
    ensures var (t, answer) := O.Welcome(cfg, db, uid, env);
            && t.users == db.users
            && forall i :: i in t.otps && i !in db.otps ==>
                 && uid.Some? && uid.value in db.users
                 && t.otps[i] == Otp(i, uid.value, env.otpHash, Bcrypt(env.code), SignupVerification,
                                     env.now + cfg.otpExpiry, None, env.now)
                 && answer == O.SignedUp(env.otpHash)
  {
    if uid.Some? { IssueAdds(cfg, db, uid.value, SignupVerification, env); }
  }

  lemma CreatedUser(db: Store, email: string, digest: Digest, env: O.Env)
    requires Wf(db)
    ensures var (t, uid) := CreateUser(db, email, None, false, digest, env.now, env.faults);
            && t.otps == db.otps
            && (uid.Some? ==> uid.value in t.users && uid.value !in db.users && t.users[uid.value].email == email)
  {
  }

  lemma SignupIssues(cfg: O.Config, db: Store, c: Call)
    requires Wf(db) && c.op.Signup?
    ensures var (t, answer) := O.Signup(cfg, db, c.op.email, c.op.password, c.env);
            NewOtpsAreIssued(cfg, c, answer, db, t)
  {
    var digest := Bcrypt(c.op.password);
    CreateUserKeeps(db, c.op.email, None, false, digest, c.env.now, c.env.faults);
    CreatedUser(db, c.op.email, digest, c.env);
    var (db', uid) := CreateUser(db, c.op.email, None, false, digest, c.env.now, c.env.faults);
    WelcomeAdds(cfg, db', uid, c.env);
  }

  lemma ReissueAdds(cfg: O.Config, db: Store, uid: int, c: Call)
    requires Wf(db) && c.op.Forgot? && uid in db.users && db.users[uid].email == c.op.email
    ensures var (t, answer) := O.Reissue(cfg, db, uid, c.env); NewOtpsAreIssued(cfg, c, answer, db, t)
  {
    var ok := SoftDeleteOtpsOfUser !in c.env.faults;
    RetireOtpsOfKeeps(db, uid, ResetPassword, c.env.now, ok);
    IssueAdds(cfg, RetireOtpsOf(db, uid, ResetPassword, c.env.now, ok), uid, ResetPassword, c.env);
  }

  lemma ForgotIssues(cfg: O.Config, db: Store, c: Call)
    requires Wf(db) && c.op.Forgot?
    ensures var (t, answer) := O.ForgotPassword(cfg, db, c.op.email, c.env); NewOtpsAreIssued(cfg, c, answer, db, t)
  {
    var u := UserByEmail(db, c.op.email);
    if u.Some? { ReissueAdds(cfg, db, u.value, c); }
  }

  lemma AdmissionIssuesNothing(db: Store, otpHash: string, code: string, env: O.Env)
    ensures O.AdmitByOtp(db, otpHash, code, env).0.otps.Keys == db.otps.Keys
  {
  }

  lemma ProviderIssuesNothing(db: Store, key: LinkKey, email: string, env: O.Env)
    ensures O.AdmitByProvider(db, key, email, env).0.otps == db.otps
  {
  }

  lemma PasswordIssuesNothing(db: Store, email: string, password: string, env: O.Env)
    ensures O.AdmitByPassword(db, email, password, env).0.otps == db.otps
  {
  }

  lemma OpeningIssuesNothing(cfg: O.Config, s: O.State, uid: int, env: O.Env)
    ensures O.OpenSession(cfg, s, uid, env).0.db.otps == s.db.otps
  {
  }

  lemma VerifyIssuesNothing(cfg: O.Config, s: O.State, otpHash: string, code: string, env: O.Env)
    ensures O.VerifyOtp(cfg, s, otpHash, code, env).0.db.otps == O.AdmitByOtp(s.db, otpHash, code, env).0.otps
    ensures O.VerifyOtp(cfg, s, otpHash, code, env).0.db.otps.Keys == s.db.otps.Keys
  {
    var (db, admitted) := O.AdmitByOtp(s.db, otpHash, code, env);
    AdmissionIssuesNothing(s.db, otpHash, code, env);
    if admitted.Ok? { OpeningIssuesNothing(cfg, s.(db := db), admitted.value.0, env); }
  }

  lemma OpenForIssuesNothing(cfg: O.Config, s: O.State, db: Store, admitted: Result<int>, env: O.Env)
    ensures O.OpenFor(cfg, s, db, admitted, env).0.db.otps == db.otps
  {
    if admitted.Ok? { OpeningIssuesNothing(cfg, s.(db := db), admitted.value, env); }
  }

  lemma EntriesIssueNothing(cfg: O.Config, s: O.State, c: Call)
    requires c.op.VerifyOtp? || c.op.Exchange? || c.op.Login?
    ensures Apply(cfg, s, c).0.db.otps.Keys == s.db.otps.Keys
  {
    if c.op.VerifyOtp? {
      VerifyIssuesNothing(cfg, s, c.op.otpHash, c.op.code, c.env);
    } else if c.op.Exchange? {
      ProviderIssuesNothing(s.db, c.op.key, c.op.email, c.env);
      var (db, admitted) := O.AdmitByProvider(s.db, c.op.key, c.op.email, c.env);
      OpenForIssuesNothing(cfg, s, db, admitted, c.env);
    } else {
      PasswordIssuesNothing(s.db, c.op.email, c.op.password, c.env);
      var (db, admitted) := O.AdmitByPassword(s.db, c.op.email, c.op.password, c.env);
      OpenForIssuesNothing(cfg, s, db, admitted, c.env);
    }
  }

  lemma ResetIssuesNothing(db: Store, otpHash: string, code: string, password: string, env: O.Env)
    ensures O.Reset(db, otpHash, code, password, env).0.otps.Keys == db.otps.Keys
  {
  }

  lemma RemovalIssuesNothing(db: Store, uid: int, env: O.Env)
    ensures O.DeleteUser(db, uid, env).0.otps.Keys <= db.otps.Keys && O.Cleanup(db, env).otps.Keys <= db.otps.Keys
  {
  }

  lemma OthersIssueNothing(cfg: O.Config, s: O.State, c: Call)
    requires !c.op.Signup? && !c.op.Forgot?
    ensures Apply(cfg, s, c).0.db.otps.Keys <= s.db.otps.Keys
  {
    if c.op.VerifyOtp? || c.op.Exchange? || c.op.Login? { EntriesIssueNothing(cfg, s, c); }
    else if c.op.Reset? { ResetIssuesNothing(s.db, c.op.otpHash, c.op.code, c.op.password, c.env); }
    else if c.op.Delete? { RemovalIssuesNothing(s.db, c.op.uid, c.env); }
    else if c.op.Cleanup? { RemovalIssuesNothing(s.db, 0, c.env); }
  }

  lemma StepIssues(sys: Service, s: O.State, c: Call)
    requires Wf(s.db)
    ensures var (t, answer) := sys.step(s, c); NewOtpsAreIssued(sys.config, c, answer, s.db, t.db)
  {
    StepIs(sys, s, c);
    if c.op.Signup? { SignupIssues(sys.config, s.db, c); }
    else if c.op.Forgot? { ForgotIssues(sys.config, s.db, c); }
    else { OthersIssueNothing(sys.config, s, c); }
  }

  // ---------------------------------------------------------------- where otps come from

  /** Call k of the run issued the row, to the user that owns it. */
  ghost predicate IssuedAt(sys: Service, cache: CacheState, calls: seq<Call>, k: nat, o: Otp)
    requires k < |calls|
  {
    IssuedBy(sys.config, calls[k], Answer(sys, Empty(cache), calls, k),
             After(sys, Empty(cache), calls[..k]).db, After(sys, Empty(cache), calls[..k + 1]).db, o)
  }

  /** Some call issued the row, and its owner still has the email that this call was given. */
  ghost predicate IsIssued(sys: Service, cache: CacheState, calls: seq<Call>, users: map<int, User>, o: Otp) {
    exists k: nat :: k < |calls| && IssuedAt(sys, cache, calls, k, o)
                     && o.userId in users && users[o.userId].email == calls[k].op.email
  }

  ghost predicate AllIssued(sys: Service, cache: CacheState, calls: seq<Call>, db: Store) {
    forall i :: i in db.otps ==> IsIssued(sys, cache, calls, db.users, db.otps[i])
  }

  /** Deleting a row changes nothing about where it came from. */
  lemma StillIssued(sys: Service, cache: CacheState, calls: seq<Call>, n: nat, a: Store, b: Store, i: int)
    requires n < |calls| && Wf(a) && Wf(b) && Evolves(a, b) && i in a.otps && i in b.otps
    requires IsIssued(sys, cache, calls[..n], a.users, a.otps[i])
    ensures IsIssued(sys, cache, calls, b.users, b.otps[i])
  {
    var k: nat :| k < n && IssuedAt(sys, cache, calls[..n], k, a.otps[i])
                  && a.otps[i].userId in a.users && a.users[a.otps[i].userId].email == calls[..n][k].op.email;
    assert b.otps[i].userId in b.users && b.users[b.otps[i].userId].email == calls[k].op.email;
    IssuedInLonger(sys, cache, calls, n, k, a.otps[i], b.otps[i]);
  }

  lemma IssuedInLonger(sys: Service, cache: CacheState, calls: seq<Call>, n: nat, k: nat, o: Otp, later: Otp)
    requires k < n < |calls| && IssuedAt(sys, cache, calls[..n], k, o)
    requires later.otpHash == o.otpHash && later.userId == o.userId && later.purpose == o.purpose
    requires later.code == o.code && later.expiresAt == o.expiresAt
    ensures IssuedAt(sys, cache, calls, k, later)
  {
    assert calls[..n][..k] == calls[..k] && calls[..n][..k + 1] == calls[..k + 1] && calls[..n][k] == calls[k];
  }

  lemma NewlyIssued(sys: Service, cache: CacheState, calls: seq<Call>, i: int)
    requires calls != []
    requires var (a, b) := (After(sys, Empty(cache), calls[..|calls| - 1]).db, After(sys, Empty(cache), calls).db);
             Wf(a) && i in b.otps && i !in a.otps
    ensures var b := After(sys, Empty(cache), calls).db; IsIssued(sys, cache, calls, b.users, b.otps[i])
  {
    var n := |calls| - 1;
    StepIssues(sys, After(sys, Empty(cache), calls[..n]), calls[n]);
    assert calls[..n + 1] == calls;
    assert IssuedAt(sys, cache, calls, n, After(sys, Empty(cache), calls).db.otps[i]);
  }

  lemma {:induction false} AfterIsIssued(sys: Service, cache: CacheState, calls: seq<Call>)
    ensures AllIssued(sys, cache, calls, After(sys, Empty(cache), calls).db)
  {
    if calls != [] {
      var n := |calls| - 1;
      AfterIsSound(sys, cache, calls[..n]);
      AfterIsIssued(sys, cache, calls[..n]);
      var s := After(sys, Empty(cache), calls[..n]);
      StepTables(sys, s, calls[n]);
      var b := After(sys, Empty(cache), calls).db;
      forall i | i in b.otps ensures IsIssued(sys, cache, calls, b.users, b.otps[i]) {
        if i in s.db.otps { StillIssued(sys, cache, calls, n, s.db, b, i); }
        else { NewlyIssued(sys, cache, calls, i); }
      }
    }
  }

  /** Call i issued to user u the code that call k presents, for this purpose, and it has not run out. */
  ghost predicate Enables(sys: Service, cache: CacheState, calls: seq<Call>, i: nat, k: nat, u: int,
                          purpose: Purpose, otpHash: string, code: string)
    requires k < |calls|
  {
    && i < k && Issues(calls[i].op, Answer(sys, Empty(cache), calls, i), purpose, otpHash)
    && Concerns(calls[i].op, purpose, After(sys, Empty(cache), calls[..i]).db,
                After(sys, Empty(cache), calls[..i + 1]).db, u)
    && calls[i].env.code == code && calls[k].env.now <= calls[i].env.now + sys.config.otpExpiry
  }

  lemma LiveOtpIsEnabled(sys: Service, cache: CacheState, calls: seq<Call>, k: nat, purpose: Purpose, otpHash: string,
                         code: string)
    requires k < |calls|
    requires var otp := LiveOtp(After(sys, Empty(cache), calls[..k]).db, otpHash, purpose);
             otp.Some? && Verify(otp.value.code, code) && calls[k].env.now <= otp.value.expiresAt
    ensures var uid := LiveOtp(After(sys, Empty(cache), calls[..k]).db, otpHash, purpose).value.userId;
            exists i: nat :: Enables(sys, cache, calls, i, k, uid, purpose, otpHash, code)
  {
    AfterIsIssued(sys, cache, calls[..k]);
    var db := After(sys, Empty(cache), calls[..k]).db;
    var otp := LiveOtp(db, otpHash, purpose).value;
    assert IsIssued(sys, cache, calls[..k], db.users, otp);
    var i: nat :| i < k && IssuedAt(sys, cache, calls[..k], i, otp);
    IssueEnables(sys, cache, calls, i, k, otp, code);
  }

  lemma IssueEnables(sys: Service, cache: CacheState, calls: seq<Call>, i: nat, k: nat, otp: Otp, code: string)
    requires i < k < |calls| && IssuedAt(sys, cache, calls[..k], i, otp)
    requires Verify(otp.code, code) && calls[k].env.now <= otp.expiresAt
    ensures Enables(sys, cache, calls, i, k, otp.userId, otp.purpose, otp.otpHash, code)
  {
    assert calls[..k][..i] == calls[..i] && calls[..k][..i + 1] == calls[..i + 1] && calls[..k][i] == calls[i];
  }

  // ---------------------------------------------------------------- accepted codes

  /** The user went from unverified to verified, under this name. */
  ghost predicate BecomesVerified(a: Store, b: Store, u: int, username: string) {
    && u in a.users && !a.users[u].verified
    && u in b.users && b.users[u].verified && b.users[u].username == Some(username)
  }

  /** The otp can be presented with this code at this time. */
  ghost predicate Presentable(db: Store, otpHash: string, purpose: Purpose, code: string, now: Time) {
    var otp := LiveOtp(db, otpHash, purpose);
    otp.Some? && Verify(otp.value.code, code) && now <= otp.value.expiresAt
  }

  lemma CheckAccepts(db: Store, otpHash: string, code: string, env: O.Env)
    requires O.CheckSignupOtp(db, otpHash, code, env).Ok?
    ensures var uid := O.CheckSignupOtp(db, otpHash, code, env).value;
            && Presentable(db, otpHash, SignupVerification, code, env.now)
            && uid == LiveOtp(db, otpHash, SignupVerification).value.userId
            && uid in db.users && !db.users[uid].verified
  {
  }

  lemma AdmissionAccepts(db: Store, otpHash: string, code: string, env: O.Env)
    requires O.AdmitByOtp(db, otpHash, code, env).1.Ok?
    ensures var (t, admitted) := O.AdmitByOtp(db, otpHash, code, env);
            && Presentable(db, otpHash, SignupVerification, code, env.now)
            && BecomesVerified(db, t, LiveOtp(db, otpHash, SignupVerification).value.userId, admitted.value.1)
  {
    CheckAccepts(db, otpHash, code, env);
  }

  lemma StepVerifies(sys: Service, s: O.State, c: Call)
    requires c.op.VerifyOtp? && sys.step(s, c).1.Verified?
    ensures var (t, answer) := sys.step(s, c);
            && Presentable(s.db, c.op.otpHash, SignupVerification, c.op.code, c.env.now)
            && BecomesVerified(s.db, t.db, LiveOtp(s.db, c.op.otpHash, SignupVerification).value.userId,
                               answer.username)
  {
    StepIs(sys, s, c);
    var (db, admitted) := O.AdmitByOtp(s.db, c.op.otpHash, c.op.code, c.env);
    AdmissionAccepts(s.db, c.op.otpHash, c.op.code, c.env);
    assert O.OpenSession(sys.config, s.(db := db), admitted.value.0, c.env).0.db.users == db.users;
  }

  lemma StepResets(sys: Service, s: O.State, c: Call)
    requires Wf(s.db) && c.op.Reset? && sys.step(s, c).1.PasswordReset?
    ensures Presentable(s.db, c.op.otpHash, ResetPassword, c.op.code, c.env.now)
    ensures var u := LiveOtp(s.db, c.op.otpHash, ResetPassword).value.userId;
            u in s.db.users && sys.step(s, c).0.db.credentials == s.db.credentials[u := Bcrypt(c.op.password)]
  {
    StepIs(sys, s, c);
  }

  /** Call k verifies user u with the code that call i issued to u. */
  ghost predicate VerifiesWith(sys: Service, cache: CacheState, calls: seq<Call>, k: nat, i: nat, u: int)
    requires k < |calls| && calls[k].op.VerifyOtp? && Answer(sys, Empty(cache), calls, k).Verified?
  {
    && BecomesVerified(After(sys, Empty(cache), calls[..k]).db, After(sys, Empty(cache), calls[..k + 1]).db, u,
                       Answer(sys, Empty(cache), calls, k).username)
    && Enables(sys, cache, calls, i, k, u, SignupVerification, calls[k].op.otpHash, calls[k].op.code)
  }

  /** Call k changes the password of u, and no other, with the code that call i issued to u. */
  ghost predicate ResetsWith(sys: Service, cache: CacheState, calls: seq<Call>, k: nat, i: nat, u: int)
    requires k < |calls| && calls[k].op.Reset?
  {
    var (a, b) := (After(sys, Empty(cache), calls[..k]).db, After(sys, Empty(cache), calls[..k + 1]).db);
    && u in a.users && b.credentials == a.credentials[u := Bcrypt(calls[k].op.password)]
    && Enables(sys, cache, calls, i, k, u, ResetPassword, calls[k].op.otpHash, calls[k].op.code)
  }

  /** VerifyOTP succeeds only with a code that Signup issued to that very user, whom it created, that
      is the right one and has not run out; and it is this user, until then unverified, that it
      verifies. */
  lemma VerifyNeedsSignup(sys: Service, cache: CacheState, calls: seq<Call>, k: nat)
    requires k < |calls| && calls[k].op.VerifyOtp? && Answer(sys, Empty(cache), calls, k).Verified?
    ensures exists i: nat, u: int :: VerifiesWith(sys, cache, calls, k, i, u)
  {
    AfterNext(sys, Empty(cache), calls, k);
    var s := After(sys, Empty(cache), calls[..k]);
    StepVerifies(sys, s, calls[k]);
    LiveOtpIsEnabled(sys, cache, calls, k, SignupVerification, calls[k].op.otpHash, calls[k].op.code);
    var u := LiveOtp(s.db, calls[k].op.otpHash, SignupVerification).value.userId;
    var i: nat :| Enables(sys, cache, calls, i, k, u, SignupVerification, calls[k].op.otpHash, calls[k].op.code);
    assert VerifiesWith(sys, cache, calls, k, i, u);
  }

  /** ResetPassword succeeds only with a code that ForgotPassword issued to that very user, who existed
      then, that is the right one and has not run out; and it changes this user's password and no other. */
  lemma ResetNeedsForgot(sys: Service, cache: CacheState, calls: seq<Call>, k: nat)
    requires k < |calls| && calls[k].op.Reset? && Answer(sys, Empty(cache), calls, k).PasswordReset?
    ensures exists i: nat, u: int :: ResetsWith(sys, cache, calls, k, i, u)
  {
    AfterIsSound(sys, cache, calls[..k]);
    AfterNext(sys, Empty(cache), calls, k);
    var s := After(sys, Empty(cache), calls[..k]);
    StepResets(sys, s, calls[k]);
    LiveOtpIsEnabled(sys, cache, calls, k, ResetPassword, calls[k].op.otpHash, calls[k].op.code);
    var u := LiveOtp(s.db, calls[k].op.otpHash, ResetPassword).value.userId;
    var i: nat :| Enables(sys, cache, calls, i, k, u, ResetPassword, calls[k].op.otpHash, calls[k].op.code);
    assert ResetsWith(sys, cache, calls, k, i, u);
  }

  // ---------------------------------------------------------------- once only

  /** No otp of this hash is left that could be presented. */
  ghost predicate Used(otps: map<int, Otp>, otpHash: string) {
    forall i :: i in otps && otps[i].otpHash == otpHash ==> otps[i].deletedAt.Some?
  }

  predicate Accepted(op: Op, answer: O.Response, otpHash: string) {
    || (op.VerifyOtp? && op.otpHash == otpHash && answer.Verified?)
    || (op.Reset? && op.otpHash == otpHash && answer.PasswordReset?)
  }

  lemma RetiredIsUsed(otps: map<int, Otp>, owners: set<int>, next: int, otpHash: string, purpose: Purpose, now: Time)
    requires OtpsWf(otps, owners, next)
    requires exists i :: i in otps && otps[i].otpHash == otpHash && otps[i].purpose == purpose
    ensures Used(SoftDeleteRows(otps, OtpsByHash(otps, otpHash, purpose), now), otpHash)
  {
  }

  lemma AdmissionUses(db: Store, otpHash: string, code: string, env: O.Env)
    requires Wf(db) && O.AdmitByOtp(db, otpHash, code, env).1.Ok?
    ensures Used(O.AdmitByOtp(db, otpHash, code, env).0.otps, otpHash)
  {
    RetiredIsUsed(db.otps, db.users.Keys, db.nextOtp, otpHash, SignupVerification, env.now);
  }

  lemma ResetUses(db: Store, otpHash: string, code: string, password: string, env: O.Env)
    requires Wf(db) && O.Reset(db, otpHash, code, password, env).1.PasswordReset?
    ensures Used(O.Reset(db, otpHash, code, password, env).0.otps, otpHash)
  {
    RetiredIsUsed(db.otps, db.users.Keys, db.nextOtp, otpHash, ResetPassword, env.now);
  }

  lemma StepUses(sys: Service, s: O.State, c: Call, otpHash: string)
    requires Wf(s.db) && Accepted(c.op, sys.step(s, c).1, otpHash)
    ensures Used(sys.step(s, c).0.db.otps, otpHash)
  {
    StepIs(sys, s, c);
    if c.op.Reset? {
      ResetUses(s.db, c.op.otpHash, c.op.code, c.op.password, c.env);
    } else {
      AdmissionUses(s.db, c.op.otpHash, c.op.code, c.env);
      VerifyIssuesNothing(sys.config, s, c.op.otpHash, c.op.code, c.env);
    }
  }

  lemma UsedIsRefused(sys: Service, s: O.State, c: Call, otpHash: string)
    requires Used(s.db.otps, otpHash)
    ensures !Accepted(c.op, sys.step(s, c).1, otpHash)
    ensures c.op.Reset? && c.op.otpHash == otpHash ==> sys.step(s, c).1.Rejected?
  {
    StepIs(sys, s, c);
  }

  lemma UsedStays(a: map<int, Otp>, next: int, b: map<int, Otp>, otpHash: string, drawn: string)
    requires Used(a, otpHash) && OtpsEvolve(a, next, b) && drawn != otpHash
    requires forall i :: i in b && i !in a ==> b[i].otpHash == drawn
    ensures Used(b, otpHash)
  {
  }

  lemma {:induction false} UsedForGood(sys: Service, cache: CacheState, calls: seq<Call>, m: nat, n: nat,
                                       otpHash: string)
    requires m <= n <= |calls| && Used(After(sys, Empty(cache), calls[..m]).db.otps, otpHash)
    requires forall k :: m <= k < n ==> calls[k].env.otpHash != otpHash
    ensures Used(After(sys, Empty(cache), calls[..n]).db.otps, otpHash)
  {
    if m < n {
      UsedForGood(sys, cache, calls, m, n - 1, otpHash);
      AfterIsSound(sys, cache, calls[..n - 1]);
      AfterNext(sys, Empty(cache), calls, n - 1);
      var s := After(sys, Empty(cache), calls[..n - 1]);
      StepTables(sys, s, calls[n - 1]);
      UsedStays(s.db.otps, s.db.nextOtp, After(sys, Empty(cache), calls[..n]).db.otps, otpHash,
                calls[n - 1].env.otpHash);
    }
  }

  /** Each otp hash is good for at most one success, of whichever operation. */
  lemma OneSuccessPerCode(sys: Service, cache: CacheState, calls: seq<Call>, i: nat, j: nat, otpHash: string)
    requires Lawful(calls) && i < j < |calls|
    requires Accepted(calls[i].op, Answer(sys, Empty(cache), calls, i), otpHash)
    ensures !Accepted(calls[j].op, Answer(sys, Empty(cache), calls, j), otpHash)
  {
    AfterIsSound(sys, cache, calls[..i]);
    AfterNext(sys, Empty(cache), calls, i);
    StepUses(sys, After(sys, Empty(cache), calls[..i]), calls[i], otpHash);
    AcceptedWasDrawn(sys, cache, calls, i, otpHash);
    UsedForGood(sys, cache, calls, i + 1, j, otpHash);
    UsedIsRefused(sys, After(sys, Empty(cache), calls[..j]), calls[j], otpHash);
  }

  lemma AcceptedWasDrawn(sys: Service, cache: CacheState, calls: seq<Call>, i: nat, otpHash: string)
    requires Lawful(calls) && i < |calls| && Accepted(calls[i].op, Answer(sys, Empty(cache), calls, i), otpHash)
    ensures forall k :: i <= k < |calls| ==> calls[k].env.otpHash != otpHash
  {
    AfterIsSound(sys, cache, calls[..i]);
    var db := After(sys, Empty(cache), calls[..i]).db;
    if Used(db.otps, otpHash) { UsedIsRefused(sys, After(sys, Empty(cache), calls[..i]), calls[i], otpHash); }
    var x :| x in db.otps && db.otps[x].otpHash == otpHash;
    var k :| 0 <= k < i && db.otps[x].otpHash == calls[..i][k].env.otpHash;
    assert calls[..i][k] == calls[k];
  }

  // ---------------------------------------------------------------- verified once

  ghost predicate VerifiedOrGone(db: Store, u: int) {
    u < db.nextUser && (u in db.users ==> db.users[u].verified)
  }

  lemma {:induction false} VerifiedForGood(sys: Service, cache: CacheState, calls: seq<Call>, m: nat, n: nat, u: int)
    requires m <= n <= |calls| && VerifiedOrGone(After(sys, Empty(cache), calls[..m]).db, u)
    ensures VerifiedOrGone(After(sys, Empty(cache), calls[..n]).db, u)
  {
    if m < n {
      VerifiedForGood(sys, cache, calls, m, n - 1, u);
      AfterIsSound(sys, cache, calls[..n - 1]);
      AfterNext(sys, Empty(cache), calls, n - 1);
      StepKeepsVerified(sys, After(sys, Empty(cache), calls[..n - 1]), calls[n - 1], u);
    }
  }

  lemma StepKeepsVerified(sys: Service, s: O.State, c: Call, u: int)
    requires Wf(s.db) && VerifiedOrGone(s.db, u)
    ensures VerifiedOrGone(sys.step(s, c).0.db, u)
  {
    StepTables(sys, s, c);
  }

  /** A user is verified by at most one call of a run, even where the code could not be deleted. */
  lemma VerifiedAtMostOnce(sys: Service, cache: CacheState, calls: seq<Call>, i: nat, j: nat, u: int, v: string,
                           w: string)
    requires i < j < |calls|
    requires BecomesVerified(After(sys, Empty(cache), calls[..i]).db, After(sys, Empty(cache), calls[..i + 1]).db, u, v)
    ensures !BecomesVerified(After(sys, Empty(cache), calls[..j]).db, After(sys, Empty(cache), calls[..j + 1]).db, u, w)
  {
    AfterIsSound(sys, cache, calls[..i + 1]);
    VerifiedForGood(sys, cache, calls, i + 1, j, u);
  }
}
