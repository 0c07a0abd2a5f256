/** The cleanup worker cannot be noticed: a run with its rounds anywhere in it against the same run
    without them. */
module CleanupSimulation {
  import opened Domain
  import opened Tables
  import opened CacheStates
  import opened Runs
  import O = Operations
  import Usernames

  // ---------------------------------------------------------------- the simulation relation

  predicate KeptSession(s: Session, now: Time) {
    s.deletedAt == None && now <= s.expiresAt
  }

  predicate KeptOtp(o: Otp, now: Time) {
    o.deletedAt == None && now <= o.expiresAt
  }

  ghost predicate SessionsWithin(a: map<int, Session>, b: map<int, Session>, now: Time) {
    forall i :: i in a && KeptSession(a[i], now) ==> i in b && b[i] == a[i]
  }

  ghost predicate OtpsWithin(a: map<int, Otp>, b: map<int, Otp>, now: Time) {
    forall i :: i in a && KeptOtp(a[i], now) ==> i in b && b[i] == a[i]
  }

  ghost predicate SessionsAlike(a: map<int, Session>, b: map<int, Session>, now: Time) {
    SessionsWithin(a, b, now) && SessionsWithin(b, a, now)
  }

  ghost predicate OtpsAlike(a: map<int, Otp>, b: map<int, Otp>, now: Time) {
    OtpsWithin(a, b, now) && OtpsWithin(b, a, now)
  }

  ghost predicate SameAccounts(a: Store, b: Store) {
    && a.users == b.users && a.credentials == b.credentials && a.links == b.links
    && a.nextUser == b.nextUser && a.nextOtp == b.nextOtp && a.nextSession == b.nextSession
  }

  /** The same accounts, and the same rows among those neither deleted nor past their expiry. */
  ghost predicate Alike(a: Store, b: Store, now: Time) {
    SameAccounts(a, b) && SessionsAlike(a.sessions, b.sessions, now) && OtpsAlike(a.otps, b.otps, now)
  }

  /** Equal answers, or two errors. */
  predicate SameButError(r: O.Response, q: O.Response) {
    r == q || (r.Rejected? && q.Rejected?)
  }

  ghost predicate NewToken(sessions: map<int, Session>, h: TokenHash) {
    forall i :: i in sessions ==> sessions[i].tokenHash != h
  }

  ghost predicate NewOtp(otps: map<int, Otp>, otpHash: string) {
    forall i :: i in otps ==> otps[i].otpHash != otpHash
  }

  /** What the call would draw is new to the tables. */
  ghost predicate Fresh(cfg: O.Config, db: Store, env: O.Env) {
    NewToken(db.sessions, HashToken(env.token, cfg.secret)) && NewOtp(db.otps, env.otpHash)
  }

  ghost predicate Simulates(a: O.State, b: O.State, now: Time) {
    Alike(a.db, b.db, now) && a.cache == b.cache
  }

  /** The hypotheses under which one call is compared. */
  ghost predicate Comparable(cfg: O.Config, a: Store, b: Store, env: O.Env) {
    Alike(a, b, env.now) && Fresh(cfg, a, env) && Fresh(cfg, b, env)
  }

  // ---------------------------------------------------------------- statements

  lemma AlikeLive(a: Store, b: Store, h: TokenHash, now: Time)
    requires Wf(a) && Wf(b) && Alike(a, b, now)
    ensures var (r, q) := (LiveSession(a, h), LiveSession(b, h));
            (r.Some? && KeptSession(r.value, now)) || (q.Some? && KeptSession(q.value, now)) ==> r == q
  {
  }

  lemma AlikeOtp(a: Store, b: Store, otpHash: string, purpose: Purpose, now: Time)
    requires Wf(a) && Wf(b) && Alike(a, b, now)
    ensures var (r, q) := (LiveOtp(a, otpHash, purpose), LiveOtp(b, otpHash, purpose));
            (r.Some? && KeptOtp(r.value, now)) || (q.Some? && KeptOtp(q.value, now)) ==> r == q
  {
  }

  lemma AlikeAddSession(a: map<int, Session>, b: map<int, Session>, id: int, s: Session, now: Time)
    requires SessionsAlike(a, b, now)
    ensures SessionsAlike(a[id := s], b[id := s], now)
  {
  }

  lemma FreshInsertSession(db: Store, uid: int, h: TokenHash, expiresAt: Time, now: Time)
    requires NewToken(db.sessions, h)
    ensures var drawn := db.(nextSession := db.nextSession + 1);
            var s := Session(db.nextSession, uid, h, expiresAt, None, now);
            InsertSession(db, uid, h, expiresAt, now, true)
            == if uid !in db.users then (drawn, None)
               else (drawn.(sessions := db.sessions[db.nextSession := s]), Some(s))
  {
  }

  lemma AlikeInsertSession(cfg: O.Config, a: Store, b: Store, uid: int, expiresAt: Time, env: O.Env, ok: bool)
    requires Comparable(cfg, a, b, env)
    ensures var h := HashToken(env.token, cfg.secret);
            var (r, q) := (InsertSession(a, uid, h, expiresAt, env.now, ok),
                           InsertSession(b, uid, h, expiresAt, env.now, ok));
            Alike(r.0, q.0, env.now) && r.1 == q.1
  {
    var h := HashToken(env.token, cfg.secret);
    FreshInsertSession(a, uid, h, expiresAt, env.now);
    FreshInsertSession(b, uid, h, expiresAt, env.now);
    AlikeAddSession(a.sessions, b.sessions, a.nextSession, Session(a.nextSession, uid, h, expiresAt, None, env.now),
                    env.now);
  }

  lemma AlikeOpen(cfg: O.Config, a: O.State, b: O.State, uid: int, env: O.Env)
    requires Comparable(cfg, a.db, b.db, env) && a.cache == b.cache
    ensures var (r, q) := (O.OpenSession(cfg, a, uid, env), O.OpenSession(cfg, b, uid, env));
            Simulates(r.0, q.0, env.now) && r.1 == q.1
  {
    AlikeInsertSession(cfg, a.db, b.db, uid, env.now + cfg.ttl, env, CreateSession !in env.faults);
  }

  lemma AlikeAddOtp(a: map<int, Otp>, b: map<int, Otp>, id: int, o: Otp, now: Time)
    requires OtpsAlike(a, b, now)
    ensures OtpsAlike(a[id := o], b[id := o], now)
  {
  }

  /** With a new hash, an INSERT into otps fails only for want of a user. */
  lemma FreshInsertOtp(db: Store, uid: int, otpHash: string, code: Digest, purpose: Purpose, expiresAt: Time, now: Time)
    requires NewOtp(db.otps, otpHash)
    ensures var drawn := db.(nextOtp := db.nextOtp + 1);
            InsertOtp(db, uid, otpHash, code, purpose, expiresAt, now, true)
            == if uid !in db.users then (drawn, false)
               else (drawn.(otps := db.otps[db.nextOtp :=
                                            Otp(db.nextOtp, uid, otpHash, code, purpose, expiresAt, None, now)]), true)
  {
  }

  lemma AlikeIssue(cfg: O.Config, a: Store, b: Store, uid: int, purpose: Purpose, env: O.Env)
    requires Comparable(cfg, a, b, env)
    ensures var (r, q) := (O.Issue(cfg, a, uid, purpose, env), O.Issue(cfg, b, uid, purpose, env));
            Alike(r.0, q.0, env.now) && r.1 == q.1
  {
    var expiresAt := env.now + cfg.otpExpiry;
    FreshInsertOtp(a, uid, env.otpHash, Bcrypt(env.code), purpose, expiresAt, env.now);
    FreshInsertOtp(b, uid, env.otpHash, Bcrypt(env.code), purpose, expiresAt, env.now);
    AlikeAddOtp(a.otps, b.otps, a.nextOtp,
                Otp(a.nextOtp, uid, env.otpHash, Bcrypt(env.code), purpose, expiresAt, None, env.now), env.now);
  }

  lemma SameNamesTaken(a: Store, b: Store, email: string, name: string)
    requires a.users == b.users
    ensures EmailTaken(a, email) == EmailTaken(b, email) && UsernameTaken(a, name) == UsernameTaken(b, name)
  {
  }

  /** CreateUser looks at users only, and leaves everything but users and credentials alone. */
  lemma CreationApart(st: Store, email: string, username: Option<string>, verified: bool, digest: Digest, env: O.Env)
    ensures var t := CreateUser(st, email, username, verified, digest, env.now, env.faults).0;
            && t.otps == st.otps && t.sessions == st.sessions && t.links == st.links
            && t.nextOtp == st.nextOtp && t.nextSession == st.nextSession
  {
  }

  lemma SameCreation(a: Store, b: Store, email: string, username: Option<string>, verified: bool, digest: Digest,
                     env: O.Env)
    requires a.users == b.users && a.credentials == b.credentials && a.nextUser == b.nextUser
    ensures var (r, q) := (CreateUser(a, email, username, verified, digest, env.now, env.faults),
                           CreateUser(b, email, username, verified, digest, env.now, env.faults));
            && r.1 == q.1 && r.0.users == q.0.users && r.0.credentials == q.0.credentials
            && r.0.nextUser == q.0.nextUser
  {
    SameNamesTaken(a, b, email, if username.Some? then username.value else "");
  }

  lemma AlikeCreateUser(cfg: O.Config, a: Store, b: Store, email: string, username: Option<string>, verified: bool,
                        digest: Digest, env: O.Env)
    requires Comparable(cfg, a, b, env)
    ensures var (r, q) := (CreateUser(a, email, username, verified, digest, env.now, env.faults),
                           CreateUser(b, email, username, verified, digest, env.now, env.faults));
            Comparable(cfg, r.0, q.0, env) && r.1 == q.1
  {
    CreationApart(a, email, username, verified, digest, env);
    CreationApart(b, email, username, verified, digest, env);
    SameCreation(a, b, email, username, verified, digest, env);
  }

  lemma AlikeRetireOtps(a: map<int, Otp>, b: map<int, Otp>, hitsA: set<int>, hitsB: set<int>, now: Time, at: Time)
    requires OtpsAlike(a, b, now)
    requires forall i :: i in a && i in b && a[i] == b[i] ==> (i in hitsA <==> i in hitsB)
    ensures OtpsAlike(SoftDeleteRows(a, hitsA, at), SoftDeleteRows(b, hitsB, at), now)
  {
  }

  lemma AlikeRetire(cfg: O.Config, a: Store, b: Store, otpHash: string, purpose: Purpose, env: O.Env)
    requires Comparable(cfg, a, b, env)
    ensures Comparable(cfg, RetireOtp(a, otpHash, purpose, env.now, true),
                       RetireOtp(b, otpHash, purpose, env.now, true), env)
  {
    AlikeRetireOtps(a.otps, b.otps, OtpsByHash(a.otps, otpHash, purpose), OtpsByHash(b.otps, otpHash, purpose), env.now,
                    env.now);
  }

  lemma AlikeRetireOf(cfg: O.Config, a: Store, b: Store, uid: int, purpose: Purpose, env: O.Env, ok: bool)
    requires Comparable(cfg, a, b, env)
    ensures Comparable(cfg, RetireOtpsOf(a, uid, purpose, env.now, ok), RetireOtpsOf(b, uid, purpose, env.now, ok), env)
  {
    AlikeRetireOtps(a.otps, b.otps, OtpsByUser(a.otps, uid, purpose), OtpsByUser(b.otps, uid, purpose), env.now,
                    env.now);
  }

  lemma AlikePickName(a: Store, b: Store, email: string, draws: seq<O.Draw>, tries: nat)
    requires a.users == b.users
    ensures O.PickName(a, email, draws, tries) == O.PickName(b, email, draws, tries)
  {
  }

  lemma AlikeByEmail(a: Store, b: Store, email: string)
    requires a.users == b.users && Wf(a)
    ensures UserByEmail(a, email) == UserByEmail(b, email)
  {
  }

  // ---------------------------------------------------------------- operations

  lemma WelcomeUnseen(cfg: O.Config, a: Store, b: Store, uid: Option<int>, env: O.Env)
    requires Comparable(cfg, a, b, env)
    ensures var (r, q) := (O.Welcome(cfg, a, uid, env), O.Welcome(cfg, b, uid, env));
            Alike(r.0, q.0, env.now) && r.1 == q.1
  {
    if uid.Some? { AlikeIssue(cfg, a, b, uid.value, SignupVerification, env); }
  }

  lemma SignupUnseen(cfg: O.Config, a: Store, b: Store, email: string, password: string, env: O.Env)
    requires Comparable(cfg, a, b, env)
    ensures var (r, q) := (O.Signup(cfg, a, email, password, env), O.Signup(cfg, b, email, password, env));
            Alike(r.0, q.0, env.now) && r.1 == q.1
  {
    AlikeCreateUser(cfg, a, b, email, None, false, Bcrypt(password), env);
    var (a', uid) := CreateUser(a, email, None, false, Bcrypt(password), env.now, env.faults);
    var b' := CreateUser(b, email, None, false, Bcrypt(password), env.now, env.faults).0;
    WelcomeUnseen(cfg, a', b', uid, env);
  }

  lemma CheckSignupOtpUnseen(a: Store, b: Store, otpHash: string, code: string, env: O.Env)
    requires Wf(a) && Wf(b) && Alike(a, b, env.now)
    ensures var (r, q) := (O.CheckSignupOtp(a, otpHash, code, env), O.CheckSignupOtp(b, otpHash, code, env));
            r == q || (r.Err? && q.Err?)
  {
    AlikeOtp(a, b, otpHash, SignupVerification, env.now);
  }

  lemma AdmitByOtpUnseen(cfg: O.Config, a: Store, b: Store, otpHash: string, code: string, env: O.Env)
    requires Wf(a) && Wf(b) && Comparable(cfg, a, b, env)
    ensures var (r, q) := (O.AdmitByOtp(a, otpHash, code, env), O.AdmitByOtp(b, otpHash, code, env));
            Comparable(cfg, r.0, q.0, env) && (r.1 == q.1 || (r.1.Err? && q.1.Err?))
  {
    CheckSignupOtpUnseen(a, b, otpHash, code, env);
    var uid := O.CheckSignupOtp(a, otpHash, code, env);
    AdmissionFollows(a, otpHash, code, env);
    AdmissionFollows(b, otpHash, code, env);
    if uid.Ok? {
      AlikePickName(a, b, a.users[uid.value].email, env.draws, Usernames.MAX_TRIES);
      NamedUnseen(cfg, a, b, uid.value, O.PickName(a, a.users[uid.value].email, env.draws, Usernames.MAX_TRIES),
                  otpHash, env);
    }
  }

  lemma AdmissionFollows(db: Store, otpHash: string, code: string, env: O.Env)
    ensures var uid := O.CheckSignupOtp(db, otpHash, code, env);
            var r := O.AdmitByOtp(db, otpHash, code, env);
            if uid.Err? then r.0 == db && r.1.Err?
            else
              && uid.value in db.users
              && var name := O.PickName(db, db.users[uid.value].email, env.draws, Usernames.MAX_TRIES);
                 r == O.AdmitNamed(db, uid.value, name, otpHash, env)
  {
  }

  lemma NamedUnseen(cfg: O.Config, a: Store, b: Store, uid: int, name: Option<string>, otpHash: string, env: O.Env)
    requires Comparable(cfg, a, b, env)
    ensures var (r, q) := (O.AdmitNamed(a, uid, name, otpHash, env), O.AdmitNamed(b, uid, name, otpHash, env));
            Comparable(cfg, r.0, q.0, env) && r.1 == q.1
  {
    if name.Some? { AdmissionUnseen(cfg, a, b, uid, name.value, otpHash, env); }
  }

  /** The two writes of an admission: the mark on the user, and the end of the code. */
  lemma AdmissionUnseen(cfg: O.Config, a: Store, b: Store, uid: int, name: string, otpHash: string, env: O.Env)
    requires Comparable(cfg, a, b, env)
    ensures var ok := UpdateVerified !in env.faults;
            var (r, q) := (MarkVerified(a, uid, name, ok), MarkVerified(b, uid, name, ok));
            && r.1 == q.1 && Comparable(cfg, r.0, q.0, env)
            && Comparable(cfg, RetireOtp(r.0, otpHash, SignupVerification, env.now, true),
                          RetireOtp(q.0, otpHash, SignupVerification, env.now, true), env)
  {
    MarkUnseen(cfg, a, b, uid, name, env);
    var ok := UpdateVerified !in env.faults;
    AlikeRetire(cfg, MarkVerified(a, uid, name, ok).0, MarkVerified(b, uid, name, ok).0, otpHash, SignupVerification,
                env);
  }

  lemma MarkUnseen(cfg: O.Config, a: Store, b: Store, uid: int, name: string, env: O.Env)
    requires Comparable(cfg, a, b, env)
    ensures var ok := UpdateVerified !in env.faults;
            var (r, q) := (MarkVerified(a, uid, name, ok), MarkVerified(b, uid, name, ok));
            Comparable(cfg, r.0, q.0, env) && r.1 == q.1
  {
  }

  lemma VerifyOtpUnseen(cfg: O.Config, a: O.State, b: O.State, otpHash: string, code: string, env: O.Env)
    requires Wf(a.db) && Wf(b.db) && Comparable(cfg, a.db, b.db, env) && a.cache == b.cache
    ensures var (r, q) := (O.VerifyOtp(cfg, a, otpHash, code, env), O.VerifyOtp(cfg, b, otpHash, code, env));
            Simulates(r.0, q.0, env.now) && SameButError(r.1, q.1)
  {
    AdmitByOtpUnseen(cfg, a.db, b.db, otpHash, code, env);
    var (a', admitted) := O.AdmitByOtp(a.db, otpHash, code, env);
    var b' := O.AdmitByOtp(b.db, otpHash, code, env).0;
    if admitted.Ok? { AlikeOpen(cfg, a.(db := a'), b.(db := b'), admitted.value.0, env); }
  }

  lemma OpenForUnseen(cfg: O.Config, a: O.State, b: O.State, a': Store, b': Store, admitted: Result<int>, env: O.Env)
    requires Comparable(cfg, a', b', env) && a.cache == b.cache
    ensures var (r, q) := (O.OpenFor(cfg, a, a', admitted, env), O.OpenFor(cfg, b, b', admitted, env));
            Simulates(r.0, q.0, env.now) && r.1 == q.1
  {
    if admitted.Ok? { AlikeOpen(cfg, a.(db := a'), b.(db := b'), admitted.value, env); }
  }

  lemma TouchUserUnseen(cfg: O.Config, a: Store, b: Store, uid: int, env: O.Env, ok: bool)
    requires Comparable(cfg, a, b, env)
    ensures Comparable(cfg, TouchUser(a, uid, env.now, ok), TouchUser(b, uid, env.now, ok), env)
  {
  }

  lemma AdmitByPasswordUnseen(cfg: O.Config, a: Store, b: Store, email: string, password: string, env: O.Env)
    requires Wf(a) && Comparable(cfg, a, b, env)
    ensures var (r, q) := (O.AdmitByPassword(a, email, password, env), O.AdmitByPassword(b, email, password, env));
            Comparable(cfg, r.0, q.0, env) && r.1 == q.1
  {
    AlikeByEmail(a, b, email);
    var u := UserByEmail(a, email);
    if u.Some? { TouchUserUnseen(cfg, a, b, u.value, env, UpdateUserLastLogin !in env.faults); }
  }

  lemma LoginUnseen(cfg: O.Config, a: O.State, b: O.State, email: string, password: string, env: O.Env)
    requires Wf(a.db) && Comparable(cfg, a.db, b.db, env) && a.cache == b.cache
    ensures var (r, q) := (O.Login(cfg, a, email, password, env), O.Login(cfg, b, email, password, env));
            Simulates(r.0, q.0, env.now) && r.1 == q.1
  {
    AdmitByPasswordUnseen(cfg, a.db, b.db, email, password, env);
    var (a', admitted) := O.AdmitByPassword(a.db, email, password, env);
    var b' := O.AdmitByPassword(b.db, email, password, env).0;
    OpenForUnseen(cfg, a, b, a', b', admitted, env);
  }

  lemma TouchLinkUnseen(cfg: O.Config, a: Store, b: Store, key: LinkKey, env: O.Env, ok: bool)
    requires Comparable(cfg, a, b, env)
    ensures Comparable(cfg, TouchLink(a, key, env.now, ok), TouchLink(b, key, env.now, ok), env)
  {
  }

  lemma AdmitByProviderUnseen(cfg: O.Config, a: Store, b: Store, key: LinkKey, email: string, env: O.Env)
    requires Comparable(cfg, a, b, env)
    ensures var (r, q) := (O.AdmitByProvider(a, key, email, env), O.AdmitByProvider(b, key, email, env));
            Comparable(cfg, r.0, q.0, env) && r.1 == q.1
  {
    if key in a.links { TouchLinkUnseen(cfg, a, b, key, env, UpdateLinkLastLogin !in env.faults); }
    else { NewcomerUnseen(cfg, a, b, key, email, env); }
  }

  lemma NewcomerUnseen(cfg: O.Config, a: Store, b: Store, key: LinkKey, email: string, env: O.Env)
    requires Comparable(cfg, a, b, env) && key !in a.links
    ensures var (r, q) := (O.AdmitByProvider(a, key, email, env), O.AdmitByProvider(b, key, email, env));
            Comparable(cfg, r.0, q.0, env) && r.1 == q.1
  {
    SameNamesTaken(a, b, email, "");
    AlikePickName(a, b, email, env.draws, Usernames.MAX_TRIES);
    var name := O.PickName(a, email, env.draws, Usernames.MAX_TRIES);
    if name.Some? { EnrolUnseen(cfg, a, b, key, email, name.value, env); }
  }

  lemma LinkingApart(st: Store, key: LinkKey, uid: int, env: O.Env, ok: bool)
    ensures var t := InsertLink(st, key, uid, env.now, ok).0; t == st.(links := t.links)
  {
  }

  lemma SameLinking(a: Store, b: Store, key: LinkKey, uid: int, env: O.Env, ok: bool)
    requires a.users == b.users && a.links == b.links
    ensures var (r, q) := (InsertLink(a, key, uid, env.now, ok), InsertLink(b, key, uid, env.now, ok));
            r.0.links == q.0.links && r.1 == q.1
  {
  }

  lemma LinkUnseen(cfg: O.Config, a: Store, b: Store, key: LinkKey, uid: int, env: O.Env, ok: bool)
    requires Comparable(cfg, a, b, env)
    ensures var (r, q) := (InsertLink(a, key, uid, env.now, ok), InsertLink(b, key, uid, env.now, ok));
            Comparable(cfg, r.0, q.0, env) && r.1 == q.1
  {
    LinkingApart(a, key, uid, env, ok);
    LinkingApart(b, key, uid, env, ok);
    SameLinking(a, b, key, uid, env, ok);
  }

  lemma EnrolUnseen(cfg: O.Config, a: Store, b: Store, key: LinkKey, email: string, name: string, env: O.Env)
    requires Comparable(cfg, a, b, env)
    ensures var (r, q) := (O.Enrol(a, key, email, name, env), O.Enrol(b, key, email, name, env));
            Comparable(cfg, r.0, q.0, env) && r.1 == q.1
  {
    AlikeCreateUser(cfg, a, b, email, Some(name), true, Blank, env);
    var (a', uid) := CreateUser(a, email, Some(name), true, Blank, env.now, env.faults);
    var b' := CreateUser(b, email, Some(name), true, Blank, env.now, env.faults).0;
    if uid.Some? { LinkUnseen(cfg, a', b', key, uid.value, env, CreateLink !in env.faults); }
  }

  lemma ExchangeUnseen(cfg: O.Config, a: O.State, b: O.State, key: LinkKey, email: string, env: O.Env)
    requires Comparable(cfg, a.db, b.db, env) && a.cache == b.cache
    ensures var (r, q) := (O.Exchange(cfg, a, key, email, env), O.Exchange(cfg, b, key, email, env));
            Simulates(r.0, q.0, env.now) && r.1 == q.1
  {
    AdmitByProviderUnseen(cfg, a.db, b.db, key, email, env);
    var (a', admitted) := O.AdmitByProvider(a.db, key, email, env);
    var b' := O.AdmitByProvider(b.db, key, email, env).0;
    OpenForUnseen(cfg, a, b, a', b', admitted, env);
  }

  lemma ValidateUnseen(cfg: O.Config, a: O.State, b: O.State, token: string, env: O.Env)
    requires Wf(a.db) && Wf(b.db) && Simulates(a, b, env.now)
    ensures O.Validate(cfg, a, token, env) == O.Validate(cfg, b, token, env)
  {
    var h := HashToken(token, cfg.secret);
    AlikeLive(a.db, b.db, h, env.now);
    assert TokenOwner(a.db, h, env.now) == TokenOwner(b.db, h, env.now);
  }

  lemma CheckTokenUnseen(cfg: O.Config, a: Store, b: Store, token: string, env: O.Env)
    requires Wf(a) && Wf(b) && Alike(a, b, env.now)
    ensures var (r, q) := (O.CheckToken(cfg, a, token, env), O.CheckToken(cfg, b, token, env));
            && (r == q || (r.Err? && q.Err?))
            && (r.Ok? ==> r.value.id in a.sessions && a.sessions[r.value.id] == r.value
                          && r.value.id in b.sessions && b.sessions[r.value.id] == r.value
                          && r.value.userId in a.users)
  {
    AlikeLive(a, b, HashToken(token, cfg.secret), env.now);
  }

  lemma RefreshUnseen(cfg: O.Config, a: O.State, b: O.State, token: string, env: O.Env)
    requires Wf(a.db) && Wf(b.db) && Comparable(cfg, a.db, b.db, env) && a.cache == b.cache
    ensures var (r, q) := (O.Refresh(cfg, a, token, env), O.Refresh(cfg, b, token, env));
            Simulates(r.0, q.0, env.now) && SameButError(r.1, q.1)
  {
    CheckTokenUnseen(cfg, a.db, b.db, token, env);
    var row := O.CheckToken(cfg, a.db, token, env);
    if row.Ok? { RotateUnseen(cfg, a, b, row.value, env); }
  }

  lemma RotateUnseen(cfg: O.Config, a: O.State, b: O.State, row: Session, env: O.Env)
    requires Comparable(cfg, a.db, b.db, env) && a.cache == b.cache && row.userId in a.db.users
    requires row.id in a.db.sessions && a.db.sessions[row.id] == row && row.id in b.db.sessions
    requires b.db.sessions[row.id] == row
    ensures var (r, q) := (O.Rotate(cfg, a, row, env), O.Rotate(cfg, b, row, env));
            Simulates(r.0, q.0, env.now) && r.1 == q.1
  {
    var row' := O.Renewed(cfg, row, env);
    FreshUpdate(a.db, row');
    FreshUpdate(b.db, row');
    AlikeAddSession(a.db.sessions, b.db.sessions, row'.id, row', env.now);
  }

  lemma FreshUpdate(db: Store, s: Session)
    requires NewToken(db.sessions, s.tokenHash) && s.id in db.sessions && s.userId in db.users
    requires s.createdAt == db.sessions[s.id].createdAt
    ensures UpdateSessionRow(db, s, true) == (db.(sessions := db.sessions[s.id := s]), true)
  {
  }

  lemma LogoutUnseen(cfg: O.Config, a: O.State, b: O.State, token: string, env: O.Env)
    requires Wf(a.db) && Wf(b.db) && Simulates(a, b, env.now)
    ensures var (r, q) := (O.Logout(cfg, a, token, env), O.Logout(cfg, b, token, env));
            Simulates(r.0, q.0, env.now) && SameButError(r.1, q.1)
  {
    CheckTokenUnseen(cfg, a.db, b.db, token, env);
    var row := O.CheckToken(cfg, a.db, token, env);
    if row.Ok? {
      AlikeAddSession(a.db.sessions, b.db.sessions, row.value.id, row.value.(deletedAt := Some(env.now)), env.now);
    }
  }

  lemma ReissueUnseen(cfg: O.Config, a: Store, b: Store, uid: int, env: O.Env)
    requires Comparable(cfg, a, b, env)
    ensures var (r, q) := (O.Reissue(cfg, a, uid, env), O.Reissue(cfg, b, uid, env));
            Alike(r.0, q.0, env.now) && r.1 == q.1
  {
    var ok := SoftDeleteOtpsOfUser !in env.faults;
    AlikeRetireOf(cfg, a, b, uid, ResetPassword, env, ok);
    AlikeIssue(cfg, RetireOtpsOf(a, uid, ResetPassword, env.now, ok), RetireOtpsOf(b, uid, ResetPassword, env.now, ok),
               uid, ResetPassword, env);
  }

  lemma ForgotUnseen(cfg: O.Config, a: Store, b: Store, email: string, env: O.Env)
    requires Wf(a) && Comparable(cfg, a, b, env)
    ensures var (r, q) := (O.ForgotPassword(cfg, a, email, env), O.ForgotPassword(cfg, b, email, env));
            Alike(r.0, q.0, env.now) && r.1 == q.1
  {
    AlikeByEmail(a, b, email);
    var u := UserByEmail(a, email);
    if u.Some? { ReissueUnseen(cfg, a, b, u.value, env); }
  }

  lemma CheckResetOtpUnseen(a: Store, b: Store, otpHash: string, code: string, env: O.Env)
    requires Wf(a) && Wf(b) && Alike(a, b, env.now)
    ensures var (r, q) := (O.CheckResetOtp(a, otpHash, code, env), O.CheckResetOtp(b, otpHash, code, env));
            r == q || (r.Err? && q.Err?)
  {
    AlikeOtp(a, b, otpHash, ResetPassword, env.now);
  }

  lemma SetPasswordUnseen(cfg: O.Config, a: Store, b: Store, uid: int, digest: Digest, env: O.Env)
    requires Comparable(cfg, a, b, env)
    ensures Comparable(cfg, SetPassword(a, uid, digest, true), SetPassword(b, uid, digest, true), env)
  {
  }

  lemma StorePasswordUnseen(cfg: O.Config, a: Store, b: Store, otpHash: string, uid: int, password: string, env: O.Env)
    requires Comparable(cfg, a, b, env)
    ensures var (r, q) := (O.StorePassword(a, otpHash, uid, password, env),
                           O.StorePassword(b, otpHash, uid, password, env));
            Alike(r.0, q.0, env.now) && r.1 == q.1
  {
    SetPasswordUnseen(cfg, a, b, uid, Bcrypt(password), env);
    AlikeRetire(cfg, SetPassword(a, uid, Bcrypt(password), true), SetPassword(b, uid, Bcrypt(password), true), otpHash,
                ResetPassword, env);
  }

  lemma ResetUnseen(cfg: O.Config, a: Store, b: Store, otpHash: string, code: string, password: string, env: O.Env)
    requires Wf(a) && Wf(b) && Comparable(cfg, a, b, env)
    ensures var (r, q) := (O.Reset(a, otpHash, code, password, env), O.Reset(b, otpHash, code, password, env));
            Alike(r.0, q.0, env.now) && SameButError(r.1, q.1)
  {
    CheckResetOtpUnseen(a, b, otpHash, code, env);
    var uid := O.CheckResetOtp(a, otpHash, code, env);
    if uid.Ok? { StorePasswordUnseen(cfg, a, b, otpHash, uid.value, password, env); }
  }

  lemma DeleteUnseen(a: Store, b: Store, uid: int, env: O.Env)
    requires Alike(a, b, env.now)
    ensures var (r, q) := (O.DeleteUser(a, uid, env), O.DeleteUser(b, uid, env));
            Alike(r.0, q.0, env.now) && r.1 == q.1
  {
  }

  /** A round of the worker changes nothing the relation looks at. */
  lemma SweepUnseen(a: Store, b: Store, env: O.Env)
    requires Alike(a, b, env.now)
    ensures Alike(O.Cleanup(a, env), b, env.now)
  {
    var a' := SweepSessionRows(a, env.now, SweepSessions !in env.faults);
    assert Alike(a', b, env.now);
    SweptOtpsUnseen(a', b, env.now, SweepOtps !in env.faults);
  }

  lemma SweptOtpsUnseen(a: Store, b: Store, now: Time, ok: bool)
    requires Alike(a, b, now)
    ensures Alike(SweepOtpRows(a, now, ok), b, now)
  {
  }

  // ---------------------------------------------------------------- runs

  lemma SessionCallUnseen(cfg: O.Config, a: O.State, b: O.State, c: Call)
    requires Wf(a.db) && Wf(b.db) && Comparable(cfg, a.db, b.db, c.env) && a.cache == b.cache && OnSessions(c.op)
    ensures var (r, q) := (Apply(cfg, a, c), Apply(cfg, b, c));
            Simulates(r.0, q.0, c.env.now) && SameButError(r.1, q.1)
  {
    if c.op.VerifyOtp? { VerifyOtpUnseen(cfg, a, b, c.op.otpHash, c.op.code, c.env); }
    else if c.op.Login? { LoginUnseen(cfg, a, b, c.op.email, c.op.password, c.env); }
    else if c.op.Exchange? { ExchangeUnseen(cfg, a, b, c.op.key, c.op.email, c.env); }
    else if c.op.Refresh? { RefreshUnseen(cfg, a, b, c.op.token, c.env); }
    else { LogoutUnseen(cfg, a, b, c.op.token, c.env); }
  }

  lemma ApplyUnseen(cfg: O.Config, a: O.State, b: O.State, c: Call)
    requires Wf(a.db) && Wf(b.db) && Comparable(cfg, a.db, b.db, c.env) && a.cache == b.cache && !c.op.Cleanup?
    ensures var (r, q) := (Apply(cfg, a, c), Apply(cfg, b, c));
            Simulates(r.0, q.0, c.env.now) && SameButError(r.1, q.1)
  {
    if OnSessions(c.op) { SessionCallUnseen(cfg, a, b, c); }
    else if c.op.Signup? { SignupUnseen(cfg, a.db, b.db, c.op.email, c.op.password, c.env); }
    else if c.op.Forgot? { ForgotUnseen(cfg, a.db, b.db, c.op.email, c.env); }
    else if c.op.Reset? { ResetUnseen(cfg, a.db, b.db, c.op.otpHash, c.op.code, c.op.password, c.env); }
    else if c.op.Delete? { DeleteUnseen(a.db, b.db, c.op.uid, c.env); }
    else if c.op.Validate? { ValidateUnseen(cfg, a, b, c.op.token, c.env); }
  }

  lemma StepUnseen(sys: Service, a: O.State, b: O.State, c: Call)
    requires Wf(a.db) && Wf(b.db) && Comparable(sys.config, a.db, b.db, c.env) && a.cache == b.cache && !c.op.Cleanup?
    ensures var (r, q) := (sys.step(a, c), sys.step(b, c));
            Simulates(r.0, q.0, c.env.now) && SameButError(r.1, q.1)
  {
    StepIs(sys, a, c);
    StepIs(sys, b, c);
    ApplyUnseen(sys.config, a, b, c);
  }

  /** The run without the rounds of the cleanup worker. */
  function WithoutCleanup(calls: seq<Call>): (r: seq<Call>)
    ensures |r| <= |calls|
  {
    if calls == [] then []
    else
      var n := |calls| - 1;
      WithoutCleanup(calls[..n]) + if calls[n].op.Cleanup? then [] else [calls[n]]
  }

  /** Where call k of the run is in the run without cleanup. */
  function Position(calls: seq<Call>, k: nat): nat
    requires k <= |calls|
  {
    |WithoutCleanup(calls[..k])|
  }

  lemma {:induction false} PositionIsRight(calls: seq<Call>, k: nat)
    requires k < |calls| && !calls[k].op.Cleanup?
    ensures var r := WithoutCleanup(calls);
            && Position(calls, k) < |r| && r[Position(calls, k)] == calls[k]
            && r[..Position(calls, k)] == WithoutCleanup(calls[..k])
  {
    var n := |calls| - 1;
    if k < n {
      assert calls[..n][..k] == calls[..k];
      PositionIsRight(calls[..n], k);
    }
  }

  /** Every call of the shorter run is a call of the longer one, in order. */
  lemma {:induction false} WithoutCleanupIsLawful(calls: seq<Call>)
    requires Lawful(calls)
    ensures Lawful(WithoutCleanup(calls)) && Within(WithoutCleanup(calls), calls)
  {
    if calls != [] {
      var n := |calls| - 1;
      WithoutCleanupIsLawful(calls[..n]);
      WithinLonger(WithoutCleanup(calls[..n]), calls);
      if !calls[n].op.Cleanup? { LawfulExtended(WithoutCleanup(calls[..n]), calls); }
    }
  }

  ghost predicate Within(some: seq<Call>, calls: seq<Call>) {
    forall i :: 0 <= i < |some| ==> some[i] in calls
  }

  lemma WithinLonger(some: seq<Call>, calls: seq<Call>)
    requires calls != [] && Within(some, calls[..|calls| - 1])
    ensures Within(some, calls)
  {
    var prefix := calls[..|calls| - 1];
    forall i | 0 <= i < |some| ensures some[i] in calls {
      assert some[i] in prefix;
    }
  }

  lemma LawfulExtended(some: seq<Call>, calls: seq<Call>)
    requires calls != [] && Lawful(calls) && Lawful(some) && Within(some, calls[..|calls| - 1])
    ensures Lawful(some + [calls[|calls| - 1]]) && Within(some + [calls[|calls| - 1]], calls)
  {
    var n := |calls| - 1;
    WithinLonger(some, calls);
    forall i | 0 <= i < |some|
      ensures some[i].env.now <= calls[n].env.now && some[i].env.token != calls[n].env.token
              && some[i].env.otpHash != calls[n].env.otpHash
    {
      var j :| 0 <= j < n && calls[..n][j] == some[i];
    }
  }

  lemma FreshNext(sys: Service, cache: CacheState, calls: seq<Call>, c: Call)
    requires Lawful(calls + [c])
    ensures var db := After(sys, Empty(cache), calls).db; Wf(db) && Fresh(sys.config, db, c.env)
  {
    AfterIsSound(sys, cache, calls);
    NextIsFresh(sys, cache, calls, c);
  }

  lemma AlikeLater(a: Store, b: Store, before: Time, now: Time)
    requires Alike(a, b, before) && before <= now
    ensures Alike(a, b, now)
  {
  }

  lemma {:induction false} RunsSimulate(sys: Service, cache: CacheState, calls: seq<Call>)
    requires Lawful(calls)
    ensures Simulates(After(sys, Empty(cache), calls), After(sys, Empty(cache), WithoutCleanup(calls)), LastTime(calls))
  {
    if calls != [] {
      var n := |calls| - 1;
      RunsSimulate(sys, cache, calls[..n]);
      var a, b := After(sys, Empty(cache), calls[..n]), After(sys, Empty(cache), WithoutCleanup(calls[..n]));
      assert LastTime(calls[..n]) <= calls[n].env.now;
      AlikeLater(a.db, b.db, LastTime(calls[..n]), calls[n].env.now);
      if calls[n].op.Cleanup? { LastSweepSimulates(sys, cache, calls); }
      else { LastCallSimulates(sys, cache, calls); }
    }
  }

  lemma SweepSimulates(sys: Service, a: O.State, b: O.State, c: Call)
    requires c.op.Cleanup? && Simulates(a, b, c.env.now)
    ensures Simulates(sys.step(a, c).0, b, c.env.now)
  {
    StepIs(sys, a, c);
    SweepUnseen(a.db, b.db, c.env);
  }

  lemma LastSweepSimulates(sys: Service, cache: CacheState, calls: seq<Call>)
    requires calls != [] && calls[|calls| - 1].op.Cleanup?
    requires var n := |calls| - 1;
             Simulates(After(sys, Empty(cache), calls[..n]), After(sys, Empty(cache), WithoutCleanup(calls[..n])),
                       calls[n].env.now)
    ensures Simulates(After(sys, Empty(cache), calls), After(sys, Empty(cache), WithoutCleanup(calls)), LastTime(calls))
  {
    var n := |calls| - 1;
    var b := After(sys, Empty(cache), WithoutCleanup(calls[..n]));
    SweepSimulates(sys, After(sys, Empty(cache), calls[..n]), b, calls[n]);
    assert WithoutCleanup(calls) == WithoutCleanup(calls[..n]);
  }

  lemma LastCallSimulates(sys: Service, cache: CacheState, calls: seq<Call>)
    requires Lawful(calls) && calls != [] && !calls[|calls| - 1].op.Cleanup?
    requires var n := |calls| - 1;
             Simulates(After(sys, Empty(cache), calls[..n]), After(sys, Empty(cache), WithoutCleanup(calls[..n])),
                       calls[n].env.now)
    ensures Simulates(After(sys, Empty(cache), calls), After(sys, Empty(cache), WithoutCleanup(calls)), LastTime(calls))
  {
    var n := |calls| - 1;
    NextOfBoth(sys, cache, calls);
    StepUnseen(sys, After(sys, Empty(cache), calls[..n]), After(sys, Empty(cache), WithoutCleanup(calls[..n])),
               calls[n]);
    var r := WithoutCleanup(calls);
    assert r[..|r| - 1] == WithoutCleanup(calls[..n]);
  }

  lemma NextOfBoth(sys: Service, cache: CacheState, calls: seq<Call>)
    requires Lawful(calls) && calls != [] && !calls[|calls| - 1].op.Cleanup?
    ensures var n := |calls| - 1;
            var (a, b) := (After(sys, Empty(cache), calls[..n]).db,
                           After(sys, Empty(cache), WithoutCleanup(calls[..n])).db);
            Wf(a) && Wf(b) && Fresh(sys.config, a, calls[n].env) && Fresh(sys.config, b, calls[n].env)
  {
    var n := |calls| - 1;
    assert calls[..n] + [calls[n]] == calls;
    FreshNext(sys, cache, calls[..n], calls[n]);
    WithoutCleanupIsLawful(calls);
    FreshNext(sys, cache, WithoutCleanup(calls[..n]), calls[n]);
  }

  /** Cleanup is unobservable: wherever rounds of the worker stand in a run, and whatever they fail
      to delete, every other call answers as it would without them, but for the kind of an error. */
  lemma CleanupIsUnobservable(sys: Service, cache: CacheState, calls: seq<Call>, k: nat)
    requires Lawful(calls) && k < |calls| && !calls[k].op.Cleanup?
    ensures var shorter := WithoutCleanup(calls);
            && Position(calls, k) < |shorter| && shorter[Position(calls, k)] == calls[k]
            && SameButError(Answer(sys, Empty(cache), calls, k), Answer(sys, Empty(cache), shorter, Position(calls, k)))
  {
    PositionIsRight(calls, k);
    SameAnswer(sys, cache, calls, k);
  }

  lemma SameAnswer(sys: Service, cache: CacheState, calls: seq<Call>, k: nat)
    requires Lawful(calls) && k < |calls| && !calls[k].op.Cleanup?
    ensures var (a, b) := (After(sys, Empty(cache), calls[..k]), After(sys, Empty(cache), WithoutCleanup(calls[..k])));
            SameButError(sys.step(a, calls[k]).1, sys.step(b, calls[k]).1)
  {
    var prefix := calls[..k + 1];
    assert prefix[..k] == calls[..k] && prefix[k] == calls[k];
    RunsSimulate(sys, cache, calls[..k]);
    NextOfBoth(sys, cache, prefix);
    var a, b := After(sys, Empty(cache), calls[..k]), After(sys, Empty(cache), WithoutCleanup(calls[..k]));
    AlikeLater(a.db, b.db, LastTime(calls[..k]), calls[k].env.now);
    StepUnseen(sys, a, b, calls[k]);
  }
}
