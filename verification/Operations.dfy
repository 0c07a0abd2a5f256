/** The service operations, each as one atomic function of the tables, the cache and an
    environment that fixes the clock, the random draws and the calls that fail. */
module Operations {
  import opened Domain
  import opened Tables
  import opened CacheStates
  import Usernames

  datatype Config = Config(ttl: Time, otpExpiry: Time, secret: string)

  /** One turn of the username loop: the random suffix, and whether the lookup fails. */
  datatype Draw = Draw(digits: Option<Usernames.Suffix>, lookupFails: bool)

  /** `token`, `otpHash`, `code` and `draws` are what the random source would produce. */
  datatype Env = Env(now: Time, faults: set<CallSite>, token: string, otpHash: string, code: string, draws: seq<Draw>)

  datatype State = State(db: Store, cache: CacheState)

  datatype UserData = UserData(userId: int, email: string, username: string, verified: bool, createdAt: Time)

  datatype Response =
    | Rejected(error: Error)
    | SignedUp(otpHash: string)
    | Verified(username: string, token: string, expiresAt: Time)
    | LoggedIn(token: string, expiresAt: Time)
    | Checked(owner: Option<UserData>)
    | Refreshed(token: string)
    | LoggedOut
    | ResetSent(otpHash: string)
    | PasswordReset
    | Profile(user: UserData)
    | UserDeleted
    | Silent

  function Describe(uid: int, u: User): UserData {
    UserData(uid, u.email, if u.username.Some? then u.username.value else "", u.verified, u.createdAt)
  }

  /** generateUniqueUsername with `tries` turns left. */
  ghost function PickName(db: Store, email: string, draws: seq<Draw>, tries: nat): Option<string> {
    if tries == 0 || draws == [] || draws[0].digits.None? then None
    else
      var name := Usernames.Candidate(Usernames.EmailPrefix(email), draws[0].digits.value);
      if |name| > Usernames.MAX_USERNAME || draws[0].lookupFails then None
      else if !UsernameTaken(db, name) then Some(name)
      else PickName(db, email, draws[1..], tries - 1)
  }

  /** createSession: a row, and then the cache, whose failure does not matter. */
  ghost function OpenSession(cfg: Config, s: State, uid: int, env: Env): (State, Option<Time>) {
    if Randomness in env.faults then (s, None)
    else
      var hash := HashToken(env.token, cfg.secret);
      var expiresAt := env.now + cfg.ttl;
      var (db, row) := InsertSession(s.db, uid, hash, expiresAt, env.now, CreateSession !in env.faults);
      if row.None? then (s.(db := db), None)
      else (State(db, Remember(s.cache, hash, row.value, cfg.ttl, env.now, env.faults)), Some(expiresAt))
  }

  // ---------------------------------------------------------------- who is admitted

  ghost function Signup(cfg: Config, db: Store, email: string, password: string, env: Env): (Store, Response) {
    if ExistsEmail in env.faults then (db, Rejected(Internal))
    else if EmailTaken(db, email) then (db, Rejected(Conflict))
    else if Hashing in env.faults then (db, Rejected(Internal))
    else
      var (db', uid) := CreateUser(db, email, None, false, Bcrypt(password), env.now, env.faults);
      Welcome(cfg, db', uid, env)
  }

  /** Signup once the user is created, or not. */
  ghost function Welcome(cfg: Config, db: Store, uid: Option<int>, env: Env): (Store, Response) {
    if uid.None? || Randomness in env.faults || CodeHashing in env.faults then (db, Rejected(Internal))
    else Issue(cfg, db, uid.value, SignupVerification, env)
  }

  /** Stores a new one-time code and tells its hash. */
  ghost function Issue(cfg: Config, db: Store, uid: int, purpose: Purpose, env: Env): (Store, Response) {
    Told(InsertOtp(db, uid, env.otpHash, Bcrypt(env.code), purpose, env.now + cfg.otpExpiry, env.now,
                   CreateOtp !in env.faults), purpose, env)
  }

  /** The answer to the outcome of the INSERT. */
  function Told(inserted: (Store, bool), purpose: Purpose, env: Env): (Store, Response) {
    (inserted.0, if !inserted.1 then Rejected(Internal)
                 else if purpose.SignupVerification? then SignedUp(env.otpHash) else ResetSent(env.otpHash))
  }

  /** The checks VerifyOTP makes before it writes anything. */
  ghost function CheckSignupOtp(db: Store, otpHash: string, code: string, env: Env): Result<int> {
    var otp := LiveOtp(db, otpHash, SignupVerification);
    if otpHash == "" then Err(Validation)
    else if GetOtp in env.faults then Err(Internal)
    else if otp.None? then Err(NotFound)
    else
      var uid := otp.value.userId;
      if GetUserByID in env.faults then Err(Internal)
      else if uid !in db.users then Err(NotFound)
      else if db.users[uid].verified then Err(Validation)
      else if env.now > otp.value.expiresAt || !Verify(otp.value.code, code) then Err(Unauthorized)
      else Ok(uid)
  }

  /** VerifyOTP up to the point where it opens a session: the user and the username given. */
  ghost function AdmitByOtp(db: Store, otpHash: string, code: string, env: Env): (Store, Result<(int, string)>) {
    var uid := CheckSignupOtp(db, otpHash, code, env);
    if uid.Err? then (db, Err(uid.error))
    else
      var email := if uid.value in db.users then db.users[uid.value].email else "";
      AdmitNamed(db, uid.value, PickName(db, email, env.draws, Usernames.MAX_TRIES), otpHash, env)
  }

  /** The two writes of an admission, once the username is found, or not. */
  ghost function AdmitNamed(db: Store, uid: int, name: Option<string>, otpHash: string, env: Env)
      : (Store, Result<(int, string)>)
  {
    if name.None? then (db, Err(Internal))
    else
      var (db', ok) := MarkVerified(db, uid, name.value, UpdateVerified !in env.faults);
      if !ok || SoftDeleteOtp in env.faults then (db', Err(Internal))
      else (RetireOtp(db', otpHash, SignupVerification, env.now, true), Ok((uid, name.value)))
  }

  ghost function AdmitByPassword(db: Store, email: string, password: string, env: Env): (Store, Result<int>) {
    var u := UserByEmail(db, email);
    if GetUserByEmail in env.faults then (db, Err(Internal))
    else if u.None? || !db.users[u.value].verified
            || u.value !in db.credentials || !Verify(db.credentials[u.value], password)
    then (db, Err(Unauthorized))
    else (TouchUser(db, u.value, env.now, UpdateUserLastLogin !in env.faults), Ok(u.value))
  }

  /** From the verified claims on: `key` is (provider, sub). */
  ghost function AdmitByProvider(db: Store, key: LinkKey, email: string, env: Env): (Store, Result<int>) {
    if GetLink in env.faults then (db, Err(Internal))
    else if key in db.links then
      (TouchLink(db, key, env.now, UpdateLinkLastLogin !in env.faults), Ok(db.links[key].userId))
    else if GetUserByEmail in env.faults then (db, Err(Internal))
    else if EmailTaken(db, email) then (db, Err(Conflict))
    else
      var name := PickName(db, email, env.draws, Usernames.MAX_TRIES);
      if name.None? then (db, Err(Internal)) else Enrol(db, key, email, name.value, env)
  }

  /** A new verified user without a password, and the link to it. */
  ghost function Enrol(db: Store, key: LinkKey, email: string, username: string, env: Env): (Store, Result<int>) {
    var (db', uid) := CreateUser(db, email, Some(username), true, Blank, env.now, env.faults);
    if uid.None? then (db', Err(Internal))
    else
      var (db'', ok) := InsertLink(db', key, uid.value, env.now, CreateLink !in env.faults);
      (db'', if ok then Ok(uid.value) else Err(Internal))
  }

  // ---------------------------------------------------------------- the three ways to a session

  ghost function VerifyOtp(cfg: Config, s: State, otpHash: string, code: string, env: Env): (State, Response) {
    var (db, admitted) := AdmitByOtp(s.db, otpHash, code, env);
    if admitted.Err? then (s.(db := db), Rejected(admitted.error))
    else
      var (s', expiresAt) := OpenSession(cfg, s.(db := db), admitted.value.0, env);
      (s', if expiresAt.Some? then Verified(admitted.value.1, env.token, expiresAt.value) else Rejected(Internal))
  }

  /** The tail shared by Login and the provider login. */
  ghost function OpenFor(cfg: Config, s: State, db: Store, admitted: Result<int>, env: Env): (State, Response) {
    if admitted.Err? then (s.(db := db), Rejected(admitted.error))
    else
      var (s', expiresAt) := OpenSession(cfg, s.(db := db), admitted.value, env);
      (s', if expiresAt.Some? then LoggedIn(env.token, expiresAt.value) else Rejected(Internal))
  }

  ghost function Login(cfg: Config, s: State, email: string, password: string, env: Env): (State, Response) {
    var (db, admitted) := AdmitByPassword(s.db, email, password, env);
    OpenFor(cfg, s, db, admitted, env)
  }

  ghost function Exchange(cfg: Config, s: State, key: LinkKey, email: string, env: Env): (State, Response) {
    var (db, admitted) := AdmitByProvider(s.db, key, email, env);
    OpenFor(cfg, s, db, admitted, env)
  }

  // ---------------------------------------------------------------- sessions

  function GetUser(db: Store, uid: int, env: Env): Response {
    if GetUserByID in env.faults then Rejected(Internal)
    else if uid !in db.users then Rejected(NotFound)
    else Profile(Describe(uid, db.users[uid]))
  }

  ghost function Validate(cfg: Config, s: State, token: string, env: Env): Response {
    var hash := HashToken(token, cfg.secret);
    if token == "" then Checked(None)
    else
      var verdict := Ask(s.cache, hash, env.now, env.faults);
      if verdict.Unavailable? && CheckSession in env.faults then Rejected(Internal)
      else
        var owner := if verdict.Says? then verdict.owner else TokenOwner(s.db, hash, env.now);
        if owner.None? then Checked(None)
        else
          var user := GetUser(s.db, owner.value, env);
          if user.Profile? then Checked(Some(user.user)) else user
  }

  /** What RefreshSession and Logout check first. */
  ghost function CheckToken(cfg: Config, db: Store, token: string, env: Env): Result<Session> {
    var row := LiveSession(db, HashToken(token, cfg.secret));
    if token == "" then Err(Unauthorized)
    else if GetSession in env.faults then Err(Internal)
    else if row.None? then Err(NotFound)
    else if env.now > row.value.expiresAt then Err(Unauthorized)
    else Ok(row.value)
  }

  /** The row under its new token. */
  function Renewed(cfg: Config, row: Session, env: Env): Session {
    row.(tokenHash := HashToken(env.token, cfg.secret), expiresAt := env.now + cfg.ttl)
  }

  ghost function Refresh(cfg: Config, s: State, token: string, env: Env): (State, Response) {
    var row := CheckToken(cfg, s.db, token, env);
    if row.Err? then (s, Rejected(row.error))
    else if Randomness in env.faults then (s, Rejected(Internal))
    else Rotate(cfg, s, row.value, env)
  }

  ghost function Rotate(cfg: Config, s: State, row: Session, env: Env): (State, Response) {
    var row' := Renewed(cfg, row, env);
    var (db, ok) := UpdateSessionRow(s.db, row', UpdateSession !in env.faults);
    if !ok then (s.(db := db), Rejected(Internal))
    else
      var cache := Remember(Forget(s.cache, row.tokenHash, env.faults), row'.tokenHash, row', cfg.ttl, env.now,
                            env.faults);
      (State(db, cache), Refreshed(env.token))
  }

  ghost function Logout(cfg: Config, s: State, token: string, env: Env): (State, Response) {
    var row := CheckToken(cfg, s.db, token, env);
    if row.Err? then (s, Rejected(row.error))
    else if SoftDeleteSession in env.faults then (s, Rejected(Internal))
    else
      (State(RetireSession(s.db, row.value.id, env.now, true), Forget(s.cache, row.value.tokenHash, env.faults)),
       LoggedOut)
  }

  // ---------------------------------------------------------------- password reset and removal

  ghost function ForgotPassword(cfg: Config, db: Store, email: string, env: Env): (Store, Response) {
    var u := UserByEmail(db, email);
    if GetUserByEmail in env.faults then (db, Rejected(Internal))
    else if u.None? then (db, ResetSent(""))
    else if Randomness in env.faults || CodeHashing in env.faults then (db, Rejected(Internal))
    else Reissue(cfg, db, u.value, env)
  }

  /** A new reset code in the place of the older ones; a failure to retire those does not matter. */
  ghost function Reissue(cfg: Config, db: Store, uid: int, env: Env): (Store, Response) {
    var db' := RetireOtpsOf(db, uid, ResetPassword, env.now, SoftDeleteOtpsOfUser !in env.faults);
    Issue(cfg, db', uid, ResetPassword, env)
  }

  /** The checks ResetPassword makes before it writes anything. */
  ghost function CheckResetOtp(db: Store, otpHash: string, code: string, env: Env): Result<int> {
    var otp := LiveOtp(db, otpHash, ResetPassword);
    if otpHash == "" then Err(Validation)
    else if GetOtp in env.faults then Err(Internal)
    else if otp.None? then Err(NotFound)
    else if env.now > otp.value.expiresAt || !Verify(otp.value.code, code) then Err(Unauthorized)
    else Ok(otp.value.userId)
  }

  ghost function Reset(db: Store, otpHash: string, code: string, password: string, env: Env): (Store, Response) {
    var uid := CheckResetOtp(db, otpHash, code, env);
    if uid.Err? then (db, Rejected(uid.error)) else StorePassword(db, otpHash, uid.value, password, env)
  }

  /** What ResetPassword writes: the new password, and the end of the code. */
  ghost function StorePassword(db: Store, otpHash: string, uid: int, password: string, env: Env): (Store, Response) {
    if Hashing in env.faults || UpdatePassword in env.faults then (db, Rejected(Internal))
    else
      var db' := SetPassword(db, uid, Bcrypt(password), true);
      if SoftDeleteOtp in env.faults then (db', Rejected(Internal))
      else (RetireOtp(db', otpHash, ResetPassword, env.now, true), PasswordReset)
  }

  ghost function DeleteUser(db: Store, uid: int, env: Env): (Store, Response) {
    if GetUserByID in env.faults then (db, Rejected(Internal))
    else if uid !in db.users then (db, Rejected(NotFound))
    else if DeleteUserRow in env.faults then (db, Rejected(Internal))
    else (RemoveUser(db, uid, true), UserDeleted)
  }

  /** One round of the cleanup worker; each of its two deletes may fail on its own. */
  ghost function Cleanup(db: Store, env: Env): Store {
    SweepOtpRows(SweepSessionRows(db, env.now, SweepSessions !in env.faults), env.now, SweepOtps !in env.faults)
  }
}
