/** The service as concurrent flights: each operation is a sequence of repository and cache calls,
    one call (or one reading of the clock) per step, and between two steps of a flight anything
    else may run. A flight carries the local copies its next call needs. */
module Flights {
  import opened Domain
  import opened Tables
  import Usernames

  /** Which operation opens a session. */
  datatype Origin = ByVerification | ByLogin | ByProvider(key: LinkKey)

  /** Steps that touch accounts, otps and provider links but never issue a token. */
  datatype Account =
    | SignupStart(email: string, password: string)
    | SignupCreate(email: string, digest: Digest)
    | SignupClock(uid: int)
    | SignupOtp(uid: int, expiresAt: Time)
    | VerifyStart(otpHash: string, code: string)
    | VerifyUser(otp: Otp, code: string)
    | VerifyClock(otp: Otp, code: string, user: User)
    | VerifyName(otp: Otp, email: string, tries: nat)
    | VerifyUpdate(otp: Otp, username: string)
    | VerifyRetire(otp: Otp)
    | LoginStart(email: string, password: string)
    | LoginTouch(uid: int)
    | ExchangeStart(key: LinkKey, email: string)
    | ExchangeTouch(key: LinkKey, uid: int)
    | ExchangeEmail(key: LinkKey, email: string)
    | ExchangeName(key: LinkKey, email: string, tries: nat)
    | ExchangeCreate(key: LinkKey, email: string, username: string)
    | ExchangeLink(key: LinkKey, uid: int)
    | ForgotStart(email: string)
    | ForgotRetire(uid: int)
    | ForgotClock(uid: int)
    | ForgotOtp(uid: int, expiresAt: Time)
    | ResetStart(otpHash: string, code: string, password: string)
    | ResetClock(otp: Otp, code: string, password: string)
    | ResetUpdate(otp: Otp, digest: Digest)
    | ResetRetire(otp: Otp)
    | DeleteStart(uid: int)
    | DeleteRow(uid: int)

  /** Steps on sessions and on the cache. `s` is always the flight's own copy of a row. */
  datatype Token =
    | Open(uid: int, origin: Origin)
    | OpenInsert(uid: int, origin: Origin, hash: TokenHash, expiresAt: Time)
    | SetFirst(s: Session, answer: Answer)
    | SetSecond(s: Session, answer: Answer)
    | ValidateStart(hash: TokenHash)
    | ValidateRow(hash: TokenHash)
    | ValidateUser(hash: TokenHash, uid: int, readAt: Time)
    | RefreshStart(hash: TokenHash)
    | RefreshClock(hash: TokenHash, s: Session)
    | RefreshRenew(hash: TokenHash, s: Session)
    | RefreshUpdate(hash: TokenHash, s: Session)
    | LogoutStart(hash: TokenHash)
    | LogoutClock(hash: TokenHash, s: Session)
    | LogoutRetire(hash: TokenHash, id: int)
    | Drop(hash: TokenHash, pass: nat, renewed: Option<Session>)

  /** What the caller is told, with the facts the theorems speak about. `dropped` says that
      InvalidateSessionToken returned no error. */
  datatype Answer =
    | Failed
    | Done
    | Opened(hash: TokenHash, uid: int, origin: Origin)
    | Validated(hash: TokenHash, owner: Option<int>, readAt: Time)
    | Refreshed(prior: TokenHash, hash: TokenHash, dropped: bool)
    | LoggedOut(hash: TokenHash, dropped: bool)

  datatype Flight = OfAccount(account: Account) | OfToken(token: Token) | Finished(answer: Answer)

  /** What the environment decides about one step. */
  datatype Choice = Choice(faults: set<CallSite>, hash: TokenHash, otpHash: string, code: string,
                           digits: Option<Usernames.Suffix>)

  // ---------------------------------------------------------------- which operation a flight is in

  predicate InSignup(a: Account) {
    a.SignupStart? || a.SignupCreate? || a.SignupClock? || a.SignupOtp?
  }

  predicate InVerify(a: Account) {
    a.VerifyStart? || a.VerifyUser? || a.VerifyClock? || a.VerifyName? || a.VerifyUpdate? || a.VerifyRetire?
  }

  predicate InLogin(a: Account) {
    a.LoginStart? || a.LoginTouch?
  }

  predicate InExchange(a: Account) {
    || a.ExchangeStart? || a.ExchangeTouch? || a.ExchangeEmail?
    || a.ExchangeName? || a.ExchangeCreate? || a.ExchangeLink?
  }

  predicate InPassword(a: Account) {
    || a.ForgotStart? || a.ForgotRetire? || a.ForgotClock? || a.ForgotOtp?
    || a.ResetStart? || a.ResetClock? || a.ResetUpdate? || a.ResetRetire?
  }

  predicate InDelete(a: Account) {
    a.DeleteStart? || a.DeleteRow?
  }

  predicate InOpen(t: Token) {
    t.Open? || t.OpenInsert?
  }

  predicate InSet(t: Token) {
    t.SetFirst? || t.SetSecond?
  }

  predicate InValidate(t: Token) {
    t.ValidateStart? || t.ValidateRow? || t.ValidateUser?
  }

  predicate InRefresh(t: Token) {
    t.RefreshStart? || t.RefreshClock? || t.RefreshRenew? || t.RefreshUpdate?
  }

  predicate InLogout(t: Token) {
    t.LogoutStart? || t.LogoutClock? || t.LogoutRetire?
  }

  // ---------------------------------------------------------------- account steps

  predicate Fails(c: Choice, site: CallSite) {
    site in c.faults
  }

  const FAILED: Flight := Finished(Failed)

  /** generateUniqueUsername, one draw per step: the outcome of a draw is a username to use,
      a failure, or another try. */
  datatype Naming = Use(name: string) | GiveUp | Again

  ghost function TryName(db: Store, email: string, tries: nat, c: Choice): Naming {
    if c.digits.None? then GiveUp
    else
      var name := Usernames.Candidate(Usernames.EmailPrefix(email), c.digits.value);
      if |name| > Usernames.MAX_USERNAME || Fails(c, ExistsUsername) then GiveUp
      else if !UsernameTaken(db, name) then Use(name)
      else if tries + 1 >= Usernames.MAX_TRIES then GiveUp
      else Again
  }

  /** Account steps never add or change a session row; deleting a user removes some. */
  ghost predicate SessionsShrink(a: Store, b: Store) {
    && b.nextSession == a.nextSession
    && forall i :: i in b.sessions ==> i in a.sessions && b.sessions[i] == a.sessions[i]
  }

  /** What an account step may come to: rows of sessions at most removed, constraints and finality
      kept, and a flight that goes on, is done, has failed, or is about to open a session. */
  ghost predicate AccountOutcome(db: Store, r: (Store, Flight)) {
    && Keeps(db, r.0) && SessionsShrink(db, r.0)
    && (r.1.OfToken? ==> r.1.token.Open?)
    && (r.1.Finished? ==> r.1.answer.Failed? || r.1.answer.Done?)
  }

  /** Repository calls one at a time; a rejected or failed one ends the flight, as in the source. */
  ghost function SignupStep(db: Store, a: Account, now: Time, otpExpiry: Time, c: Choice): (Store, Flight)
    requires InSignup(a)
  {
    match a
    case SignupStart(email, password) =>
      if Fails(c, ExistsEmail) || EmailTaken(db, email) || Fails(c, Hashing) then (db, FAILED)
      else (db, OfAccount(SignupCreate(email, Bcrypt(password))))
    case SignupCreate(email, digest) =>
      var (db', id) := CreateUser(db, email, None, false, digest, now, c.faults);
      if id.None? || Fails(c, Randomness) || Fails(c, CodeHashing) then (db', FAILED)
      else (db', OfAccount(SignupClock(id.value)))
    case SignupClock(uid) => (db, OfAccount(SignupOtp(uid, now + otpExpiry)))
    case SignupOtp(uid, expiresAt) =>
      var (db', ok) := InsertOtp(db, uid, c.otpHash, Bcrypt(c.code), SignupVerification, expiresAt, now,
                                 !Fails(c, CreateOtp));
      (db', if ok then Finished(Done) else FAILED)
  }

  lemma SignupCreateKeeps(db: Store, email: string, digest: Digest, now: Time, otpExpiry: Time, c: Choice)
    requires Wf(db)
    ensures AccountOutcome(db, SignupStep(db, SignupCreate(email, digest), now, otpExpiry, c))
  {
    CreateUserKeeps(db, email, None, false, digest, now, c.faults);
  }

  lemma SignupOtpKeeps(db: Store, uid: int, expiresAt: Time, now: Time, otpExpiry: Time, c: Choice)
    requires Wf(db)
    ensures AccountOutcome(db, SignupStep(db, SignupOtp(uid, expiresAt), now, otpExpiry, c))
  {
    InsertOtpKeeps(db, uid, c.otpHash, Bcrypt(c.code), SignupVerification, expiresAt, now, !Fails(c, CreateOtp));
  }

  lemma SignupStepKeeps(db: Store, a: Account, now: Time, otpExpiry: Time, c: Choice)
    requires Wf(db) && InSignup(a)
    ensures AccountOutcome(db, SignupStep(db, a, now, otpExpiry, c))
  {
    if a.SignupCreate? { SignupCreateKeeps(db, a.email, a.digest, now, otpExpiry, c); }
    else if a.SignupOtp? { SignupOtpKeeps(db, a.uid, a.expiresAt, now, otpExpiry, c); }
    else { EvolvesToItself(db); }
  }

  ghost function VerifyStep(db: Store, a: Account, now: Time, c: Choice): (Store, Flight)
    requires InVerify(a)
  {
    match a
    case VerifyStart(otpHash, code) =>
      var otp := LiveOtp(db, otpHash, SignupVerification);
      if otpHash == "" || Fails(c, GetOtp) || otp.None? then (db, FAILED)
      else (db, OfAccount(VerifyUser(otp.value, code)))
    case VerifyUser(otp, code) =>
      if Fails(c, GetUserByID) || otp.userId !in db.users || db.users[otp.userId].verified then (db, FAILED)
      else (db, OfAccount(VerifyClock(otp, code, db.users[otp.userId])))
    case VerifyClock(otp, code, user) =>
      if now > otp.expiresAt || !Verify(otp.code, code) then (db, FAILED)
      else (db, OfAccount(VerifyName(otp, user.email, 0)))
    case VerifyName(otp, email, tries) =>
      (match TryName(db, email, tries, c)
       case Use(name) => (db, OfAccount(VerifyUpdate(otp, name)))
       case GiveUp => (db, FAILED)
       case Again => (db, OfAccount(VerifyName(otp, email, tries + 1))))
    case VerifyUpdate(otp, username) =>
      var (db', ok) := MarkVerified(db, otp.userId, username, !Fails(c, UpdateVerified));
      (db', if ok then OfAccount(VerifyRetire(otp)) else FAILED)
    case VerifyRetire(otp) =>
      var ok := !Fails(c, SoftDeleteOtp);
      (RetireOtp(db, otp.otpHash, SignupVerification, now, ok),
       if ok then OfToken(Open(otp.userId, ByVerification)) else FAILED)
  }

  lemma VerifyStepKeeps(db: Store, a: Account, now: Time, c: Choice)
    requires Wf(db) && InVerify(a)
    ensures AccountOutcome(db, VerifyStep(db, a, now, c))
  {
    if a.VerifyUpdate? { MarkVerifiedKeeps(db, a.otp.userId, a.username, !Fails(c, UpdateVerified)); }
    else if a.VerifyRetire? { RetireOtpKeeps(db, a.otp.otpHash, SignupVerification, now, !Fails(c, SoftDeleteOtp)); }
    else { EvolvesToItself(db); }
  }

  ghost function LoginStep(db: Store, a: Account, now: Time, c: Choice): (Store, Flight)
    requires InLogin(a)
  {
    match a
    case LoginStart(email, password) =>
      var u := UserByEmail(db, email);
      if Fails(c, GetUserByEmail) || u.None? || !db.users[u.value].verified
         || u.value !in db.credentials || !Verify(db.credentials[u.value], password)
      then (db, FAILED)
      else (db, OfAccount(LoginTouch(u.value)))
    case LoginTouch(uid) =>
      (TouchUser(db, uid, now, !Fails(c, UpdateUserLastLogin)), OfToken(Open(uid, ByLogin)))
  }

  lemma LoginStepKeeps(db: Store, a: Account, now: Time, c: Choice)
    requires Wf(db) && InLogin(a)
    ensures AccountOutcome(db, LoginStep(db, a, now, c))
  {
    EvolvesToItself(db);
    if a.LoginTouch? { TouchUserKeeps(db, a.uid, now, !Fails(c, UpdateUserLastLogin)); }
  }

  ghost function ExchangeStep(db: Store, a: Account, now: Time, c: Choice): (Store, Flight)
    requires InExchange(a)
  {
    match a
    case ExchangeStart(key, email) =>
      if Fails(c, GetLink) then (db, FAILED)
      else if key in db.links then (db, OfAccount(ExchangeTouch(key, db.links[key].userId)))
      else (db, OfAccount(ExchangeEmail(key, email)))
    case ExchangeTouch(key, uid) =>
      (TouchLink(db, key, now, !Fails(c, UpdateLinkLastLogin)), OfToken(Open(uid, ByProvider(key))))
    case ExchangeEmail(key, email) =>
      if Fails(c, GetUserByEmail) || EmailTaken(db, email) then (db, FAILED)
      else (db, OfAccount(ExchangeName(key, email, 0)))
    case ExchangeName(key, email, tries) =>
      (match TryName(db, email, tries, c)
       case Use(name) => (db, OfAccount(ExchangeCreate(key, email, name)))
       case GiveUp => (db, FAILED)
       case Again => (db, OfAccount(ExchangeName(key, email, tries + 1))))
    case ExchangeCreate(key, email, username) =>
      var (db', id) := CreateUser(db, email, Some(username), true, Blank, now, c.faults);
      (db', if id.Some? then OfAccount(ExchangeLink(key, id.value)) else FAILED)
    case ExchangeLink(key, uid) =>
      var (db', ok) := InsertLink(db, key, uid, now, !Fails(c, CreateLink));
      (db', if ok then OfToken(Open(uid, ByProvider(key))) else FAILED)
  }

  lemma ExchangeTouchKeeps(db: Store, key: LinkKey, uid: int, now: Time, c: Choice)
    requires Wf(db)
    ensures AccountOutcome(db, ExchangeStep(db, ExchangeTouch(key, uid), now, c))
  {
    TouchLinkKeeps(db, key, now, !Fails(c, UpdateLinkLastLogin));
  }

  lemma ExchangeCreateKeeps(db: Store, key: LinkKey, email: string, username: string, now: Time, c: Choice)
    requires Wf(db)
    ensures AccountOutcome(db, ExchangeStep(db, ExchangeCreate(key, email, username), now, c))
  {
    CreateUserKeeps(db, email, Some(username), true, Blank, now, c.faults);
  }

  lemma ExchangeLinkKeeps(db: Store, key: LinkKey, uid: int, now: Time, c: Choice)
    requires Wf(db)
    ensures AccountOutcome(db, ExchangeStep(db, ExchangeLink(key, uid), now, c))
  {
    InsertLinkKeeps(db, key, uid, now, !Fails(c, CreateLink));
  }

  lemma ExchangeReads(db: Store, a: Account, now: Time, c: Choice)
    requires a.ExchangeStart? || a.ExchangeEmail? || a.ExchangeName?
    ensures var (b, fl) := ExchangeStep(db, a, now, c); b == db && (fl.OfAccount? || fl == FAILED)
  {
  }

  lemma ExchangeStepKeeps(db: Store, a: Account, now: Time, c: Choice)
    requires Wf(db)
    requires InExchange(a)
    ensures AccountOutcome(db, ExchangeStep(db, a, now, c))
  {
    if a.ExchangeTouch? { ExchangeTouchKeeps(db, a.key, a.uid, now, c); }
    else if a.ExchangeCreate? { ExchangeCreateKeeps(db, a.key, a.email, a.username, now, c); }
    else if a.ExchangeLink? { ExchangeLinkKeeps(db, a.key, a.uid, now, c); }
    else {
      EvolvesToItself(db);
      ExchangeReads(db, a, now, c);
    }
  }

  ghost function PasswordStep(db: Store, a: Account, now: Time, otpExpiry: Time, c: Choice): (Store, Flight)
    requires InPassword(a)
  {
    match a
    case ForgotStart(email) =>
      var u := UserByEmail(db, email);
      if Fails(c, GetUserByEmail) then (db, FAILED)
      else if u.None? then (db, Finished(Done))
      else if Fails(c, Randomness) || Fails(c, CodeHashing) then (db, FAILED)
      else (db, OfAccount(ForgotRetire(u.value)))
    case ForgotRetire(uid) =>
      (RetireOtpsOf(db, uid, ResetPassword, now, !Fails(c, SoftDeleteOtpsOfUser)), OfAccount(ForgotClock(uid)))
    case ForgotClock(uid) => (db, OfAccount(ForgotOtp(uid, now + otpExpiry)))
    case ForgotOtp(uid, expiresAt) =>
      var (db', ok) := InsertOtp(db, uid, c.otpHash, Bcrypt(c.code), ResetPassword, expiresAt, now,
                                 !Fails(c, CreateOtp));
      (db', if ok then Finished(Done) else FAILED)
    case ResetStart(otpHash, code, password) =>
      var otp := LiveOtp(db, otpHash, ResetPassword);
      if otpHash == "" || Fails(c, GetOtp) || otp.None? then (db, FAILED)
      else (db, OfAccount(ResetClock(otp.value, code, password)))
    case ResetClock(otp, code, password) =>
      if now > otp.expiresAt || !Verify(otp.code, code) || Fails(c, Hashing) then (db, FAILED)
      else (db, OfAccount(ResetUpdate(otp, Bcrypt(password))))
    case ResetUpdate(otp, digest) =>
      var ok := !Fails(c, UpdatePassword);
      (SetPassword(db, otp.userId, digest, ok), if ok then OfAccount(ResetRetire(otp)) else FAILED)
    case ResetRetire(otp) =>
      var ok := !Fails(c, SoftDeleteOtp);
      (RetireOtp(db, otp.otpHash, ResetPassword, now, ok), if ok then Finished(Done) else FAILED)
  }

  lemma ForgotRetireKeeps(db: Store, uid: int, now: Time, otpExpiry: Time, c: Choice)
    requires Wf(db)
    ensures AccountOutcome(db, PasswordStep(db, ForgotRetire(uid), now, otpExpiry, c))
  {
    RetireOtpsOfKeeps(db, uid, ResetPassword, now, !Fails(c, SoftDeleteOtpsOfUser));
  }

  lemma ForgotOtpKeeps(db: Store, uid: int, expiresAt: Time, now: Time, otpExpiry: Time, c: Choice)
    requires Wf(db)
    ensures AccountOutcome(db, PasswordStep(db, ForgotOtp(uid, expiresAt), now, otpExpiry, c))
  {
    InsertOtpKeeps(db, uid, c.otpHash, Bcrypt(c.code), ResetPassword, expiresAt, now, !Fails(c, CreateOtp));
  }

  lemma ResetUpdateKeeps(db: Store, otp: Otp, digest: Digest, now: Time, otpExpiry: Time, c: Choice)
    requires Wf(db)
    ensures AccountOutcome(db, PasswordStep(db, ResetUpdate(otp, digest), now, otpExpiry, c))
  {
    SetPasswordKeeps(db, otp.userId, digest, !Fails(c, UpdatePassword));
  }

  lemma ResetRetireKeeps(db: Store, otp: Otp, now: Time, otpExpiry: Time, c: Choice)
    requires Wf(db)
    ensures AccountOutcome(db, PasswordStep(db, ResetRetire(otp), now, otpExpiry, c))
  {
    RetireOtpKeeps(db, otp.otpHash, ResetPassword, now, !Fails(c, SoftDeleteOtp));
  }

  lemma PasswordReads(db: Store, a: Account, now: Time, otpExpiry: Time, c: Choice)
    requires a.ForgotStart? || a.ForgotClock? || a.ResetStart? || a.ResetClock?
    ensures var (b, fl) := PasswordStep(db, a, now, otpExpiry, c);
            b == db && (fl.OfAccount? || fl in {FAILED, Finished(Done)})
  {
  }

  lemma PasswordStepKeeps(db: Store, a: Account, now: Time, otpExpiry: Time, c: Choice)
    requires Wf(db)
    requires InPassword(a)
    ensures AccountOutcome(db, PasswordStep(db, a, now, otpExpiry, c))
  {
    if a.ForgotRetire? { ForgotRetireKeeps(db, a.uid, now, otpExpiry, c); }
    else if a.ForgotOtp? { ForgotOtpKeeps(db, a.uid, a.expiresAt, now, otpExpiry, c); }
    else if a.ResetUpdate? { ResetUpdateKeeps(db, a.otp, a.digest, now, otpExpiry, c); }
    else if a.ResetRetire? { ResetRetireKeeps(db, a.otp, now, otpExpiry, c); }
    else {
      EvolvesToItself(db);
      PasswordReads(db, a, now, otpExpiry, c);
    }
  }

  ghost function DeleteStep(db: Store, a: Account, c: Choice): (Store, Flight)
    requires InDelete(a)
  {
    match a
    case DeleteStart(uid) =>
      if Fails(c, GetUserByID) || uid !in db.users then (db, FAILED) else (db, OfAccount(DeleteRow(uid)))
    case DeleteRow(uid) =>
      var ok := !Fails(c, DeleteUserRow);
      (RemoveUser(db, uid, ok), if ok then Finished(Done) else FAILED)
  }

  lemma DeleteStepKeeps(db: Store, a: Account, c: Choice)
    requires Wf(db) && InDelete(a)
    ensures AccountOutcome(db, DeleteStep(db, a, c))
  {
    EvolvesToItself(db);
    if a.DeleteRow? { RemoveUserKeeps(db, a.uid, !Fails(c, DeleteUserRow)); }
  }

  ghost function AccountStep(db: Store, a: Account, now: Time, otpExpiry: Time, c: Choice): (Store, Flight)
  {
    if InSignup(a) then SignupStep(db, a, now, otpExpiry, c)
    else if InLogin(a) then LoginStep(db, a, now, c)
    else if InDelete(a) then DeleteStep(db, a, c)
    else if InVerify(a) then VerifyStep(db, a, now, c)
    else if InExchange(a) then ExchangeStep(db, a, now, c)
    else PasswordStep(db, a, now, otpExpiry, c)
  }

  lemma AccountStepKeeps(db: Store, a: Account, now: Time, otpExpiry: Time, c: Choice)
    requires Wf(db)
    ensures AccountOutcome(db, AccountStep(db, a, now, otpExpiry, c))
  {
    if InSignup(a) { SignupStepKeeps(db, a, now, otpExpiry, c); }
    else if InLogin(a) { LoginStepKeeps(db, a, now, c); }
    else if InDelete(a) { DeleteStepKeeps(db, a, c); }
    else if InVerify(a) { VerifyStepKeeps(db, a, now, c); }
    else if InExchange(a) { ExchangeStepKeeps(db, a, now, c); }
    else { PasswordStepKeeps(db, a, now, otpExpiry, c); }
  }

  predicate Opening(fl: Flight) {
    fl.OfToken? ==> fl.token.Open?
  }

  lemma SignupLeads(db: Store, a: Account, now: Time, otpExpiry: Time, c: Choice)
    requires InSignup(a)
    ensures Opening(SignupStep(db, a, now, otpExpiry, c).1)
  {
  }

  lemma VerifyLeads(db: Store, a: Account, now: Time, c: Choice)
    requires InVerify(a)
    ensures Opening(VerifyStep(db, a, now, c).1)
  {
  }

  lemma LoginLeads(db: Store, a: Account, now: Time, c: Choice)
    requires InLogin(a)
    ensures Opening(LoginStep(db, a, now, c).1)
  {
  }

  lemma ExchangeLeads(db: Store, a: Account, now: Time, c: Choice)
    requires InExchange(a)
    ensures Opening(ExchangeStep(db, a, now, c).1)
  {
  }

  lemma PasswordLeads(db: Store, a: Account, now: Time, otpExpiry: Time, c: Choice)
    requires InPassword(a)
    ensures Opening(PasswordStep(db, a, now, otpExpiry, c).1)
  {
  }

  /** The only token step that an account step leads to is the one that opens a session. */
  lemma AccountLeads(db: Store, a: Account, now: Time, otpExpiry: Time, c: Choice)
    ensures Opening(AccountStep(db, a, now, otpExpiry, c).1)
  {
    if InSignup(a) { SignupLeads(db, a, now, otpExpiry, c); }
    else if InLogin(a) { LoginLeads(db, a, now, c); }
    else if InVerify(a) { VerifyLeads(db, a, now, c); }
    else if InExchange(a) { ExchangeLeads(db, a, now, c); }
    else if InPassword(a) { PasswordLeads(db, a, now, otpExpiry, c); }
  }
}
