/** The service: each method runs its repository and cache calls in the order of the source and
    is proved to do what its operation in Operations says, to the tables, to the cache and to the
    caller. */
module AuthService {
  import opened Domain
  import opened CacheStates
  import opened Repositories
  import opened SessionCaches
  import T = Tables
  import O = Operations
  import Usernames

  class Service {
    const db: Database
    const users: UserRepository
    const otps: OTPRepository
    const sessions: SessionRepository
    const links: ProviderRepository
    const cache: SessionCache
    const config: O.Config

    ghost predicate Valid()
      reads db
      reads if cache.InMemory? then {cache.memory} else {}, if cache.InMemory? then cache.memory.sessions.Values else {}
    {
      && users.db == db && otps.db == db && sessions.db == db && links.db == db
      && db.Valid() && cache.Valid()
    }

    ghost function View(): O.State
      reads db
      reads if cache.Memcached? then {cache.server} else {}
      reads if cache.Memcached? && cache.server.client != null then {cache.server.client} else {}
      reads if cache.InMemory? then {cache.memory} else {}, if cache.InMemory? then cache.memory.sessions.Values else {}
    {
      O.State(db.View(), cache.View())
    }

    constructor (db: Database, cache: SessionCache, config: O.Config)
      requires db.Valid() && cache.Valid()
      ensures Valid() && this.db == db && this.cache == cache && this.config == config
    {
      this.db := db;
      this.cache := cache;
      this.config := config;
      users := new UserRepository(db);
      otps := new OTPRepository(db);
      sessions := new SessionRepository(db);
      links := new ProviderRepository(db);
    }

    // -------------------------------------------------------------- private helpers

    method GenerateUniqueUsername(email: string, draws: seq<O.Draw>) returns (r: Option<string>)
      requires Valid()
      ensures r == O.PickName(db.View(), email, draws, Usernames.MAX_TRIES)
    {
      var prefix := Usernames.GetEmailPrefix(email);
      var i := 0;
      while i < Usernames.MAX_TRIES
        invariant 0 <= i <= Usernames.MAX_TRIES && i <= |draws|
        invariant O.PickName(db.View(), email, draws, Usernames.MAX_TRIES)
                  == O.PickName(db.View(), email, draws[i..], Usernames.MAX_TRIES - i)
      {
        if i == |draws| {
          return None;
        }
        var name := Usernames.GenerateUsername(prefix, [draws[i].digits]);
        if name.None? {
          return None;
        }
        var exists' := users.ExistsUsername(name.value, !draws[i].lookupFails);
        if exists'.Err? {
          return None;
        }
        if !exists'.value {
          return name;
        }
        assert draws[i..][1..] == draws[i + 1..];
        i := i + 1;
      }
      r := None;
    }

    method CreateSession(uid: int, env: O.Env) returns (r: Option<Time>)
      requires Valid()
      modifies db, cache.Changes()
      ensures Valid()
      ensures (View(), r) == O.OpenSession(config, old(View()), uid, env)
    {
      if Randomness in env.faults {
        return None;
      }
      var hash := HashToken(env.token, config.secret);
      var expiresAt := env.now + config.ttl;
      var s := StoreSession(uid, hash, expiresAt, env);
      if s == null {
        return None;
      }
      cache.SetSession(hash, s, config.ttl, env.now, env.faults);
      r := Some(expiresAt);
    }

    /** createSession, the part that writes the tables: a record that Create completes. */
    method StoreSession(uid: int, hash: TokenHash, expiresAt: Time, env: O.Env) returns (s: SessionRecord?)
      requires Valid()
      modifies db
      ensures Valid()
      ensures var (b, row) := T.InsertSession(old(db.View()), uid, hash, expiresAt, env.now,
                                              Domain.CreateSession !in env.faults);
              && db.View() == b && (s == null <==> row.None?) && (s != null ==> fresh(s) && s.Value() == row.value)
    {
      s := new SessionRecord(Session(0, uid, hash, expiresAt, None, 0));
      var done := sessions.Create(s, env.now, Domain.CreateSession !in env.faults);
      if !done {
        s := null;
      }
    }

    // -------------------------------------------------------------- accounts

    method Signup(email: string, password: string, env: O.Env) returns (r: O.Response)
      requires Valid()
      modifies db
      ensures Valid()
      ensures (db.View(), r) == O.Signup(config, old(db.View()), email, password, env)
    {
      var taken := users.ExistsEmail(email, ExistsEmail !in env.faults);
      if taken.Err? {
        return O.Rejected(taken.error);
      }
      if taken.value {
        return O.Rejected(Conflict);
      }
      if Hashing in env.faults {
        return O.Rejected(Internal);
      }
      var uid := users.Create(email, None, false, Bcrypt(password), env.now, env.faults);
      if uid.None? || Randomness in env.faults || CodeHashing in env.faults {
        return O.Rejected(Internal);
      }
      r := IssueOtp(uid.value, SignupVerification, env);
    }

    /** The otp record that Signup and ForgotPassword store, and their answer. */
    method IssueOtp(uid: int, purpose: Purpose, env: O.Env) returns (r: O.Response)
      requires Valid()
      modifies db
      ensures Valid()
      ensures (db.View(), r) == O.Issue(config, old(db.View()), uid, purpose, env)
    {
      var done := otps.Create(uid, env.otpHash, Bcrypt(env.code), purpose,
                              env.now + config.otpExpiry, env.now, CreateOtp !in env.faults);
      if !done {
        return O.Rejected(Internal);
      }
      r := if purpose.SignupVerification? then O.SignedUp(env.otpHash) else O.ResetSent(env.otpHash);
    }

    /** VerifyOTP, the part that reads. */
    method CheckSignupOtp(otpHash: string, code: string, env: O.Env) returns (r: Result<int>)
      requires Valid()
      ensures r == O.CheckSignupOtp(db.View(), otpHash, code, env)
    {
      if otpHash == "" {
        return Err(Validation);
      }
      var otp := otps.GetByOTPHash(otpHash, SignupVerification, GetOtp !in env.faults);
      if otp.Err? {
        return Err(otp.error);
      }
      var uid := otp.value.userId;
      var user := users.GetByID(uid, GetUserByID !in env.faults);
      if user.Err? {
        return Err(user.error);
      }
      if user.value.verified {
        return Err(Validation);
      }
      if env.now > otp.value.expiresAt || !Verify(otp.value.code, code) {
        return Err(Unauthorized);
      }
      r := Ok(uid);
    }

    /** VerifyOTP, the part that marks the user verified and uses up the code. */
    method AdmitByOtp(otpHash: string, code: string, env: O.Env) returns (r: Result<(int, string)>)
      requires Valid()
      modifies db
      ensures Valid()
      ensures (db.View(), r) == O.AdmitByOtp(old(db.View()), otpHash, code, env)
    {
      var uid := CheckSignupOtp(otpHash, code, env);
      if uid.Err? {
        return Err(uid.error);
      }
      var email := if uid.value in db.users then db.users[uid.value].email else "";
      var name := GenerateUniqueUsername(email, env.draws);
      if name.None? {
        return Err(Internal);
      }
      var done := users.UpdateVerified(uid.value, name.value, UpdateVerified !in env.faults);
      if !done || SoftDeleteOtp in env.faults {
        return Err(Internal);
      }
      otps.SoftDeleteByOTPHash(otpHash, SignupVerification, env.now, true);
      r := Ok((uid.value, name.value));
    }

    method VerifyOTP(otpHash: string, code: string, env: O.Env) returns (r: O.Response)
      requires Valid()
      modifies db, cache.Changes()
      ensures Valid()
      ensures (View(), r) == O.VerifyOtp(config, old(View()), otpHash, code, env)
    {
      var admitted := AdmitByOtp(otpHash, code, env);
      if admitted.Err? {
        return O.Rejected(admitted.error);
      }
      var expiresAt := CreateSession(admitted.value.0, env);
      r := if expiresAt.Some? then O.Verified(admitted.value.1, env.token, expiresAt.value) else O.Rejected(Internal);
    }

    /** Login up to the point where it opens a session. */
    method AdmitByPassword(email: string, password: string, env: O.Env) returns (r: Result<int>)
      requires Valid()
      modifies db
      ensures Valid()
      ensures (db.View(), r) == O.AdmitByPassword(old(db.View()), email, password, env)
    {
      var user := users.GetByEmail(email, GetUserByEmail !in env.faults);
      if user.Err? {
        return Err(if user.error == NotFound then Unauthorized else user.error);
      }
      var (uid, row, digest) := user.value;
      if !row.verified {
        return Err(Unauthorized);
      }
      if digest.None? || !Verify(digest.value, password) {
        return Err(Unauthorized);
      }
      users.UpdateLastLogin(uid, env.now, UpdateUserLastLogin !in env.faults);
      r := Ok(uid);
    }

    method Login(email: string, password: string, env: O.Env) returns (r: O.Response)
      requires Valid()
      modifies db, cache.Changes()
      ensures Valid()
      ensures (View(), r) == O.Login(config, old(View()), email, password, env)
    {
      var admitted := AdmitByPassword(email, password, env);
      r := OpenFor(admitted, env);
    }

    /** The tail of Login and of ExchangeOAuthCode. */
    method OpenFor(admitted: Result<int>, env: O.Env) returns (r: O.Response)
      requires Valid()
      modifies db, cache.Changes()
      ensures Valid()
      ensures (View(), r) == O.OpenFor(config, old(View()), old(db.View()), admitted, env)
    {
      if admitted.Err? {
        return O.Rejected(admitted.error);
      }
      var expiresAt := CreateSession(admitted.value, env);
      r := if expiresAt.Some? then O.LoggedIn(env.token, expiresAt.value) else O.Rejected(Internal);
    }

    /** ExchangeOAuthCode from the verified claims up to the point where it opens a session. */
    method AdmitByProvider(key: LinkKey, email: string, env: O.Env) returns (r: Result<int>)
      requires Valid()
      modifies db
      ensures Valid()
      ensures (db.View(), r) == O.AdmitByProvider(old(db.View()), key, email, env)
    {
      var link := links.GetByProvider(key, GetLink !in env.faults);
      if link.Ok? {
        links.UpdateLastLogin(key, env.now, UpdateLinkLastLogin !in env.faults);
        return Ok(link.value.userId);
      }
      if link.error != NotFound {
        return Err(link.error);
      }
      var user := users.GetByEmail(email, GetUserByEmail !in env.faults);
      if user.Ok? {
        return Err(Conflict);
      }
      if user.error != NotFound {
        return Err(user.error);
      }
      var name := GenerateUniqueUsername(email, env.draws);
      if name.None? {
        return Err(Internal);
      }
      r := Enrol(key, email, name.value, env);
    }

    method Enrol(key: LinkKey, email: string, username: string, env: O.Env) returns (r: Result<int>)
      requires Valid()
      modifies db
      ensures Valid()
      ensures (db.View(), r) == O.Enrol(old(db.View()), key, email, username, env)
    {
      var uid := users.Create(email, Some(username), true, Blank, env.now, env.faults);
      if uid.None? {
        return Err(Internal);
      }
      var linked := links.Create(key, uid.value, env.now, CreateLink !in env.faults);
      r := if linked then Ok(uid.value) else Err(Internal);
    }

    method ExchangeOAuthCode(key: LinkKey, email: string, env: O.Env) returns (r: O.Response)
      requires Valid()
      modifies db, cache.Changes()
      ensures Valid()
      ensures (View(), r) == O.Exchange(config, old(View()), key, email, env)
    {
      var admitted := AdmitByProvider(key, email, env);
      r := OpenFor(admitted, env);
    }

    method GetUser(uid: int, env: O.Env) returns (r: O.Response)
      requires Valid()
      ensures r == O.GetUser(db.View(), uid, env)
    {
      var user := users.GetByID(uid, GetUserByID !in env.faults);
      if user.Err? {
        return O.Rejected(user.error);
      }
      var username := "";
      if user.value.username.Some? {
        username := user.value.username.value;
      }
      r := O.Profile(O.UserData(uid, user.value.email, username, user.value.verified, user.value.createdAt));
    }

    method DeleteUser(uid: int, env: O.Env) returns (r: O.Response)
      requires Valid()
      modifies db
      ensures Valid()
      ensures (db.View(), r) == O.DeleteUser(old(db.View()), uid, env)
    {
      var user := users.GetByID(uid, GetUserByID !in env.faults);
      if user.Err? {
        return O.Rejected(user.error);
      }
      if DeleteUserRow in env.faults {
        return O.Rejected(Internal);
      }
      users.Delete(uid, true);
      r := O.UserDeleted;
    }

    // -------------------------------------------------------------- sessions

    method ValidateSession(token: string, env: O.Env) returns (r: O.Response)
      requires Valid()
      ensures r == O.Validate(config, View(), token, env)
    {
      if token == "" {
        return O.Checked(None);
      }
      var hash := HashToken(token, config.secret);
      var owner := cache.IsTokenValid(hash, env.now, env.faults);
      if owner.Err? {
        owner := sessions.IsTokenValid(hash, env.now, CheckSession !in env.faults);
        if owner.Err? {
          return O.Rejected(owner.error);
        }
      }
      if owner.value.None? {
        return O.Checked(None);
      }
      var user := GetUser(owner.value.value, env);
      r := if user.Profile? then O.Checked(Some(user.user)) else user;
    }

    /** What RefreshSession and Logout read and check first: a private copy of the row. */
    method CheckToken(token: string, env: O.Env) returns (r: Result<SessionRecord>)
      requires Valid()
      ensures match O.CheckToken(config, db.View(), token, env)
              case Err(e) => r == Err(e)
              case Ok(row) => r.Ok? && fresh(r.value) && r.value.Value() == row
    {
      if token == "" {
        return Err(Unauthorized);
      }
      var found := sessions.GetByTokenHash(HashToken(token, config.secret), GetSession !in env.faults);
      if found.Ok? && env.now > found.value.expiresAt {
        return Err(Unauthorized);
      }
      r := found;
    }

    method RefreshSession(token: string, env: O.Env) returns (r: O.Response)
      requires Valid()
      modifies db, cache.Changes()
      ensures Valid()
      ensures (View(), r) == O.Refresh(config, old(View()), token, env)
      ensures forall o: SessionRecord | old(allocated(o)) :: o.Value() == old(o.Value())
    {
      var found := CheckToken(token, env);
      if found.Err? {
        return O.Rejected(found.error);
      }
      if Randomness in env.faults {
        return O.Rejected(Internal);
      }
      r := Rotate(found.value, env);
    }

    method Rotate(s: SessionRecord, env: O.Env) returns (r: O.Response)
      requires Valid()
      requires cache.InMemory? ==> s !in cache.memory.sessions.Values
      modifies db, cache.Changes(), s
      ensures Valid()
      ensures (View(), r) == O.Rotate(config, old(View()), old(s.Value()), env)
    {
      var hash := s.tokenHash;
      var done := WriteBack(s, env);
      if !done {
        return O.Rejected(Internal);
      }
      Recache(hash, s, env);
      r := O.Refreshed(env.token);
    }

    /** Changes the copy in place and writes the whole row from it. */
    method WriteBack(s: SessionRecord, env: O.Env) returns (done: bool)
      requires Valid()
      modifies db, s
      ensures db.Valid() && s.Value() == O.Renewed(config, old(s.Value()), env)
      ensures (db.View(), done) == T.UpdateSessionRow(old(db.View()), s.Value(), UpdateSession !in env.faults)
    {
      s.tokenHash := HashToken(env.token, config.secret);
      s.expiresAt := env.now + config.ttl;
      done := sessions.Update(s, UpdateSession !in env.faults);
    }

    method Recache(hash: TokenHash, s: SessionRecord, env: O.Env)
      requires cache.Valid()
      modifies cache.Changes()
      ensures cache.Valid()
      ensures cache.View() == Remember(Forget(old(cache.View()), hash, env.faults), s.tokenHash, s.Value(),
                                       config.ttl, env.now, env.faults)
    {
      cache.InvalidateSessionToken(hash, env.faults);
      cache.SetSession(s.tokenHash, s, config.ttl, env.now, env.faults);
    }

    method Logout(token: string, env: O.Env) returns (r: O.Response)
      requires Valid()
      modifies db, cache.Changes()
      ensures Valid()
      ensures (View(), r) == O.Logout(config, old(View()), token, env)
    {
      var found := CheckToken(token, env);
      if found.Err? {
        return O.Rejected(found.error);
      }
      if SoftDeleteSession in env.faults {
        return O.Rejected(Internal);
      }
      EndSession(found.value.id, found.value.tokenHash, env);
      r := O.LoggedOut;
    }

    /** Logout, the part that writes. */
    method EndSession(id: int, hash: TokenHash, env: O.Env)
      requires Valid()
      modifies db, cache.Changes()
      ensures Valid()
      ensures View() == O.State(T.RetireSession(old(db.View()), id, env.now, true),
                                Forget(old(cache.View()), hash, env.faults))
    {
      sessions.SoftDelete(id, env.now, true);
      cache.InvalidateSessionToken(hash, env.faults);
    }

    // -------------------------------------------------------------- password reset

    method ForgotPassword(email: string, env: O.Env) returns (r: O.Response)
      requires Valid()
      modifies db
      ensures Valid()
      ensures (db.View(), r) == O.ForgotPassword(config, old(db.View()), email, env)
    {
      var user := users.GetByEmail(email, GetUserByEmail !in env.faults);
      if user.Err? {
        return if user.error == NotFound then O.ResetSent("") else O.Rejected(user.error);
      }
      if Randomness in env.faults || CodeHashing in env.faults {
        return O.Rejected(Internal);
      }
      var uid := user.value.0;
      otps.SoftDeleteByUserIDAndPurpose(uid, Purpose.ResetPassword, env.now, SoftDeleteOtpsOfUser !in env.faults);
      r := IssueOtp(uid, Purpose.ResetPassword, env);
    }

    /** ResetPassword, the part that reads. */
    method CheckResetOtp(otpHash: string, code: string, env: O.Env) returns (r: Result<int>)
      requires Valid()
      ensures r == O.CheckResetOtp(db.View(), otpHash, code, env)
    {
      if otpHash == "" {
        return Err(Validation);
      }
      var otp := otps.GetByOTPHash(otpHash, Purpose.ResetPassword, GetOtp !in env.faults);
      if otp.Err? {
        return Err(otp.error);
      }
      if env.now > otp.value.expiresAt || !Verify(otp.value.code, code) {
        return Err(Unauthorized);
      }
      r := Ok(otp.value.userId);
    }

    method ResetPassword(otpHash: string, code: string, password: string, env: O.Env) returns (r: O.Response)
      requires Valid()
      modifies db
      ensures Valid()
      ensures (db.View(), r) == O.Reset(old(db.View()), otpHash, code, password, env)
    {
      var uid := CheckResetOtp(otpHash, code, env);
      if uid.Err? {
        return O.Rejected(uid.error);
      }
      if Hashing in env.faults || UpdatePassword in env.faults {
        return O.Rejected(Internal);
      }
      users.UpdatePassword(uid.value, Bcrypt(password), true);
      if SoftDeleteOtp in env.faults {
        return O.Rejected(Internal);
      }
      otps.SoftDeleteByOTPHash(otpHash, Purpose.ResetPassword, env.now, true);
      r := O.PasswordReset;
    }

    // -------------------------------------------------------------- the cleanup worker

    method Cleanup(env: O.Env)
      requires Valid()
      modifies db
      ensures Valid()
      ensures db.View() == O.Cleanup(old(db.View()), env)
    {
      sessions.DeleteExpiredAndSoftDeleted(env.now, SweepSessions !in env.faults);
      otps.DeleteExpiredAndSoftDeleted(env.now, SweepOtps !in env.faults);
    }
  }
}
