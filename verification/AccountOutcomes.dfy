/** Accounts made and removed: exactly when, and with which rows. */
module AccountOutcomes {
  import opened Domain
  import opened Tables
  import opened CacheStates
  import opened Runs
  import opened Outcomes
  import O = Operations
  import Usernames

  // ---------------------------------------------------------------- Signup

  /** The statements of the transaction that creates a user, the calls of Signup up to its end, and all
      of its calls. */
  const TRANSACTION: set<CallSite> := {CreateUserBegin, CreateUserRow, CreateCredentialsRow, CreateUserCommit}

  const CREATION: set<CallSite> := TRANSACTION + {ExistsEmail, Hashing}

  const SIGNUP_NEEDS: set<CallSite> := CREATION + {Randomness, CodeHashing, CreateOtp}

  /** One more user, with these rows in users and credentials. */
  ghost predicate OneMoreUser(a: Store, b: Store, u: User, digest: Digest) {
    b.users == a.users[a.nextUser := u] && b.credentials == a.credentials[a.nextUser := digest]
  }

  /** The same users, with the same passwords. */
  predicate SameUsers(a: Store, b: Store) {
    b.users == a.users && b.credentials == a.credentials
  }

  /** A live signup code for the new user. */
  ghost predicate OneMoreCode(cfg: O.Config, env: O.Env, a: Store, b: Store) {
    b.otps == a.otps[a.nextOtp := Otp(a.nextOtp, a.nextUser, env.otpHash, Bcrypt(env.code), SignupVerification,
                                      env.now + cfg.otpExpiry, None, env.now)]
  }

  ghost predicate SignsUp(cfg: O.Config, email: string, password: string, env: O.Env, a: Store, b: Store,
                          answer: O.Response) {
    && (answer.SignedUp? <==> EmailFree(a.users, email) && env.faults !! SIGNUP_NEEDS)
    && (answer.SignedUp? ==> answer == O.SignedUp(env.otpHash) && OneMoreCode(cfg, env, a, b))
    && (!answer.SignedUp? ==> b.otps == a.otps)
    && (answer == O.Rejected(Conflict) <==> !EmailFree(a.users, email) && ExistsEmail !in env.faults)
    && (answer.SignedUp? || answer == O.Rejected(Conflict) || answer == O.Rejected(Internal))
    && (if EmailFree(a.users, email) && env.faults !! CREATION
        then OneMoreUser(a, b, User(email, None, false, None, env.now), Bcrypt(password)) else SameUsers(a, b))
    && b.sessions == a.sessions && b.links == a.links
  }

  /** The transaction that creates a user: it commits exactly when email and username are free and
      none of its statements fails; otherwise users and passwords are as before. */
  ghost predicate Creates(a: Store, u: User, digest: Digest, env: O.Env, b: Store, id: Option<int>) {
    && (id.Some? <==> EmailFree(a.users, u.email) && (u.username.Some? ==> NameFree(a.users, u.username.value))
                      && env.faults !! TRANSACTION)
    && (id.Some? ==> id.value == a.nextUser && OneMoreUser(a, b, u, digest))
    && (id.None? ==> SameUsers(a, b))
    && b.otps == a.otps && b.nextOtp == a.nextOtp && b.sessions == a.sessions && b.nextSession == a.nextSession
    && b.links == a.links
  }

  lemma CreationOutcome(db: Store, u: User, digest: Digest, env: O.Env)
    requires Wf(db) && u.lastLogin == None && u.createdAt == env.now
    ensures var (t, id) := CreateUser(db, u.email, u.username, u.verified, digest, env.now, env.faults);
            Wf(t) && Creates(db, u, digest, env, t, id)
  {
    CreateUserKeeps(db, u.email, u.username, u.verified, digest, env.now, env.faults);
    assert EmailFree(db.users, u.email) <==> !EmailTaken(db, u.email);
    if u.username.Some? { assert NameFree(db.users, u.username.value) <==> !UsernameTaken(db, u.username.value); }
  }

  lemma WelcomeOutcome(cfg: O.Config, db: Store, id: Option<int>, env: O.Env, t: Store, answer: O.Response)
    requires Wf(db) && !OtpHashTaken(db, env.otpHash) && (id.Some? ==> id.value in db.users)
    requires (t, answer) == O.Welcome(cfg, db, id, env)
    ensures answer.SignedUp? <==> id.Some? && env.faults !! {Randomness, CodeHashing, CreateOtp}
    ensures answer.SignedUp? ==>
              && answer == O.SignedUp(env.otpHash)
              && t.otps == db.otps[db.nextOtp := Otp(db.nextOtp, id.value, env.otpHash, Bcrypt(env.code),
                                                     SignupVerification, env.now + cfg.otpExpiry, None, env.now)]
    ensures !answer.SignedUp? ==> t.otps == db.otps && answer == O.Rejected(Internal)
    ensures SameUsers(db, t) && t.sessions == db.sessions && t.links == db.links
  {
  }

  lemma SignupOutcome(cfg: O.Config, db: Store, email: string, password: string, env: O.Env, t: Store,
                      answer: O.Response)
    requires Wf(db) && !OtpHashTaken(db, env.otpHash) && (t, answer) == O.Signup(cfg, db, email, password, env)
    ensures SignsUp(cfg, email, password, env, db, t, answer)
  {
    assert EmailFree(db.users, email) <==> !EmailTaken(db, email);
    if EmailFree(db.users, email) && env.faults !! {ExistsEmail, Hashing} {
      CreationOutcome(db, User(email, None, false, None, env.now), Bcrypt(password), env);
      var (db', id) := CreateUser(db, email, None, false, Bcrypt(password), env.now, env.faults);
      WelcomeOutcome(cfg, db', id, env, t, answer);
    }
  }

  /** Signup over runs: it answers with the otp hash it drew exactly when nobody has the email and its
      own calls work. Then there is one more user, unverified, without a username, with this email and
      password, and a live signup code for it; all other rows are as before. It is a conflict exactly
      when somebody has the email. A signup that fails later has left the user behind, without a code,
      exactly when the transaction that creates it worked. */
  lemma SignupExactly(sys: Service, cache: CacheState, calls: seq<Call>, k: nat)
    requires Lawful(calls) && k < |calls| && calls[k].op.Signup?
    ensures SignsUp(sys.config, calls[k].op.email, calls[k].op.password, calls[k].env,
                    Before(sys, cache, calls, k), Behind(sys, cache, calls, k), Answer(sys, Empty(cache), calls, k))
  {
    CallIsSound(sys, cache, calls, k);
    StepIs(sys, After(sys, Empty(cache), calls[..k]), calls[k]);
    SignupOutcome(sys.config, Before(sys, cache, calls, k), calls[k].op.email, calls[k].op.password, calls[k].env,
                  Behind(sys, cache, calls, k), Answer(sys, Empty(cache), calls, k));
  }

  // ---------------------------------------------------------------- the provider login

  /** The calls of a provider login up to the end of the transaction that creates the user. */
  const JOINING: set<CallSite> := TRANSACTION + {GetLink, GetUserByEmail}

  /** A new verified user of this email, with the name that was chosen and no password. */
  ghost predicate Joins(email: string, env: O.Env, a: Store, b: Store, name: string) {
    && Chosen(a.users, email, env.draws, name)
    && OneMoreUser(a, b, User(email, Some(name), true, None, env.now), Blank)
  }

  /** Nobody has the email, and a username for it can be found. */
  ghost predicate Joinable(email: string, env: O.Env, a: Store) {
    EmailFree(a.users, email) && exists name: string :: Chosen(a.users, email, env.draws, name)
  }

  /** An identity that is linked notes the login, unless that UPDATE fails; one that is not is linked to
      the new user; or nothing happens. */
  ghost predicate Links(key: LinkKey, env: O.Env, a: Store, b: Store, admitted: bool) {
    b.links == if key in a.links && env.faults !! {GetLink, UpdateLinkLastLogin}
               then a.links[key := Link(a.links[key].userId, env.now, a.links[key].createdAt)]
               else if key !in a.links && admitted then a.links[key := Link(a.nextUser, env.now, env.now)]
               else a.links
  }

  ghost predicate Admittable(key: LinkKey, email: string, env: O.Env, a: Store) {
    if key in a.links then GetLink !in env.faults
    else Joinable(email, env, a) && env.faults !! JOINING + {CreateLink}
  }

  /** What a provider login does to accounts, whether or not it gets its session. */
  ghost predicate Accounts(key: LinkKey, email: string, env: O.Env, a: Store, b: Store) {
    && (if key !in a.links && Joinable(email, env, a) && env.faults !! JOINING
        then exists name: string :: Joins(email, env, a, b, name) else SameUsers(a, b))
    && Links(key, env, a, b, Admittable(key, email, env, a)) && b.otps == a.otps
  }

  ghost predicate Conflicts(key: LinkKey, email: string, env: O.Env, a: Store) {
    key !in a.links && !EmailFree(a.users, email) && env.faults !! {GetLink, GetUserByEmail}
  }

  ghost predicate Admits(key: LinkKey, email: string, env: O.Env, a: Store, b: Store, admitted: Result<int>) {
    && (admitted.Ok? <==> Admittable(key, email, env, a))
    && (admitted.Ok? ==> admitted.value == if key in a.links then a.links[key].userId else a.nextUser)
    && (admitted.Err? ==> admitted.error == if Conflicts(key, email, env, a) then Conflict else Internal)
    && Accounts(key, email, env, a, b) && b.sessions == a.sessions && b.nextSession == a.nextSession
  }

  lemma EnrolmentOutcome(key: LinkKey, email: string, env: O.Env, db: Store, name: string, t: Store,
                         admitted: Result<int>)
    requires Wf(db) && key !in db.links && EmailFree(db.users, email) && Chosen(db.users, email, env.draws, name)
    requires (t, admitted) == O.Enrol(db, key, email, name, env)
    ensures admitted.Ok? <==> env.faults !! TRANSACTION + {CreateLink}
    ensures admitted == Ok(db.nextUser) || admitted == Err(Internal)
    ensures if env.faults !! TRANSACTION then Joins(email, env, db, t, name) else SameUsers(db, t)
    ensures t.links == if admitted.Ok? then db.links[key := Link(db.nextUser, env.now, env.now)] else db.links
    ensures t.otps == db.otps && t.sessions == db.sessions && t.nextSession == db.nextSession
  {
    CreationOutcome(db, User(email, Some(name), true, None, env.now), Blank, env);
  }

  lemma NotJoinable(email: string, env: O.Env, db: Store)
    requires O.PickName(db, email, env.draws, Usernames.MAX_TRIES).None?
    ensures !Joinable(email, env, db)
  {
    forall name: string | Chosen(db.users, email, env.draws, name) ensures false {
      ChosenIsPicked(db, email, env.draws, name);
    }
  }

  lemma LinkedOutcome(key: LinkKey, email: string, env: O.Env, db: Store, t: Store, admitted: Result<int>)
    requires Wf(db) && key in db.links && (t, admitted) == O.AdmitByProvider(db, key, email, env)
    ensures Admits(key, email, env, db, t, admitted)
  {
  }

  lemma NewcomerOutcome(key: LinkKey, email: string, env: O.Env, db: Store, t: Store, admitted: Result<int>)
    requires Wf(db) && key !in db.links && EmailFree(db.users, email) && env.faults !! {GetLink, GetUserByEmail}
    requires (t, admitted) == O.AdmitByProvider(db, key, email, env)
    ensures Admits(key, email, env, db, t, admitted)
  {
    assert !EmailTaken(db, email);
    var name := O.PickName(db, email, env.draws, Usernames.MAX_TRIES);
    if name.Some? {
      PickedIsChosen(db, email, env.draws);
      EnrolmentOutcome(key, email, env, db, name.value, t, admitted);
    } else {
      NotJoinable(email, env, db);
    }
  }

  lemma ProviderOutcome(key: LinkKey, email: string, env: O.Env, db: Store, t: Store, admitted: Result<int>)
    requires Wf(db) && (t, admitted) == O.AdmitByProvider(db, key, email, env)
    ensures Admits(key, email, env, db, t, admitted)
  {
    if key in db.links { LinkedOutcome(key, email, env, db, t, admitted); }
    else if EmailFree(db.users, email) && env.faults !! {GetLink, GetUserByEmail} {
      NewcomerOutcome(key, email, env, db, t, admitted);
    } else {
      assert EmailFree(db.users, email) <==> !EmailTaken(db, email);
    }
  }

  /** The user admitted is in the tables, and the token is still new to them. */
  lemma AdmittedIsThere(cfg: O.Config, key: LinkKey, email: string, env: O.Env, db: Store, t: Store,
                        admitted: Result<int>)
    requires Wf(db) && (t, admitted) == O.AdmitByProvider(db, key, email, env)
    requires !TokenHashTaken(db, HashToken(env.token, cfg.secret))
    ensures Wf(t) && !TokenHashTaken(t, HashToken(env.token, cfg.secret))
    ensures admitted.Ok? ==> admitted.value in t.users
  {
    AdmitByProviderTables(cfg, db, key, email, env);
    ProviderOutcome(key, email, env, db, t, admitted);
  }

  /** One more session of this user, or as many as before. */
  ghost predicate Sessions(cfg: O.Config, env: O.Env, a: Store, b: Store, u: Option<int>) {
    b.sessions == if u.None? then a.sessions
                  else a.sessions[a.nextSession := Fresh(cfg, a.nextSession, u.value, env)]
  }

  ghost predicate Exchanges(cfg: O.Config, key: LinkKey, email: string, env: O.Env, a: Store, b: Store,
                            answer: O.Response) {
    && (answer.LoggedIn? <==> Admittable(key, email, env, a) && env.faults !! OPENING)
    && answer == (if answer.LoggedIn? then O.LoggedIn(env.token, env.now + cfg.ttl)
                  else if Conflicts(key, email, env, a) then O.Rejected(Conflict) else O.Rejected(Internal))
    && Accounts(key, email, env, a, b)
    && Sessions(cfg, env, a, b, if !answer.LoggedIn? then None
                                else Some(if key in a.links then a.links[key].userId else a.nextUser))
  }

  lemma ExchangeOutcome(cfg: O.Config, s: O.State, key: LinkKey, email: string, env: O.Env, t: Store,
                        answer: O.Response)
    requires Wf(s.db) && !TokenHashTaken(s.db, HashToken(env.token, cfg.secret))
    requires var r := O.Exchange(cfg, s, key, email, env); t == r.0.db && answer == r.1
    ensures Exchanges(cfg, key, email, env, s.db, t, answer)
  {
    var (db, admitted) := O.AdmitByProvider(s.db, key, email, env);
    ProviderOutcome(key, email, env, s.db, db, admitted);
    AdmittedIsThere(cfg, key, email, env, s.db, db, admitted);
    AdmissionOutcome(cfg, s, db, admitted, env, t, answer);
    AccountsCarry(key, email, env, s.db, db, t);
  }

  lemma AccountsCarry(key: LinkKey, email: string, env: O.Env, a: Store, m: Store, b: Store)
    requires Accounts(key, email, env, a, m)
    requires b.users == m.users && b.credentials == m.credentials && b.links == m.links && b.otps == m.otps
    ensures Accounts(key, email, env, a, b)
  {
    if exists name: string :: Joins(email, env, a, m, name) {
      var name: string :| Joins(email, env, a, m, name);
      assert Joins(email, env, a, b, name);
    }
  }

  /** Whoever is admitted gets a session, if the calls that open it work. */
  lemma AdmissionOutcome(cfg: O.Config, s: O.State, db: Store, admitted: Result<int>, env: O.Env, t: Store,
                         answer: O.Response)
    requires Wf(db) && !TokenHashTaken(db, HashToken(env.token, cfg.secret))
    requires admitted.Ok? ==> admitted.value in db.users
    requires var r := O.OpenFor(cfg, s, db, admitted, env); t == r.0.db && answer == r.1
    ensures answer == if admitted.Err? then O.Rejected(admitted.error)
                      else if env.faults !! OPENING then O.LoggedIn(env.token, env.now + cfg.ttl)
                      else O.Rejected(Internal)
    ensures t.users == db.users && t.credentials == db.credentials && t.links == db.links && t.otps == db.otps
    ensures Sessions(cfg, env, db, t, if answer.LoggedIn? then Some(admitted.value) else None)
  {
    if admitted.Ok? {
      OpeningOutcome(cfg, s.(db := db), admitted.value, env);
    }
  }

  /** The provider login over runs: it answers with its token, good for the TTL, exactly when its own
      calls work and the identity is linked, or else nobody has the email and one of the first ten
      draws makes a username that fits and is free. The session is of the linked user, or of a new
      verified user with this email and the first such name, to whom the identity is now linked. */
  lemma ExchangeExactly(sys: Service, cache: CacheState, calls: seq<Call>, k: nat)
    requires Lawful(calls) && k < |calls| && calls[k].op.Exchange?
    ensures Exchanges(sys.config, calls[k].op.key, calls[k].op.email, calls[k].env,
                      Before(sys, cache, calls, k), Behind(sys, cache, calls, k), Answer(sys, Empty(cache), calls, k))
  {
    CallIsSound(sys, cache, calls, k);
    StepIs(sys, After(sys, Empty(cache), calls[..k]), calls[k]);
    ExchangeOutcome(sys.config, After(sys, Empty(cache), calls[..k]), calls[k].op.key, calls[k].op.email, calls[k].env,
                    Behind(sys, cache, calls, k), Answer(sys, Empty(cache), calls, k));
  }

  // ---------------------------------------------------------------- the password login

  /** A verified user with this email and this password. */
  ghost predicate Known(a: Store, email: string, password: string, u: int) {
    && u in a.users && a.users[u].email == email && a.users[u].verified
    && u in a.credentials && a.credentials[u] == Bcrypt(password)
  }

  ghost predicate Recognised(a: Store, email: string, password: string) {
    exists u :: Known(a, email, password, u)
  }

  /** What a password login by user u does, once the user is recognised. */
  ghost predicate Notes(cfg: O.Config, env: O.Env, u: int, a: Store, b: Store, success: bool)
    requires u in a.users
  {
    && b.users == (if UpdateUserLastLogin in env.faults then a.users
                   else a.users[u := a.users[u].(lastLogin := Some(env.now))])
    && Sessions(cfg, env, a, b, if success then Some(u) else None)
  }

  ghost predicate LogsIn(cfg: O.Config, email: string, password: string, env: O.Env, a: Store, b: Store,
                         answer: O.Response) {
    var recognised := Recognised(a, email, password) && GetUserByEmail !in env.faults;
    && (answer.LoggedIn? <==> recognised && env.faults !! OPENING)
    && answer == (if answer.LoggedIn? then O.LoggedIn(env.token, env.now + cfg.ttl)
                  else if recognised || GetUserByEmail in env.faults then O.Rejected(Internal)
                  else O.Rejected(Unauthorized))
    && (recognised ==> forall u :: Known(a, email, password, u) ==> Notes(cfg, env, u, a, b, answer.LoggedIn?))
    && (!recognised ==> b.users == a.users && b.sessions == a.sessions)
    && b.credentials == a.credentials && b.links == a.links && b.otps == a.otps
  }

  lemma RecognisedIsAdmitted(db: Store, email: string, password: string, env: O.Env, u: int)
    requires Wf(db) && Known(db, email, password, u) && GetUserByEmail !in env.faults
    ensures O.AdmitByPassword(db, email, password, env)
            == (TouchUser(db, u, env.now, UpdateUserLastLogin !in env.faults), Ok(u))
  {
    assert UserByEmail(db, email) == Some(u);
  }

  lemma StrangerIsRejected(db: Store, email: string, password: string, env: O.Env)
    requires Wf(db) && !Recognised(db, email, password) && GetUserByEmail !in env.faults
    ensures O.AdmitByPassword(db, email, password, env) == (db, Err(Unauthorized))
  {
    var u := UserByEmail(db, email);
    if u.Some? { assert !Known(db, email, password, u.value); }
  }

  lemma LoginOutcome(cfg: O.Config, s: O.State, email: string, password: string, env: O.Env, t: Store,
                     answer: O.Response)
    requires Wf(s.db) && !TokenHashTaken(s.db, HashToken(env.token, cfg.secret))
    requires var r := O.Login(cfg, s, email, password, env); t == r.0.db && answer == r.1
    ensures LogsIn(cfg, email, password, env, s.db, t, answer)
  {
    if GetUserByEmail in env.faults {
    } else if Recognised(s.db, email, password) {
      var u :| Known(s.db, email, password, u);
      assert forall v :: Known(s.db, email, password, v) ==> v == u;
      RecognisedIsAdmitted(s.db, email, password, env, u);
      TouchUserKeeps(s.db, u, env.now, UpdateUserLastLogin !in env.faults);
      AdmissionOutcome(cfg, s, TouchUser(s.db, u, env.now, UpdateUserLastLogin !in env.faults), Ok(u), env, t, answer);
    } else {
      StrangerIsRejected(s.db, email, password, env);
    }
  }

  /** The password login over runs: it answers with its token, good for the TTL, exactly when a
      verified user has the email and the password and its own calls work; that user has one more
      session then, and the time of the login is noted unless that UPDATE failed. */
  lemma LoginExactly(sys: Service, cache: CacheState, calls: seq<Call>, k: nat)
    requires Lawful(calls) && k < |calls| && calls[k].op.Login?
    ensures LogsIn(sys.config, calls[k].op.email, calls[k].op.password, calls[k].env,
                   Before(sys, cache, calls, k), Behind(sys, cache, calls, k), Answer(sys, Empty(cache), calls, k))
  {
    CallIsSound(sys, cache, calls, k);
    StepIs(sys, After(sys, Empty(cache), calls[..k]), calls[k]);
    LoginOutcome(sys.config, After(sys, Empty(cache), calls[..k]), calls[k].op.email, calls[k].op.password,
                 calls[k].env, Behind(sys, cache, calls, k), Answer(sys, Empty(cache), calls, k));
  }

  // ---------------------------------------------------------------- users read and removed

  /** What is told of a user; an unset username is told as the empty string. */
  predicate Told(a: Store, uid: int, told: O.UserData) {
    && uid in a.users && told.userId == uid && told.email == a.users[uid].email
    && told.verified == a.users[uid].verified && told.createdAt == a.users[uid].createdAt
    && (a.users[uid].username == None ==> told.username == "")
    && (a.users[uid].username.Some? ==> Some(told.username) == a.users[uid].username)
  }

  predicate Tells(a: Store, uid: int, env: O.Env, answer: O.Response) {
    && (answer.Profile? <==> uid in a.users && GetUserByID !in env.faults)
    && (answer.Profile? ==> Told(a, uid, answer.user))
    && (!answer.Profile? ==> answer == O.Rejected(if GetUserByID in env.faults then Internal else NotFound))
  }

  /** GetUser over runs: it tells exactly the users that exist, with the columns of their rows. */
  lemma GetUserExactly(sys: Service, cache: CacheState, calls: seq<Call>, k: nat)
    requires k < |calls| && calls[k].op.GetUser?
    ensures Tells(Before(sys, cache, calls, k), calls[k].op.uid, calls[k].env, Answer(sys, Empty(cache), calls, k))
  {
    StepIs(sys, After(sys, Empty(cache), calls[..k]), calls[k]);
  }

  /** All rows of all other users are as they were, and there are no more. */
  ghost predicate OthersStay(a: Store, b: Store, uid: int) {
    && (forall u :: u in b.users <==> u in a.users && u != uid)
    && (forall u :: u in b.users ==> b.users[u] == a.users[u])
    && (forall u :: u in b.credentials <==> u in a.credentials && u != uid)
    && (forall u :: u in b.credentials ==> b.credentials[u] == a.credentials[u])
    && (forall i :: i in b.otps <==> i in a.otps && a.otps[i].userId != uid)
    && (forall i :: i in b.otps ==> b.otps[i] == a.otps[i])
    && (forall i :: i in b.sessions <==> i in a.sessions && a.sessions[i].userId != uid)
    && (forall i :: i in b.sessions ==> b.sessions[i] == a.sessions[i])
    && (forall l :: l in b.links <==> l in a.links && a.links[l].userId != uid)
    && (forall l :: l in b.links ==> b.links[l] == a.links[l])
  }

  /** Every row of every table is as it was. */
  predicate SameRows(a: Store, b: Store) {
    SameUsers(a, b) && b.otps == a.otps && b.sessions == a.sessions && b.links == a.links
  }

  ghost predicate Removes(uid: int, env: O.Env, a: Store, b: Store, answer: O.Response) {
    && (answer.UserDeleted? <==> uid in a.users && env.faults !! {GetUserByID, DeleteUserRow})
    && (answer.UserDeleted? ==> Absent(b, uid) && OthersStay(a, b, uid))
    && (!answer.UserDeleted? ==> SameRows(a, b))
    && (answer == O.Rejected(NotFound) <==> uid !in a.users && GetUserByID !in env.faults)
    && (answer.UserDeleted? || answer == O.Rejected(NotFound) || answer == O.Rejected(Internal))
  }

  lemma RemovalOutcome(db: Store, uid: int, env: O.Env, t: Store, answer: O.Response)
    requires Wf(db) && (t, answer) == O.DeleteUser(db, uid, env)
    ensures Removes(uid, env, db, t, answer)
  {
  }

  /** DeleteUser over runs: it succeeds exactly when the user exists and its own calls work; then no
      table mentions the user, and all rows of everyone else are as they were. */
  lemma DeleteExactly(sys: Service, cache: CacheState, calls: seq<Call>, k: nat)
    requires k < |calls| && calls[k].op.Delete?
    ensures Removes(calls[k].op.uid, calls[k].env, Before(sys, cache, calls, k), Behind(sys, cache, calls, k),
                    Answer(sys, Empty(cache), calls, k))
  {
    AfterIsSound(sys, cache, calls[..k]);
    AfterNext(sys, Empty(cache), calls, k);
    StepIs(sys, After(sys, Empty(cache), calls[..k]), calls[k]);
    RemovalOutcome(Before(sys, cache, calls, k), calls[k].op.uid, calls[k].env, Behind(sys, cache, calls, k),
                   Answer(sys, Empty(cache), calls, k));
  }

  lemma {:induction false} GoneForGood(sys: Service, cache: CacheState, calls: seq<Call>, m: nat, n: nat, uid: int)
    requires m <= n <= |calls|
    requires var db := After(sys, Empty(cache), calls[..m]).db; uid < db.nextUser && uid !in db.users
    ensures var db := After(sys, Empty(cache), calls[..n]).db; uid < db.nextUser && uid !in db.users
  {
    if m < n {
      GoneForGood(sys, cache, calls, m, n - 1, uid);
      AfterIsSound(sys, cache, calls[..n - 1]);
      AfterNext(sys, Empty(cache), calls, n - 1);
      StepTables(sys, After(sys, Empty(cache), calls[..n - 1]), calls[n - 1]);
    }
  }

  lemma StepNamesNoStranger(sys: Service, s: O.State, c: Call, uid: int)
    requires uid !in s.db.users
    ensures c.op == Runs.GetUser(uid) ==> sys.step(s, c).1.Rejected?
    ensures c.op.Validate? && sys.step(s, c).1.Checked? && sys.step(s, c).1.owner.Some? ==>
              sys.step(s, c).1.owner.value.userId != uid
  {
    StepIs(sys, s, c);
  }

  /** After DeleteUser has succeeded, no table ever mentions the user again, GetUser for it is always
      rejected, and no validation names it, whatever the cache still holds. */
  lemma DeletedForGood(sys: Service, cache: CacheState, calls: seq<Call>, i: nat, k: nat, uid: int)
    requires i < k < |calls| && calls[i].op == Delete(uid) && Answer(sys, Empty(cache), calls, i).UserDeleted?
    ensures Absent(Before(sys, cache, calls, k), uid)
    ensures calls[k].op == Runs.GetUser(uid) ==> Answer(sys, Empty(cache), calls, k).Rejected?
    ensures calls[k].op.Validate? ==>
              var answer := Answer(sys, Empty(cache), calls, k);
              answer.Checked? && answer.owner.Some? ==> answer.owner.value.userId != uid
  {
    DeleteExactly(sys, cache, calls, i);
    AfterIsSound(sys, cache, calls[..i]);
    AfterNext(sys, Empty(cache), calls, i);
    StepTables(sys, After(sys, Empty(cache), calls[..i]), calls[i]);
    GoneForGood(sys, cache, calls, i + 1, k, uid);
    AfterIsSound(sys, cache, calls[..k]);
    AbsentFromClosure(Before(sys, cache, calls, k), uid);
    StepNamesNoStranger(sys, After(sys, Empty(cache), calls[..k]), calls[k], uid);
  }
}
