/** Who may hold sessions and provider links, in every interleaving. */
module AccountInvariant {
  import opened Domain
  import opened Tables
  import opened Flights
  import opened Interleaving
  import opened TokenInvariant
  import TokenSteps
  import TokenTheorems

  // ---------------------------------------------------------------- the tables

  /** Verified exactly when named. */
  ghost predicate Named(users: map<int, User>) {
    forall u :: u in users ==> (users[u].verified <==> users[u].username.Some?)
  }

  ghost predicate VerifiedUser(users: map<int, User>, uid: int) {
    uid in users && users[uid].verified
  }

  ghost predicate SessionsVerified(users: map<int, User>, sessions: map<int, Session>) {
    forall i :: i in sessions ==> VerifiedUser(users, sessions[i].userId)
  }

  ghost predicate LinksVerified(users: map<int, User>, links: map<LinkKey, Link>) {
    forall k :: k in links ==> VerifiedUser(users, links[k].userId)
  }

  /** No two links, of whatever providers, share a user. */
  ghost predicate LinksInjective(links: map<LinkKey, Link>) {
    forall k, l {:trigger links[k].userId, links[l].userId} ::
      k in links && l in links && links[k].userId == links[l].userId ==> k == l
  }

  ghost predicate AccountTables(st: Store) {
    && Named(st.users) && SessionsVerified(st.users, st.sessions)
    && LinksVerified(st.users, st.links) && LinksInjective(st.links)
  }

  // ---------------------------------------------------------------- facts about one user id

  /** An id that was assigned, and is verified for as long as it exists. */
  ghost predicate Trusted(st: Store, uid: int) {
    uid < st.nextUser && (uid in st.users ==> st.users[uid].verified)
  }

  /** While the user exists, the link exists and leads to the user. */
  ghost predicate Linked(st: Store, key: LinkKey, uid: int) {
    uid in st.users ==> key in st.links && st.links[key].userId == uid
  }

  ghost predicate Unlinked(st: Store, uid: int) {
    forall k :: k in st.links ==> st.links[k].userId != uid
  }

  ghost predicate OriginFacts(st: Store, uid: int, origin: Origin) {
    Trusted(st, uid) && (origin.ByProvider? ==> Linked(st, origin.key, uid))
  }

  ghost predicate UserAnswerFacts(st: Store, a: Answer) {
    a.Opened? ==> OriginFacts(st, a.uid, a.origin)
  }

  ghost predicate UserFacts(st: Store, fl: Flight) {
    && (fl.OfAccount? ==> AccountFacts(st, fl.account))
    && (fl.OfToken? ==>
          && (InOpen(fl.token) ==> OriginFacts(st, fl.token.uid, fl.token.origin))
          && (InSet(fl.token) ==> UserAnswerFacts(st, fl.token.answer)))
    && (fl.Finished? ==> UserAnswerFacts(st, fl.answer))
  }

  ghost predicate AccountFacts(st: Store, a: Account) {
    if a.VerifyUser? || a.VerifyClock? || a.VerifyName? || a.VerifyUpdate? then a.otp.userId < st.nextUser
    else if a.VerifyRetire? then Trusted(st, a.otp.userId)
    else if a.LoginTouch? then Trusted(st, a.uid)
    else if a.ExchangeTouch? then Trusted(st, a.uid) && Linked(st, a.key, a.uid)
    else if a.ExchangeLink? then Trusted(st, a.uid) && Unlinked(st, a.uid)
    else true
  }

  /** The user a provider login created and has not linked yet. */
  function OwnUser(fl: Flight): Option<int> {
    if fl.OfAccount? && fl.account.ExchangeLink? then Some(fl.account.uid) else None
  }

  ghost predicate UsersDistinct(flights: map<int, Flight>) {
    forall f, g {:trigger OwnUser(flights[f]), OwnUser(flights[g])} ::
      f in flights && g in flights && f != g && OwnUser(flights[f]).Some? ==> OwnUser(flights[f]) != OwnUser(flights[g])
  }

  ghost predicate UserFlights(w: World) {
    forall f :: f in w.flights ==> UserFacts(w.db, w.flights[f])
  }

  ghost predicate AccountInv(w: World) {
    AccountTables(w.db) && UserFlights(w) && UsersDistinct(w.flights)
  }

  // ---------------------------------------------------------------- what one step may change

  /** Links stay where they are while their user exists; a new one leads to `linking`. */
  ghost predicate LinksProgress(a: Store, b: Store, linking: Option<int>) {
    && (forall k :: k in b.links ==>
          || Some(b.links[k].userId) == linking
          || (k in a.links && a.links[k].userId == b.links[k].userId))
    && (forall k :: k in a.links && a.links[k].userId in b.users ==>
          k in b.links && b.links[k].userId == a.links[k].userId)
  }

  ghost predicate UserProgress(a: Store, b: Store, linking: Option<int>) {
    a.nextUser <= b.nextUser && UsersEvolve(a.users, a.nextUser, b.users) && LinksProgress(a, b, linking)
  }

  lemma OriginSurvives(a: Store, b: Store, linking: Option<int>, uid: int, origin: Origin)
    requires UserProgress(a, b, linking) && OriginFacts(a, uid, origin)
    ensures OriginFacts(b, uid, origin)
  {
  }

  lemma UserFactsSurvive(a: Store, b: Store, linking: Option<int>, fl: Flight)
    requires UserProgress(a, b, linking) && UserFacts(a, fl)
    requires OwnUser(fl).Some? ==> OwnUser(fl) != linking
    ensures UserFacts(b, fl)
  {
  }

  lemma MoveKeepsAccounts(w: World, v: World, f: int, fl: Flight, linking: Option<int>)
    requires AccountInv(w) && v.flights == w.flights[f := fl]
    requires UserProgress(w.db, v.db, linking) && AccountTables(v.db) && UserFacts(v.db, fl)
    requires linking.Some? ==> f in w.flights && OwnUser(w.flights[f]) == linking
    requires OwnUser(fl).Some? ==> OwnUser(fl).value >= w.db.nextUser
    ensures AccountInv(v)
  {
    forall g | g in v.flights && g != f
      ensures UserFacts(v.db, v.flights[g])
      ensures OwnUser(v.flights[g]).Some? ==> OwnUser(v.flights[g]) != OwnUser(fl)
    {
      assert UserFacts(w.db, w.flights[g]);
      if linking.Some? { assert OwnUser(w.flights[g]).Some? ==> OwnUser(w.flights[g]) != OwnUser(w.flights[f]); }
      UserFactsSurvive(w.db, v.db, linking, w.flights[g]);
    }
  }

  // ---------------------------------------------------------------- account steps

  /** What an account step does to users and links, and what its flight then knows. */
  ghost predicate GoodAccountStep(db: Store, fl: Flight, db': Store, fl': Flight) {
    && UserProgress(db, db', OwnUser(fl)) && AccountTables(db') && UserFacts(db', fl')
    && (OwnUser(fl').Some? ==> OwnUser(fl').value >= db.nextUser)
  }

  /** A row for an id not used before. */
  lemma NewcomerStays(users: map<int, User>, sessions: map<int, Session>, links: map<LinkKey, Link>, id: int, u: User)
    requires id !in users && Named(users) && SessionsVerified(users, sessions) && LinksVerified(users, links)
    requires u.verified <==> u.username.Some?
    ensures var r := users[id := u];
            && Named(r) && SessionsVerified(r, sessions) && LinksVerified(r, links)
            && forall k :: k in links ==> links[k].userId != id
  {
  }

  lemma CreatedUser(db: Store, email: string, username: Option<string>, verified: bool, digest: Digest,
                    now: Time, faults: set<CallSite>)
    requires Wf(db) && AccountTables(db) && (verified <==> username.Some?)
    ensures var (b, id) := CreateUser(db, email, username, verified, digest, now, faults);
            && UserProgress(db, b, None) && AccountTables(b)
            && (id.Some? ==> id.value == db.nextUser < b.nextUser && id.value in b.users
                             && b.users[id.value].verified == verified && Unlinked(b, id.value))
  {
    if CreateUser(db, email, username, verified, digest, now, faults).1.Some? {
      NewcomerStays(db.users, db.sessions, db.links, db.nextUser, User(email, username, verified, None, now));
    }
  }

  lemma SameUsers(db: Store, b: Store)
    requires AccountTables(db)
    requires b == db.(otps := b.otps, nextOtp := b.nextOtp, credentials := b.credentials)
    ensures UserProgress(db, b, None) && AccountTables(b)
  {
  }

  lemma SignupGood(db: Store, a: Account, now: Time, otpExpiry: Time, c: Choice)
    requires Wf(db) && AccountTables(db) && InSignup(a)
    ensures var (b, fl) := SignupStep(db, a, now, otpExpiry, c); GoodAccountStep(db, OfAccount(a), b, fl)
  {
    if a.SignupCreate? { SignupCreateGood(db, a.email, a.digest, now, otpExpiry, c); }
    else { SignupOtherGood(db, a, now, otpExpiry, c); }
  }

  lemma SignupCreateGood(db: Store, email: string, digest: Digest, now: Time, otpExpiry: Time, c: Choice)
    requires Wf(db) && AccountTables(db)
    ensures var (b, fl) := SignupStep(db, SignupCreate(email, digest), now, otpExpiry, c);
            GoodAccountStep(db, OfAccount(SignupCreate(email, digest)), b, fl)
  {
    CreatedUser(db, email, None, false, digest, now, c.faults);
  }

  lemma SignupOtherGood(db: Store, a: Account, now: Time, otpExpiry: Time, c: Choice)
    requires Wf(db) && AccountTables(db) && InSignup(a) && !a.SignupCreate?
    ensures var (b, fl) := SignupStep(db, a, now, otpExpiry, c); GoodAccountStep(db, OfAccount(a), b, fl)
  {
    SignupOtherReads(db, a, now, otpExpiry, c);
    SameUsers(db, SignupStep(db, a, now, otpExpiry, c).0);
  }

  lemma SignupOtherReads(db: Store, a: Account, now: Time, otpExpiry: Time, c: Choice)
    requires InSignup(a) && !a.SignupCreate?
    ensures var (b, fl) := SignupStep(db, a, now, otpExpiry, c);
            b == db.(otps := b.otps, nextOtp := b.nextOtp) && UserFacts(b, fl) && OwnUser(fl).None?
  {
  }

  /** Names and verification together, for a user who may have sessions and links. */
  lemma VerifiedStay(users: map<int, User>, sessions: map<int, Session>, links: map<LinkKey, Link>, uid: int,
                     name: string)
    requires uid in users && Named(users) && SessionsVerified(users, sessions) && LinksVerified(users, links)
    ensures var r := users[uid := users[uid].(verified := true, username := Some(name))];
            Named(r) && SessionsVerified(r, sessions) && LinksVerified(r, links)
  {
  }

  lemma MarkedVerified(db: Store, uid: int, username: string, ok: bool)
    requires Wf(db) && AccountTables(db) && uid < db.nextUser
    ensures var (b, done) := MarkVerified(db, uid, username, ok);
            UserProgress(db, b, None) && AccountTables(b) && (done ==> Trusted(b, uid))
  {
    if MarkVerified(db, uid, username, ok).0 == db { SameUsers(db, db); }
    else { VerifiedStay(db.users, db.sessions, db.links, uid, username); }
  }

  lemma VerifyGood(db: Store, a: Account, now: Time, c: Choice)
    requires Wf(db) && AccountTables(db) && UserFacts(db, OfAccount(a))
    requires InVerify(a)
    ensures var (b, fl) := VerifyStep(db, a, now, c); GoodAccountStep(db, OfAccount(a), b, fl)
  {
    if a.VerifyUpdate? { VerifyUpdateGood(db, a.otp, a.username, now, c); }
    else if a.VerifyRetire? { VerifyRetireGood(db, a.otp, now, c); }
    else { VerifyReadGood(db, a, now, c); }
  }

  lemma VerifyUpdateGood(db: Store, otp: Otp, username: string, now: Time, c: Choice)
    requires Wf(db) && AccountTables(db) && otp.userId < db.nextUser
    ensures var (b, fl) := VerifyStep(db, VerifyUpdate(otp, username), now, c);
            GoodAccountStep(db, OfAccount(VerifyUpdate(otp, username)), b, fl)
  {
    MarkedVerified(db, otp.userId, username, !Fails(c, UpdateVerified));
  }

  lemma VerifyRetireGood(db: Store, otp: Otp, now: Time, c: Choice)
    requires AccountTables(db) && Trusted(db, otp.userId)
    ensures var (b, fl) := VerifyStep(db, VerifyRetire(otp), now, c);
            GoodAccountStep(db, OfAccount(VerifyRetire(otp)), b, fl)
  {
    var b := RetireOtp(db, otp.otpHash, SignupVerification, now, !Fails(c, SoftDeleteOtp));
    assert b == db.(otps := b.otps);
    SameUsers(db, b);
  }

  lemma VerifyReads(db: Store, a: Account, now: Time, c: Choice)
    requires Wf(db) && UserFacts(db, OfAccount(a))
    requires a.VerifyStart? || a.VerifyUser? || a.VerifyClock? || a.VerifyName?
    ensures var (b, fl) := VerifyStep(db, a, now, c); b == db && UserFacts(db, fl) && OwnUser(fl).None?
  {
  }

  lemma VerifyReadGood(db: Store, a: Account, now: Time, c: Choice)
    requires Wf(db) && AccountTables(db) && UserFacts(db, OfAccount(a))
    requires a.VerifyStart? || a.VerifyUser? || a.VerifyClock? || a.VerifyName?
    ensures var (b, fl) := VerifyStep(db, a, now, c); GoodAccountStep(db, OfAccount(a), b, fl)
  {
    VerifyReads(db, a, now, c);
    SameUsers(db, db);
  }

  lemma LoginGood(db: Store, a: Account, now: Time, c: Choice)
    requires Wf(db) && AccountTables(db) && UserFacts(db, OfAccount(a)) && InLogin(a)
    ensures var (b, fl) := LoginStep(db, a, now, c); GoodAccountStep(db, OfAccount(a), b, fl)
  {
    if a.LoginTouch? { UserTouched(db, a.uid, now, !Fails(c, UpdateUserLastLogin)); }
    else { SameUsers(db, db); }
  }

  lemma UserTouched(db: Store, uid: int, now: Time, ok: bool)
    requires AccountTables(db)
    ensures var b := TouchUser(db, uid, now, ok);
            UserProgress(db, b, None) && AccountTables(b) && (Trusted(db, uid) ==> Trusted(b, uid))
  {
  }

  lemma LinkInserted(db: Store, key: LinkKey, uid: int, now: Time, ok: bool)
    requires Wf(db) && AccountTables(db) && Trusted(db, uid) && Unlinked(db, uid)
    ensures var (b, done) := InsertLink(db, key, uid, now, ok);
            UserProgress(db, b, Some(uid)) && AccountTables(b) && Trusted(b, uid) && (done ==> Linked(b, key, uid))
  {
  }

  lemma LinkTouched(db: Store, key: LinkKey, now: Time, ok: bool)
    requires AccountTables(db)
    ensures var b := TouchLink(db, key, now, ok); UserProgress(db, b, None) && AccountTables(b)
  {
  }

  lemma ExchangeGood(db: Store, a: Account, now: Time, c: Choice)
    requires Wf(db) && AccountTables(db) && UserFacts(db, OfAccount(a))
    requires InExchange(a)
    ensures var (b, fl) := ExchangeStep(db, a, now, c); GoodAccountStep(db, OfAccount(a), b, fl)
  {
    if a.ExchangeCreate? { ExchangeCreateGood(db, a, now, c); }
    else if a.ExchangeLink? { ExchangeLinkGood(db, a, now, c); }
    else if a.ExchangeTouch? { ExchangeTouchGood(db, a, now, c); }
    else { ExchangeReadGood(db, a, now, c); }
  }

  lemma ExchangeCreateGood(db: Store, a: Account, now: Time, c: Choice)
    requires Wf(db) && AccountTables(db) && a.ExchangeCreate?
    ensures var (b, fl) := ExchangeStep(db, a, now, c); GoodAccountStep(db, OfAccount(a), b, fl)
  {
    CreatedUser(db, a.email, Some(a.username), true, Blank, now, c.faults);
  }

  lemma ExchangeLinkGood(db: Store, a: Account, now: Time, c: Choice)
    requires Wf(db) && AccountTables(db) && UserFacts(db, OfAccount(a)) && a.ExchangeLink?
    ensures var (b, fl) := ExchangeStep(db, a, now, c); GoodAccountStep(db, OfAccount(a), b, fl)
  {
    LinkInserted(db, a.key, a.uid, now, !Fails(c, CreateLink));
  }

  lemma ExchangeReads(db: Store, a: Account, now: Time, c: Choice)
    requires AccountTables(db) && Wf(db) && (a.ExchangeStart? || a.ExchangeEmail? || a.ExchangeName?)
    ensures var (b, fl) := ExchangeStep(db, a, now, c); b == db && UserFacts(db, fl) && OwnUser(fl).None?
  {
  }

  lemma ExchangeReadGood(db: Store, a: Account, now: Time, c: Choice)
    requires Wf(db) && AccountTables(db) && (a.ExchangeStart? || a.ExchangeEmail? || a.ExchangeName?)
    ensures var (b, fl) := ExchangeStep(db, a, now, c); GoodAccountStep(db, OfAccount(a), b, fl)
  {
    ExchangeReads(db, a, now, c);
    SameUsers(db, db);
  }

  lemma TouchedIsGood(db: Store, key: LinkKey, uid: int, now: Time, ok: bool)
    requires AccountTables(db) && OriginFacts(db, uid, ByProvider(key))
    ensures GoodAccountStep(db, OfAccount(ExchangeTouch(key, uid)), TouchLink(db, key, now, ok),
                            OfToken(Open(uid, ByProvider(key))))
  {
    LinkTouched(db, key, now, ok);
    OriginSurvives(db, TouchLink(db, key, now, ok), None, uid, ByProvider(key));
  }

  lemma ExchangeTouchGood(db: Store, a: Account, now: Time, c: Choice)
    requires AccountTables(db) && UserFacts(db, OfAccount(a)) && a.ExchangeTouch?
    ensures var (b, fl) := ExchangeStep(db, a, now, c); GoodAccountStep(db, OfAccount(a), b, fl)
  {
    TouchedIsGood(db, a.key, a.uid, now, !Fails(c, UpdateLinkLastLogin));
  }

  lemma PasswordTables(db: Store, a: Account, now: Time, otpExpiry: Time, c: Choice)
    requires InPassword(a)
    ensures var (b, fl) := PasswordStep(db, a, now, otpExpiry, c);
            && b == db.(otps := b.otps, nextOtp := b.nextOtp, credentials := b.credentials)
            && UserFacts(b, fl) && OwnUser(fl).None?
  {
  }

  lemma PasswordGood(db: Store, a: Account, now: Time, otpExpiry: Time, c: Choice)
    requires Wf(db) && AccountTables(db)
    requires InPassword(a)
    ensures var (b, fl) := PasswordStep(db, a, now, otpExpiry, c); GoodAccountStep(db, OfAccount(a), b, fl)
  {
    PasswordTables(db, a, now, otpExpiry, c);
    SameUsers(db, PasswordStep(db, a, now, otpExpiry, c).0);
  }

  lemma RemovedSessions(users: map<int, User>, sessions: map<int, Session>, uid: int)
    requires SessionsVerified(users, sessions)
    ensures SessionsVerified(users - {uid}, SessionsOfOthers(sessions, uid))
  {
  }

  lemma RemovedLinks(users: map<int, User>, links: map<LinkKey, Link>, uid: int)
    requires LinksVerified(users, links) && LinksInjective(links)
    ensures LinksVerified(users - {uid}, LinksOfOthers(links, uid)) && LinksInjective(LinksOfOthers(links, uid))
  {
  }

  lemma RemovedUser(db: Store, uid: int, ok: bool)
    requires Wf(db) && AccountTables(db)
    ensures var b := RemoveUser(db, uid, ok); UserProgress(db, b, None) && AccountTables(b)
  {
    if ok {
      RemovedSessions(db.users, db.sessions, uid);
      RemovedLinks(db.users, db.links, uid);
      assert Named(db.users - {uid});
    } else {
      SameUsers(db, db);
    }
  }

  lemma DeleteGood(db: Store, a: Account, c: Choice)
    requires Wf(db) && AccountTables(db) && InDelete(a)
    ensures var (b, fl) := DeleteStep(db, a, c); GoodAccountStep(db, OfAccount(a), b, fl)
  {
    if a.DeleteRow? { DeleteRowGood(db, a.uid, c); } else { DeleteStartGood(db, a.uid, c); }
  }

  lemma DeleteStartGood(db: Store, uid: int, c: Choice)
    requires AccountTables(db)
    ensures var (b, fl) := DeleteStep(db, DeleteStart(uid), c); GoodAccountStep(db, OfAccount(DeleteStart(uid)), b, fl)
  {
    SameUsers(db, db);
  }

  lemma DeleteRowGood(db: Store, uid: int, c: Choice)
    requires Wf(db) && AccountTables(db)
    ensures var (b, fl) := DeleteStep(db, DeleteRow(uid), c); GoodAccountStep(db, OfAccount(DeleteRow(uid)), b, fl)
  {
    RemovedUser(db, uid, !Fails(c, DeleteUserRow));
  }

  lemma AccountStepGood(db: Store, a: Account, now: Time, otpExpiry: Time, c: Choice)
    requires Wf(db) && AccountTables(db) && UserFacts(db, OfAccount(a))
    ensures var (b, fl) := AccountStep(db, a, now, otpExpiry, c); GoodAccountStep(db, OfAccount(a), b, fl)
  {
    if InSignup(a) { SignupGood(db, a, now, otpExpiry, c); }
    else if InLogin(a) { LoginGood(db, a, now, c); }
    else if InDelete(a) { DeleteGood(db, a, c); }
    else if InVerify(a) { VerifyGood(db, a, now, c); }
    else if InExchange(a) { ExchangeGood(db, a, now, c); }
    else { PasswordGood(db, a, now, otpExpiry, c); }
  }

  // ---------------------------------------------------------------- the other steps

  lemma SameAccounts(a: Store, b: Store)
    requires AccountTables(a) && b.users == a.users && b.links == a.links && b.nextUser == a.nextUser
    requires SessionsVerified(a.users, b.sessions)
    ensures AccountTables(b) && UserProgress(a, b, None)
  {
  }

  /** A token step gives sessions to verified users only. */
  lemma TokenStepTables(cfg: Config, w: World, f: int, t: Token, c: Choice)
    requires TokenFacts(cfg, w, t) && f in w.flights && w.flights[f] == OfToken(t)
    requires SessionsVerified(w.db.users, w.db.sessions) && UserFacts(w.db, OfToken(t))
    ensures SessionsVerified(w.db.users, TokenStep(cfg, w, f, t, c).db.sessions)
  {
    StepOf(cfg, w, f, t, c);
    if t.OpenInsert? { OpenedTables(w.db, t.uid, t.hash, t.expiresAt, w.now, !Fails(c, CreateSession)); }
    else if t.RefreshUpdate? { RefreshedTables(w.db, t.s, !Fails(c, UpdateSession)); }
    else if t.LogoutRetire? { RetiredTables(w.db, t.id, w.now, !Fails(c, SoftDeleteSession)); }
    else { TokenTheorems.OtherStepsKeepTables(cfg, w, f, t, c); }
  }

  lemma OpenedTables(db: Store, uid: int, hash: TokenHash, expiresAt: Time, now: Time, ok: bool)
    requires SessionsVerified(db.users, db.sessions) && Trusted(db, uid)
    ensures SessionsVerified(db.users, InsertSession(db, uid, hash, expiresAt, now, ok).0.sessions)
  {
  }

  lemma RefreshedTables(db: Store, s: Session, ok: bool)
    requires SessionsVerified(db.users, db.sessions) && (s.id in db.sessions ==> db.sessions[s.id].userId == s.userId)
    ensures SessionsVerified(db.users, UpdateSessionRow(db, s, ok).0.sessions)
  {
  }

  lemma RetiredTables(db: Store, id: int, now: Time, ok: bool)
    requires SessionsVerified(db.users, db.sessions)
    ensures SessionsVerified(db.users, RetireSession(db, id, now, ok).sessions)
  {
  }

  /** Past the point where a flight says which user its session is for, or never there. */
  predicate Userless(fl: Flight) {
    || (fl.OfToken? && !fl.token.Open? && !fl.token.OpenInsert? && !fl.token.SetFirst? && !fl.token.SetSecond?)
    || (fl.Finished? && !fl.answer.Opened?)
  }

  lemma UserlessFacts(st: Store, fl: Flight)
    requires Userless(fl)
    ensures UserFacts(st, fl) && OwnUser(fl).None?
  {
  }

  lemma TokenStepFacts(cfg: Config, w: World, f: int, t: Token, c: Choice)
    requires f in w.flights && w.flights[f] == OfToken(t) && UserFacts(w.db, OfToken(t))
    ensures var v := TokenStep(cfg, w, f, t, c); UserFacts(w.db, v.flights[f]) && OwnUser(v.flights[f]).None?
  {
    if t.Drop? { DropCarriesNoUser(w, f, t, c); }
    else if InOpen(t) { OpenCarriesOrigin(cfg, w, f, t, c); }
    else if InSet(t) { SetCarriesAnswer(cfg, w, f, t, c); }
    else {
      OthersCarryNoUser(cfg, w, f, t, c);
      UserlessFacts(w.db, TokenStep(cfg, w, f, t, c).flights[f]);
    }
  }

  lemma NextIsUserless(fl: Flight)
    requires ValidateNext(fl) || LogoutNext(fl) || RefreshNext(fl)
    ensures Userless(fl)
  {
  }

  lemma ValidateCarriesNoUser(w: World, f: int, t: Token, c: Choice)
    requires InValidate(t)
    ensures Userless(ValidateStep(w, f, t, c).flights[f])
  {
    ValidateLeads(w, f, t, c);
    NextIsUserless(ValidateStep(w, f, t, c).flights[f]);
  }

  lemma LogoutCarriesNoUser(w: World, f: int, t: Token, c: Choice)
    requires InLogout(t)
    ensures Userless(LogoutStep(w, f, t, c).flights[f])
  {
    LogoutLeads(w, f, t, c);
    NextIsUserless(LogoutStep(w, f, t, c).flights[f]);
  }

  lemma RefreshCarriesNoUser(cfg: Config, w: World, f: int, t: Token, c: Choice)
    requires InRefresh(t)
    requires f in w.flights && w.flights[f] == OfToken(t)
    ensures Userless(RefreshStep(cfg, w, f, t, c).flights[f])
  {
    RefreshLeads(cfg, w, f, t, c);
    NextIsUserless(RefreshStep(cfg, w, f, t, c).flights[f]);
  }

  lemma OthersCarryNoUser(cfg: Config, w: World, f: int, t: Token, c: Choice)
    requires f in w.flights && w.flights[f] == OfToken(t)
    requires Userless(OfToken(t)) && !t.Drop?
    ensures Userless(TokenStep(cfg, w, f, t, c).flights[f])
  {
    StepOf(cfg, w, f, t, c);
    if InValidate(t) { ValidateCarriesNoUser(w, f, t, c); }
    else if InLogout(t) { LogoutCarriesNoUser(w, f, t, c); }
    else { RefreshCarriesNoUser(cfg, w, f, t, c); }
  }

  lemma DropCarriesNoUser(w: World, f: int, t: Token, c: Choice)
    requires t.Drop?
    ensures var fl := DropStep(w, f, t, c).flights[f]; UserFacts(w.db, fl) && OwnUser(fl).None?
  {
    DropLeads(w, f, t, c);
    DroppedCarriesNoUser(w.db, t, DropStep(w, f, t, c).flights[f]);
  }

  lemma DroppedCarriesNoUser(db: Store, t: Token, fl: Flight)
    requires t.Drop? && DropNext(t, fl)
    ensures UserFacts(db, fl) && OwnUser(fl).None?
  {
  }

  lemma OpenCarriesOrigin(cfg: Config, w: World, f: int, t: Token, c: Choice)
    requires InOpen(t) && f in w.flights && w.flights[f] == OfToken(t) && OriginFacts(w.db, t.uid, t.origin)
    ensures var fl := OpenStep(cfg, w, f, t, c).flights[f]; UserFacts(w.db, fl) && OwnUser(fl).None?
  {
    if t.Open? { GenerationCarriesOrigin(cfg, w, f, t.uid, t.origin, c); }
    else { InsertCarriesOrigin(cfg, w, f, t.uid, t.origin, t.hash, t.expiresAt, c); }
  }

  lemma GenerationCarriesOrigin(cfg: Config, w: World, f: int, uid: int, origin: Origin, c: Choice)
    requires f in w.flights && w.flights[f] == OfToken(Open(uid, origin)) && OriginFacts(w.db, uid, origin)
    ensures var fl := OpenStep(cfg, w, f, Open(uid, origin), c).flights[f]; UserFacts(w.db, fl) && OwnUser(fl).None?
  {
  }

  /** Failed, or about to be cached for the user. */
  predicate Inserted(fl: Flight, h: TokenHash, uid: int, origin: Origin) {
    fl == FAILED || (fl.OfToken? && fl.token.SetFirst? && fl.token.answer == Opened(h, uid, origin))
  }

  lemma InsertLeads(cfg: Config, w: World, f: int, uid: int, origin: Origin, h: TokenHash, expiresAt: Time, c: Choice)
    ensures Inserted(OpenStep(cfg, w, f, OpenInsert(uid, origin, h, expiresAt), c).flights[f], h, uid, origin)
  {
    TokenSteps.InsertionShape(cfg, w, f, uid, origin, h, expiresAt, c);
  }

  lemma InsertedFacts(st: Store, fl: Flight, h: TokenHash, uid: int, origin: Origin)
    requires Inserted(fl, h, uid, origin) && OriginFacts(st, uid, origin)
    ensures UserFacts(st, fl) && OwnUser(fl).None?
  {
  }

  lemma InsertCarriesOrigin(cfg: Config, w: World, f: int, uid: int, origin: Origin, h: TokenHash, expiresAt: Time,
                            c: Choice)
    requires OriginFacts(w.db, uid, origin)
    ensures var fl := OpenStep(cfg, w, f, OpenInsert(uid, origin, h, expiresAt), c).flights[f];
            UserFacts(w.db, fl) && OwnUser(fl).None?
  {
    var fl := OpenStep(cfg, w, f, OpenInsert(uid, origin, h, expiresAt), c).flights[f];
    InsertLeads(cfg, w, f, uid, origin, h, expiresAt, c);
    InsertedFacts(w.db, fl, h, uid, origin);
  }

  lemma FinishCarriesAnswer(w: World, f: int, a: Answer)
    requires UserAnswerFacts(w.db, a)
    ensures var fl := Finish(w, f, a).flights[f]; UserFacts(w.db, fl) && OwnUser(fl).None?
  {
  }

  lemma SetCarriesAnswer(cfg: Config, w: World, f: int, t: Token, c: Choice)
    requires InSet(t) && UserFacts(w.db, OfToken(t))
    ensures var fl := SetStep(cfg, w, f, t, c).flights[f]; UserFacts(w.db, fl) && OwnUser(fl).None?
  {
    FinishCarriesAnswer(w, f, t.answer);
  }

  lemma AdvanceKeepsAccounts(cfg: Config, w: World, f: int, c: Choice)
    requires TokenInv(cfg, w) && AccountInv(w) && f in w.flights && w.flights[f].OfAccount?
    ensures AccountInv(AdvanceStep(cfg, w, f, c))
  {
    var v := AdvanceStep(cfg, w, f, c);
    assert UserFacts(w.db, w.flights[f]);
    AccountStepGood(w.db, w.flights[f].account, w.now, cfg.otpExpiry, c);
    MoveKeepsAccounts(w, v, f, v.flights[f], OwnUser(w.flights[f]));
  }

  lemma TokenStepKeepsAccounts(cfg: Config, w: World, f: int, t: Token, c: Choice)
    requires TokenInv(cfg, w) && AccountInv(w) && f in w.flights && w.flights[f] == OfToken(t)
    ensures AccountInv(TokenStep(cfg, w, f, t, c))
  {
    var v := TokenStep(cfg, w, f, t, c);
    assert UserFacts(w.db, w.flights[f]);
    assert FlightFacts(cfg, w, w.flights[f]);
    TokenStepTables(cfg, w, f, t, c);
    TokenStepFacts(cfg, w, f, t, c);
    SameAccounts(w.db, v.db);
    UserFactsSurvive(w.db, v.db, None, v.flights[f]);
    MoveKeepsAccounts(w, v, f, v.flights[f], None);
  }

  lemma BeginKeepsAccounts(w: World, op: Flight)
    requires AccountInv(w)
    ensures AccountInv(BeginStep(w, op))
  {
    if MayBegin(w, op) {
      SameAccounts(w.db, w.db);
      MoveKeepsAccounts(w, BeginStep(w, op), w.nextFlight, op, None);
    }
  }

  lemma StepKeepsAccounts(cfg: Config, w: World, a: Action)
    requires TokenInv(cfg, w) && AccountInv(w)
    ensures AccountInv(Step(cfg, w, a))
  {
    if a.Begin? { BeginKeepsAccounts(w, a.op); }
    else if !a.Advance? { EnvironmentKeepsAccounts(cfg, w, a); }
    else if a.f in w.flights {
      if w.flights[a.f].OfAccount? { AdvanceKeepsAccounts(cfg, w, a.f, a.c); }
      else if w.flights[a.f].OfToken? { TokenStepKeepsAccounts(cfg, w, a.f, w.flights[a.f].token, a.c); }
    }
  }

  lemma EnvironmentKeepsAccounts(cfg: Config, w: World, a: Action)
    requires AccountInv(w) && !a.Begin? && !a.Advance?
    ensures AccountInv(Step(cfg, w, a))
  {
    var v := Step(cfg, w, a);
    SameAccounts(w.db, v.db);
    forall f | f in v.flights ensures UserFacts(v.db, v.flights[f]) {
      UserFactsSurvive(w.db, v.db, None, w.flights[f]);
    }
  }

  lemma {:induction false} RunKeepsAccounts(cfg: Config, w: World, actions: seq<Action>)
    requires TokenInv(cfg, w) && AccountInv(w)
    ensures AccountInv(Run(cfg, w, actions))
  {
    if actions != [] {
      var n := |actions| - 1;
      RunKeepsAccounts(cfg, w, actions[..n]);
      TokenSteps.RunKeeps(cfg, w, actions[..n]);
      StepKeepsAccounts(cfg, Run(cfg, w, actions[..n]), actions[n]);
    }
  }
}
