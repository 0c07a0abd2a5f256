/** The five tables as one value, and one function per SQL statement the repositories send.

    A statement is atomic. With `ok` false the database could not be reached and nothing changes;
    an INSERT that breaks a constraint also fails, but has consumed a value of its BIGSERIAL
    sequence. */
module Tables {
  import opened Domain

  datatype Store = Store(
    users: map<int, User>,
    credentials: map<int, Digest>,
    otps: map<int, Otp>,
    sessions: map<int, Session>,
    links: map<LinkKey, Link>,
    nextUser: int,
    nextOtp: int,
    nextSession: int)

  const EMPTY: Store := Store(map[], map[], map[], map[], map[], 1, 1, 1)

  // ---------------------------------------------------------------- constraints of the schema

  /** Keys drawn from their sequence, one credentials row per user, UNIQUE email and username. */
  ghost predicate UsersWf(users: map<int, User>, credentials: map<int, Digest>, next: int) {
    && credentials.Keys == users.Keys
    && (forall u :: u in users ==> u < next)
    && (forall u, v {:trigger users[u].email, users[v].email} ::
          u in users && v in users && users[u].email == users[v].email ==> u == v)
    && (forall u, v {:trigger users[u].username, users[v].username} ::
          u in users && v in users && users[u].username == users[v].username != None ==> u == v)
  }

  /** Keys drawn from their sequence, owners that exist, UNIQUE otp_hash. */
  ghost predicate OtpsWf(otps: map<int, Otp>, owners: set<int>, next: int) {
    && (forall i :: i in otps ==> otps[i].id == i < next && otps[i].userId in owners)
    && (forall i, j {:trigger otps[i].otpHash, otps[j].otpHash} ::
          i in otps && j in otps && otps[i].otpHash == otps[j].otpHash ==> i == j)
  }

  /** Keys drawn from their sequence, owners that exist, UNIQUE token_hash. */
  ghost predicate SessionsWf(sessions: map<int, Session>, owners: set<int>, next: int) {
    && (forall i :: i in sessions ==> sessions[i].id == i < next && sessions[i].userId in owners)
    && (forall i, j {:trigger sessions[i].tokenHash, sessions[j].tokenHash} ::
          i in sessions && j in sessions && sessions[i].tokenHash == sessions[j].tokenHash ==> i == j)
  }

  /** Owners that exist, UNIQUE (provider_id, user_id). */
  ghost predicate LinksWf(links: map<LinkKey, Link>, owners: set<int>) {
    && (forall k :: k in links ==> links[k].userId in owners)
    && (forall k, l {:trigger links[k].userId, links[l].userId} ::
          k in links && l in links && k.provider == l.provider && links[k].userId == links[l].userId ==> k == l)
  }

  ghost predicate Wf(st: Store) {
    && UsersWf(st.users, st.credentials, st.nextUser)
    && OtpsWf(st.otps, st.users.Keys, st.nextOtp)
    && SessionsWf(st.sessions, st.users.Keys, st.nextSession)
    && LinksWf(st.links, st.users.Keys)
  }

  /** No table mentions the user id. */
  ghost predicate Absent(db: Store, uid: int) {
    && uid !in db.users && uid !in db.credentials
    && (forall i :: i in db.otps ==> db.otps[i].userId != uid)
    && (forall i :: i in db.sessions ==> db.sessions[i].userId != uid)
    && (forall k :: k in db.links ==> db.links[k].userId != uid)
  }

  lemma AbsentFromClosure(db: Store, uid: int)
    requires Wf(db) && uid !in db.users
    ensures Absent(db, uid)
  {
  }

  // ---------------------------------------------------------------- what no statement can undo

  /** A removed user never comes back, an email never changes, verification is never withdrawn. */
  ghost predicate UsersEvolve(a: map<int, User>, next: int, b: map<int, User>) {
    && (forall u :: u in b ==> u in a || next <= u)
    && (forall u :: u in b && u in a ==> b[u].email == a[u].email && (a[u].verified ==> b[u].verified))
  }

  /** An otp row only ever changes its deletion time. */
  ghost predicate OtpsEvolve(a: map<int, Otp>, next: int, b: map<int, Otp>) {
    && (forall i :: i in b ==> i in a || next <= i)
    && (forall i :: i in b && i in a ==>
          && b[i].otpHash == a[i].otpHash && b[i].userId == a[i].userId && b[i].purpose == a[i].purpose
          && b[i].code == a[i].code && b[i].expiresAt == a[i].expiresAt
          && (a[i].deletedAt.Some? ==> b[i].deletedAt.Some?))
  }

  /** A session row keeps its owner and its creation time. */
  ghost predicate SessionsEvolve(a: map<int, Session>, next: int, b: map<int, Session>) {
    && (forall i :: i in b ==> i in a || next <= i)
    && (forall i :: i in b && i in a ==> b[i].userId == a[i].userId && b[i].createdAt == a[i].createdAt)
  }

  ghost predicate Evolves(a: Store, b: Store) {
    && a.nextUser <= b.nextUser && a.nextOtp <= b.nextOtp && a.nextSession <= b.nextSession
    && UsersEvolve(a.users, a.nextUser, b.users)
    && OtpsEvolve(a.otps, a.nextOtp, b.otps)
    && SessionsEvolve(a.sessions, a.nextSession, b.sessions)
  }

  ghost predicate Keeps(a: Store, b: Store) {
    Wf(b) && Evolves(a, b)
  }

  lemma EvolvesTransitive(a: Store, b: Store, c: Store)
    requires Wf(a) && Evolves(a, b) && Evolves(b, c)
    ensures Evolves(a, c)
  {
    assert forall u :: u in c.users && u in a.users ==> u in b.users;
    assert forall i :: i in c.otps && i in a.otps ==> i in b.otps;
    assert forall i :: i in c.sessions && i in a.sessions ==> i in b.sessions;
  }

  lemma EvolvesToItself(st: Store)
    ensures Evolves(st, st)
  {
  }

  lemma MoreOwners(st: Store, owners: set<int>)
    requires Wf(st) && st.users.Keys <= owners
    ensures OtpsWf(st.otps, owners, st.nextOtp) && SessionsWf(st.sessions, owners, st.nextSession)
    ensures LinksWf(st.links, owners)
  {
  }

  // ---------------------------------------------------------------- users and credentials

  ghost predicate EmailTaken(st: Store, email: string) {
    exists u :: u in st.users && st.users[u].email == email
  }

  ghost predicate UsernameTaken(st: Store, name: string) {
    exists u :: u in st.users && st.users[u].username == Some(name)
  }

  ghost function UserByEmail(st: Store, email: string): (r: Option<int>)
    ensures r.Some? ==> r.value in st.users && st.users[r.value].email == email
    ensures r.None? ==> !EmailTaken(st, email)
  {
    if u :| u in st.users && st.users[u].email == email then Some(u) else None
  }

  /** The two INSERTs of one transaction. A failure after BEGIN rolls both back, but the user id
      it drew stays used up. */
  ghost function CreateUser(st: Store, email: string, username: Option<string>, verified: bool, digest: Digest,
                            now: Time, faults: set<CallSite>): (r: (Store, Option<int>))
    ensures r.1.Some? ==> r.1.value == st.nextUser
  {
    if CreateUserBegin in faults then (st, None)
    else
      var drawn := st.(nextUser := st.nextUser + 1);
      if CreateUserRow in faults || EmailTaken(st, email)
         || (username.Some? && UsernameTaken(st, username.value))
         || CreateCredentialsRow in faults || CreateUserCommit in faults
      then (drawn, None)
      else
        var id := st.nextUser;
        (drawn.(users := st.users[id := User(email, username, verified, None, now)],
                credentials := st.credentials[id := digest]), Some(id))
  }

  lemma NewUserWf(users: map<int, User>, credentials: map<int, Digest>, next: int, u: User, digest: Digest)
    requires UsersWf(users, credentials, next)
    requires forall v :: v in users ==>
             users[v].email != u.email && (u.username.Some? ==> users[v].username != u.username)
    ensures UsersWf(users[next := u], credentials[next := digest], next + 1)
    ensures UsersEvolve(users, next, users[next := u])
  {
  }

  lemma CreateUserKeeps(st: Store, email: string, username: Option<string>, verified: bool, digest: Digest,
                        now: Time, faults: set<CallSite>)
    requires Wf(st)
    ensures Keeps(st, CreateUser(st, email, username, verified, digest, now, faults).0)
  {
    EvolvesToItself(st);
    if CreateUser(st, email, username, verified, digest, now, faults).1.Some? {
      NewUserWf(st.users, st.credentials, st.nextUser, User(email, username, verified, None, now), digest);
      MoreOwners(st, st.users.Keys + {st.nextUser});
    }
  }

  /** Zero rows matched is not an error, here and in the other UPDATEs. */
  ghost function MarkVerified(st: Store, uid: int, username: string, ok: bool): (Store, bool)
  {
    if !ok then (st, false)
    else if uid !in st.users then (st, true)
    else if exists v :: v in st.users && v != uid && st.users[v].username == Some(username) then (st, false)
    else (st.(users := st.users[uid := st.users[uid].(verified := true, username := Some(username))]), true)
  }

  lemma VerifiedWf(users: map<int, User>, credentials: map<int, Digest>, next: int, uid: int, name: string)
    requires UsersWf(users, credentials, next) && uid in users
    requires forall v :: v in users && v != uid ==> users[v].username != Some(name)
    ensures var r := users[uid := users[uid].(verified := true, username := Some(name))];
            UsersWf(r, credentials, next) && UsersEvolve(users, next, r) && r.Keys == users.Keys
  {
  }

  lemma MarkVerifiedKeeps(st: Store, uid: int, username: string, ok: bool)
    requires Wf(st)
    ensures Keeps(st, MarkVerified(st, uid, username, ok).0)
  {
    EvolvesToItself(st);
    if MarkVerified(st, uid, username, ok).0 != st { VerifiedWf(st.users, st.credentials, st.nextUser, uid, username); }
  }

  ghost function TouchUser(st: Store, uid: int, now: Time, ok: bool): Store
  {
    if !ok || uid !in st.users then st
    else st.(users := st.users[uid := st.users[uid].(lastLogin := Some(now))])
  }

  lemma TouchUserKeeps(st: Store, uid: int, now: Time, ok: bool)
    requires Wf(st)
    ensures Keeps(st, TouchUser(st, uid, now, ok))
  {
  }

  ghost function SetPassword(st: Store, uid: int, digest: Digest, ok: bool): Store
  {
    if !ok || uid !in st.credentials then st
    else st.(credentials := st.credentials[uid := digest])
  }

  lemma SetPasswordKeeps(st: Store, uid: int, digest: Digest, ok: bool)
    requires Wf(st)
    ensures Keeps(st, SetPassword(st, uid, digest, ok))
  {
  }

  function OtpsOfOthers(otps: map<int, Otp>, uid: int): map<int, Otp> {
    map i | i in otps && otps[i].userId != uid :: otps[i]
  }

  function SessionsOfOthers(sessions: map<int, Session>, uid: int): map<int, Session> {
    map i | i in sessions && sessions[i].userId != uid :: sessions[i]
  }

  function LinksOfOthers(links: map<LinkKey, Link>, uid: int): map<LinkKey, Link> {
    map k | k in links && links[k].userId != uid :: links[k]
  }

  /** DELETE with the cascades of the four referencing tables. */
  ghost function RemoveUser(st: Store, uid: int, ok: bool): Store
  {
    if !ok then st
    else st.(
      users := st.users - {uid},
      credentials := st.credentials - {uid},
      otps := OtpsOfOthers(st.otps, uid),
      sessions := SessionsOfOthers(st.sessions, uid),
      links := LinksOfOthers(st.links, uid))
  }

  lemma RemoveUserKeeps(st: Store, uid: int, ok: bool)
    requires Wf(st)
    ensures Keeps(st, RemoveUser(st, uid, ok))
  {
  }

  // ---------------------------------------------------------------- otps

  ghost predicate OtpHashTaken(st: Store, otpHash: string) {
    exists i :: i in st.otps && st.otps[i].otpHash == otpHash
  }

  ghost function InsertOtp(st: Store, uid: int, otpHash: string, code: Digest, purpose: Purpose, expiresAt: Time,
                           now: Time, ok: bool): (Store, bool)
  {
    if !ok then (st, false)
    else
      var drawn := st.(nextOtp := st.nextOtp + 1);
      if uid !in st.users || OtpHashTaken(st, otpHash) then (drawn, false)
      else
        var id := st.nextOtp;
        (drawn.(otps := st.otps[id := Otp(id, uid, otpHash, code, purpose, expiresAt, None, now)]), true)
  }

  lemma NewOtpWf(otps: map<int, Otp>, owners: set<int>, next: int, o: Otp)
    requires OtpsWf(otps, owners, next) && o.id == next && o.userId in owners
    requires forall i :: i in otps ==> otps[i].otpHash != o.otpHash
    ensures OtpsWf(otps[next := o], owners, next + 1) && OtpsEvolve(otps, next, otps[next := o])
  {
  }

  lemma InsertOtpKeeps(st: Store, uid: int, otpHash: string, code: Digest, purpose: Purpose, expiresAt: Time,
                       now: Time, ok: bool)
    requires Wf(st)
    ensures Keeps(st, InsertOtp(st, uid, otpHash, code, purpose, expiresAt, now, ok).0)
  {
    EvolvesToItself(st);
    if ok && uid in st.users && !OtpHashTaken(st, otpHash) {
      NewOtpWf(st.otps, st.users.Keys, st.nextOtp, Otp(st.nextOtp, uid, otpHash, code, purpose, expiresAt, None, now));
    }
  }

  predicate IsLiveOtp(o: Otp, otpHash: string, purpose: Purpose) {
    o.otpHash == otpHash && o.purpose == purpose && o.deletedAt == None
  }

  ghost function LiveOtp(st: Store, otpHash: string, purpose: Purpose): (r: Option<Otp>)
    ensures r.Some? ==> IsLiveOtp(r.value, otpHash, purpose)
                        && exists i :: i in st.otps && st.otps[i] == r.value
    ensures r.None? ==> forall i :: i in st.otps ==> !IsLiveOtp(st.otps[i], otpHash, purpose)
  {
    if i :| i in st.otps && IsLiveOtp(st.otps[i], otpHash, purpose) then Some(st.otps[i]) else None
  }

  ghost function SoftDeleteRows(otps: map<int, Otp>, hits: set<int>, now: Time): (r: map<int, Otp>)
    ensures r.Keys == otps.Keys
    ensures forall i :: i in otps ==> r[i] == if i in hits then otps[i].(deletedAt := Some(now)) else otps[i]
  {
    map i | i in otps :: if i in hits then otps[i].(deletedAt := Some(now)) else otps[i]
  }

  lemma SoftDeleteRowsKeeps(otps: map<int, Otp>, hits: set<int>, now: Time, owners: set<int>, next: int)
    requires OtpsWf(otps, owners, next)
    ensures OtpsWf(SoftDeleteRows(otps, hits, now), owners, next)
    ensures OtpsEvolve(otps, next, SoftDeleteRows(otps, hits, now))
  {
    var r := SoftDeleteRows(otps, hits, now);
    assert forall i :: i in r ==> r[i].(deletedAt := otps[i].deletedAt) == otps[i];
  }

  ghost function OtpsByHash(otps: map<int, Otp>, otpHash: string, purpose: Purpose): set<int> {
    set i | i in otps && otps[i].otpHash == otpHash && otps[i].purpose == purpose
  }

  ghost function OtpsByUser(otps: map<int, Otp>, uid: int, purpose: Purpose): set<int> {
    set i | i in otps && otps[i].userId == uid && otps[i].purpose == purpose
  }

  ghost function RetireOtp(st: Store, otpHash: string, purpose: Purpose, now: Time, ok: bool): Store
  {
    if !ok then st else st.(otps := SoftDeleteRows(st.otps, OtpsByHash(st.otps, otpHash, purpose), now))
  }

  lemma RetireOtpKeeps(st: Store, otpHash: string, purpose: Purpose, now: Time, ok: bool)
    requires Wf(st)
    ensures Keeps(st, RetireOtp(st, otpHash, purpose, now, ok))
  {
    SoftDeleteRowsKeeps(st.otps, OtpsByHash(st.otps, otpHash, purpose), now, st.users.Keys, st.nextOtp);
  }

  ghost function RetireOtpsOf(st: Store, uid: int, purpose: Purpose, now: Time, ok: bool): Store
  {
    if !ok then st else st.(otps := SoftDeleteRows(st.otps, OtpsByUser(st.otps, uid, purpose), now))
  }

  lemma RetireOtpsOfKeeps(st: Store, uid: int, purpose: Purpose, now: Time, ok: bool)
    requires Wf(st)
    ensures Keeps(st, RetireOtpsOf(st, uid, purpose, now, ok))
  {
    SoftDeleteRowsKeeps(st.otps, OtpsByUser(st.otps, uid, purpose), now, st.users.Keys, st.nextOtp);
  }

  ghost function SweepOtpRows(st: Store, now: Time, ok: bool): Store
  {
    if !ok then st
    else st.(otps := map i | i in st.otps && !(st.otps[i].expiresAt < now || st.otps[i].deletedAt != None)
                         :: st.otps[i])
  }

  lemma SweepOtpRowsKeeps(st: Store, now: Time, ok: bool)
    requires Wf(st)
    ensures Keeps(st, SweepOtpRows(st, now, ok))
  {
  }

  // ---------------------------------------------------------------- sessions

  ghost predicate TokenHashTaken(st: Store, hash: TokenHash) {
    exists i :: i in st.sessions && st.sessions[i].tokenHash == hash
  }

  ghost function InsertSession(st: Store, uid: int, hash: TokenHash, expiresAt: Time, now: Time, ok: bool)
      : (r: (Store, Option<Session>))
    ensures r.1.Some? ==> r.1.value == Session(st.nextSession, uid, hash, expiresAt, None, now)
  {
    if !ok then (st, None)
    else
      var drawn := st.(nextSession := st.nextSession + 1);
      if uid !in st.users || TokenHashTaken(st, hash) then (drawn, None)
      else
        var s := Session(st.nextSession, uid, hash, expiresAt, None, now);
        (drawn.(sessions := st.sessions[s.id := s]), Some(s))
  }

  lemma NewSessionWf(sessions: map<int, Session>, owners: set<int>, next: int, s: Session)
    requires SessionsWf(sessions, owners, next) && s.id == next && s.userId in owners
    requires forall i :: i in sessions ==> sessions[i].tokenHash != s.tokenHash
    ensures SessionsWf(sessions[next := s], owners, next + 1) && SessionsEvolve(sessions, next, sessions[next := s])
  {
  }

  lemma InsertSessionKeeps(st: Store, uid: int, hash: TokenHash, expiresAt: Time, now: Time, ok: bool)
    requires Wf(st)
    ensures Keeps(st, InsertSession(st, uid, hash, expiresAt, now, ok).0)
  {
    EvolvesToItself(st);
    if ok && uid in st.users && !TokenHashTaken(st, hash) {
      NewSessionWf(st.sessions, st.users.Keys, st.nextSession,
                   Session(st.nextSession, uid, hash, expiresAt, None, now));
    }
  }

  predicate IsLiveSession(s: Session, hash: TokenHash) {
    s.tokenHash == hash && s.deletedAt == None
  }

  ghost function LiveSession(st: Store, hash: TokenHash): (r: Option<Session>)
    ensures r.Some? ==> IsLiveSession(r.value, hash)
                        && exists i :: i in st.sessions && st.sessions[i] == r.value
    ensures r.None? ==> forall i :: i in st.sessions ==> !IsLiveSession(st.sessions[i], hash)
  {
    if i :| i in st.sessions && IsLiveSession(st.sessions[i], hash) then Some(st.sessions[i]) else None
  }

  /** The user a token is valid for: the one test that needs expiry strictly ahead. */
  ghost function TokenOwner(st: Store, hash: TokenHash, now: Time): Option<int> {
    var s := LiveSession(st, hash);
    if s.Some? && now < s.value.expiresAt then Some(s.value.userId) else None
  }

  /** Writes every column but the id and the creation time from the caller's copy. */
  ghost function UpdateSessionRow(st: Store, s: Session, ok: bool): (Store, bool)
  {
    if !ok then (st, false)
    else if s.id !in st.sessions then (st, true)
    else if s.userId !in st.users
            || exists i :: i in st.sessions && i != s.id && st.sessions[i].tokenHash == s.tokenHash
    then (st, false)
    else (st.(sessions := st.sessions[s.id := s.(createdAt := st.sessions[s.id].createdAt)]), true)
  }

  lemma UpdateSessionRowKeeps(st: Store, s: Session, ok: bool)
    requires Wf(st)
    ensures Wf(UpdateSessionRow(st, s, ok).0)
    ensures (s.id in st.sessions ==> s.userId == st.sessions[s.id].userId) ==>
            Evolves(st, UpdateSessionRow(st, s, ok).0)
  {
  }

  ghost function RetireSession(st: Store, id: int, now: Time, ok: bool): Store
  {
    if !ok || id !in st.sessions then st
    else st.(sessions := st.sessions[id := st.sessions[id].(deletedAt := Some(now))])
  }

  lemma RetireSessionKeeps(st: Store, id: int, now: Time, ok: bool)
    requires Wf(st)
    ensures Keeps(st, RetireSession(st, id, now, ok))
  {
  }

  ghost function SweepSessionRows(st: Store, now: Time, ok: bool): Store
  {
    if !ok then st
    else st.(sessions := map i | i in st.sessions
                           && !(st.sessions[i].expiresAt < now || st.sessions[i].deletedAt != None)
                           :: st.sessions[i])
  }

  lemma SweepSessionRowsKeeps(st: Store, now: Time, ok: bool)
    requires Wf(st)
    ensures Keeps(st, SweepSessionRows(st, now, ok))
  {
  }

  // ---------------------------------------------------------------- provider links

  ghost function InsertLink(st: Store, key: LinkKey, uid: int, now: Time, ok: bool): (Store, bool)
  {
    if !ok || uid !in st.users || key in st.links
       || exists k :: k in st.links && k.provider == key.provider && st.links[k].userId == uid
    then (st, false)
    else (st.(links := st.links[key := Link(uid, now, now)]), true)
  }

  lemma InsertLinkKeeps(st: Store, key: LinkKey, uid: int, now: Time, ok: bool)
    requires Wf(st)
    ensures Keeps(st, InsertLink(st, key, uid, now, ok).0)
  {
  }

  ghost function TouchLink(st: Store, key: LinkKey, now: Time, ok: bool): Store
  {
    if !ok || key !in st.links then st
    else st.(links := st.links[key := st.links[key].(lastLoginAt := now)])
  }

  lemma TouchLinkKeeps(st: Store, key: LinkKey, now: Time, ok: bool)
    requires Wf(st)
    ensures Keeps(st, TouchLink(st, key, now, ok))
  {
  }
}
