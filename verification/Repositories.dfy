/** The repositories: methods that change the tables in place, each tied to its statement in Tables. */
module Repositories {
  import opened Domain
  import T = Tables

  /** The tables behind the connection pool. */
  class Database {
    var users: map<int, User>
    var credentials: map<int, Digest>
    var otps: map<int, Otp>
    var sessions: map<int, Session>
    var links: map<LinkKey, Link>
    var nextUser: int
    var nextOtp: int
    var nextSession: int

    ghost function View(): T.Store
      reads this
    {
      T.Store(users, credentials, otps, sessions, links, nextUser, nextOtp, nextSession)
    }

    ghost predicate Valid()
      reads this
    {
      T.Wf(View())
    }

    constructor ()
      ensures Valid() && View() == T.EMPTY
    {
      users, credentials, otps, sessions, links := map[], map[], map[], map[], map[];
      nextUser, nextOtp, nextSession := 1, 1, 1;
    }
  }

  /** domain.Session: an object that the service changes and the in-memory cache keeps. */
  class SessionRecord {
    var id: int
    var userId: int
    var tokenHash: TokenHash
    var expiresAt: Time
    var deletedAt: Option<Time>
    var createdAt: Time

    function Value(): Session
      reads this
    {
      Session(id, userId, tokenHash, expiresAt, deletedAt, createdAt)
    }

    constructor (s: Session)
      ensures Value() == s
    {
      id, userId, tokenHash, expiresAt, deletedAt, createdAt :=
        s.id, s.userId, s.tokenHash, s.expiresAt, s.deletedAt, s.createdAt;
    }
  }

  class UserRepository {
    const db: Database

    constructor (db: Database)
      ensures this.db == db
    {
      this.db := db;
    }

    /** Two INSERTs in a transaction. The user id is drawn by the first and is lost when a later
        part fails and everything is rolled back. */
    method Create(email: string, username: Option<string>, verified: bool, digest: Digest, now: Time,
                  faults: set<CallSite>)
      returns (id: Option<int>)
      requires db.Valid()
      modifies db
      ensures db.Valid()
      ensures (db.View(), id) == T.CreateUser(old(db.View()), email, username, verified, digest, now, faults)
    {
      T.CreateUserKeeps(db.View(), email, username, verified, digest, now, faults);
      if CreateUserBegin in faults {
        return None;
      }
      var drawn := db.nextUser;
      var users, credentials := db.users, db.credentials;
      var done := InsertRows(email, username, verified, digest, now, faults);
      if !done {
        db.users, db.credentials := users, credentials;
      }
      id := if done then Some(drawn) else None;
      assert (db.View(), id) == T.CreateUser(old(db.View()), email, username, verified, digest, now, faults);
    }

    /** The statements between BEGIN and the end of COMMIT; on failure the caller rolls back. */
    method InsertRows(email: string, username: Option<string>, verified: bool, digest: Digest, now: Time,
                      faults: set<CallSite>)
      returns (done: bool)
      modifies db`users, db`credentials, db`nextUser
      ensures db.nextUser == old(db.nextUser) + 1
      ensures done == !(CreateUserRow in faults || T.EmailTaken(old(db.View()), email)
                        || (username.Some? && T.UsernameTaken(old(db.View()), username.value))
                        || CreateCredentialsRow in faults || CreateUserCommit in faults)
      ensures done ==> db.users == old(db.users)[old(db.nextUser) := User(email, username, verified, None, now)]
                       && db.credentials == old(db.credentials)[old(db.nextUser) := digest]
    {
      var drawn := db.nextUser;
      db.nextUser := drawn + 1;
      if CreateUserRow in faults
         || (exists u :: u in db.users && db.users[u].email == email)
         || (username.Some? && exists u :: u in db.users && db.users[u].username == Some(username.value)) {
        return false;
      }
      db.users := db.users[drawn := User(email, username, verified, None, now)];
      if CreateCredentialsRow in faults {
        return false;
      }
      db.credentials := db.credentials[drawn := digest];
      done := CreateUserCommit !in faults;
    }

    method GetByEmail(email: string, ok: bool) returns (r: Result<(int, User, Option<Digest>)>)
      requires db.Valid()
      ensures !ok ==> r == Err(Internal)
      ensures ok ==> match T.UserByEmail(db.View(), email)
                     case None => r == Err(NotFound)
                     case Some(u) => r == Ok((u, db.users[u], Some(db.credentials[u])))
    {
      if !ok {
        return Err(Internal);
      }
      if u :| u in db.users && db.users[u].email == email {
        var digest := LoadCredentials(u);
        r := Ok((u, db.users[u], digest));
      } else {
        r := Err(NotFound);
      }
    }

    method GetByID(uid: int, ok: bool) returns (r: Result<User>)
      ensures !ok ==> r == Err(Internal)
      ensures ok ==> r == if uid in db.users then Ok(db.users[uid]) else Err(NotFound)
    {
      r := if !ok then Err(Internal) else if uid in db.users then Ok(db.users[uid]) else Err(NotFound);
    }

    /** The credentials part of loadRelations. */
    method LoadCredentials(uid: int) returns (r: Option<Digest>)
      ensures r == if uid in db.credentials then Some(db.credentials[uid]) else None
    {
      r := if uid in db.credentials then Some(db.credentials[uid]) else None;
    }

    method ExistsEmail(email: string, ok: bool) returns (r: Result<bool>)
      ensures r == if ok then Ok(T.EmailTaken(db.View(), email)) else Err(Internal)
    {
      r := if ok then Ok(exists u :: u in db.users && db.users[u].email == email) else Err(Internal);
    }

    method ExistsUsername(name: string, ok: bool) returns (r: Result<bool>)
      ensures r == if ok then Ok(T.UsernameTaken(db.View(), name)) else Err(Internal)
    {
      r := if ok then Ok(exists u :: u in db.users && db.users[u].username == Some(name)) else Err(Internal);
    }

    method UpdateVerified(uid: int, username: string, ok: bool) returns (done: bool)
      requires db.Valid()
      modifies db
      ensures db.Valid()
      ensures (db.View(), done) == T.MarkVerified(old(db.View()), uid, username, ok)
    {
      T.MarkVerifiedKeeps(db.View(), uid, username, ok);
      if !ok {
        return false;
      }
      if uid in db.users {
        if exists v :: v in db.users && v != uid && db.users[v].username == Some(username) {
          return false;
        }
        db.users := db.users[uid := db.users[uid].(verified := true, username := Some(username))];
      }
      done := true;
    }

    method UpdateLastLogin(uid: int, now: Time, ok: bool)
      requires db.Valid()
      modifies db
      ensures db.Valid() && db.View() == T.TouchUser(old(db.View()), uid, now, ok)
    {
      T.TouchUserKeeps(db.View(), uid, now, ok);
      if ok && uid in db.users {
        db.users := db.users[uid := db.users[uid].(lastLogin := Some(now))];
      }
    }

    method UpdatePassword(uid: int, digest: Digest, ok: bool)
      requires db.Valid()
      modifies db
      ensures db.Valid() && db.View() == T.SetPassword(old(db.View()), uid, digest, ok)
    {
      T.SetPasswordKeeps(db.View(), uid, digest, ok);
      if ok && uid in db.credentials {
        db.credentials := db.credentials[uid := digest];
      }
    }

    method Delete(uid: int, ok: bool)
      requires db.Valid()
      modifies db
      ensures db.Valid() && db.View() == T.RemoveUser(old(db.View()), uid, ok)
    {
      T.RemoveUserKeeps(db.View(), uid, ok);
      if ok {
        db.users := db.users - {uid};
        db.credentials := db.credentials - {uid};
        db.otps := T.OtpsOfOthers(db.otps, uid);
        db.sessions := T.SessionsOfOthers(db.sessions, uid);
        db.links := T.LinksOfOthers(db.links, uid);
      }
      assert db.View() == T.RemoveUser(old(db.View()), uid, ok);
    }
  }

  class OTPRepository {
    const db: Database

    constructor (db: Database)
      ensures this.db == db
    {
      this.db := db;
    }

    method Create(uid: int, otpHash: string, code: Digest, purpose: Purpose, expiresAt: Time, now: Time, ok: bool)
      returns (done: bool)
      requires db.Valid()
      modifies db
      ensures db.Valid()
      ensures (db.View(), done) == T.InsertOtp(old(db.View()), uid, otpHash, code, purpose, expiresAt, now, ok)
    {
      T.InsertOtpKeeps(db.View(), uid, otpHash, code, purpose, expiresAt, now, ok);
      if !ok {
        return false;
      }
      var drawn := db.nextOtp;
      db.nextOtp := drawn + 1;
      if uid !in db.users || exists i :: i in db.otps && db.otps[i].otpHash == otpHash {
        return false;
      }
      db.otps := db.otps[drawn := Otp(drawn, uid, otpHash, code, purpose, expiresAt, None, now)];
      done := true;
    }

    method GetByOTPHash(otpHash: string, purpose: Purpose, ok: bool) returns (r: Result<Otp>)
      requires db.Valid()
      ensures !ok ==> r == Err(Internal)
      ensures ok ==> match T.LiveOtp(db.View(), otpHash, purpose)
                     case None => r == Err(NotFound)
                     case Some(o) => r == Ok(o)
    {
      if !ok {
        return Err(Internal);
      }
      if i :| i in db.otps && T.IsLiveOtp(db.otps[i], otpHash, purpose) {
        r := Ok(db.otps[i]);
      } else {
        r := Err(NotFound);
      }
    }

    method SoftDeleteByOTPHash(otpHash: string, purpose: Purpose, now: Time, ok: bool)
      requires db.Valid()
      modifies db`otps
      ensures db.Valid() && db.View() == T.RetireOtp(old(db.View()), otpHash, purpose, now, ok)
    {
      T.RetireOtpKeeps(db.View(), otpHash, purpose, now, ok);
      if ok {
        db.otps := map i | i in db.otps ::
          if db.otps[i].otpHash == otpHash && db.otps[i].purpose == purpose
          then db.otps[i].(deletedAt := Some(now)) else db.otps[i];
        assert db.otps == T.SoftDeleteRows(old(db.otps), T.OtpsByHash(old(db.otps), otpHash, purpose), now);
      }
    }

    method SoftDeleteByUserIDAndPurpose(uid: int, purpose: Purpose, now: Time, ok: bool)
      requires db.Valid()
      modifies db`otps
      ensures db.Valid() && db.View() == T.RetireOtpsOf(old(db.View()), uid, purpose, now, ok)
    {
      T.RetireOtpsOfKeeps(db.View(), uid, purpose, now, ok);
      if ok {
        db.otps := map i | i in db.otps ::
          if db.otps[i].userId == uid && db.otps[i].purpose == purpose
          then db.otps[i].(deletedAt := Some(now)) else db.otps[i];
        assert db.otps == T.SoftDeleteRows(old(db.otps), T.OtpsByUser(old(db.otps), uid, purpose), now);
      }
    }

    method DeleteExpiredAndSoftDeleted(now: Time, ok: bool)
      requires db.Valid()
      modifies db
      ensures db.Valid() && db.View() == T.SweepOtpRows(old(db.View()), now, ok)
    {
      T.SweepOtpRowsKeeps(db.View(), now, ok);
      if ok {
        db.otps := map i | i in db.otps && !(db.otps[i].expiresAt < now || db.otps[i].deletedAt != None) :: db.otps[i];
      }
    }
  }

  class SessionRepository {
    const db: Database

    constructor (db: Database)
      ensures this.db == db
    {
      this.db := db;
    }

    /** Fills the id and the creation time of the caller's record. */
    method Create(s: SessionRecord, now: Time, ok: bool) returns (done: bool)
      requires db.Valid()
      modifies db, s
      ensures db.Valid()
      ensures var (b, row) := T.InsertSession(old(db.View()), old(s.userId), old(s.tokenHash), old(s.expiresAt), now,
                                              ok);
              && db.View() == b && done == row.Some?
              && s.Value() == if done then old(s.Value()).(id := row.value.id, createdAt := row.value.createdAt)
                 else old(s.Value())
    {
      T.InsertSessionKeeps(db.View(), s.userId, s.tokenHash, s.expiresAt, now, ok);
      if !ok {
        return false;
      }
      var drawn := db.nextSession;
      db.nextSession := drawn + 1;
      if s.userId !in db.users || exists i :: i in db.sessions && db.sessions[i].tokenHash == s.tokenHash {
        return false;
      }
      db.sessions := db.sessions[drawn := Session(drawn, s.userId, s.tokenHash, s.expiresAt, None, now)];
      assert db.View() == T.InsertSession(old(db.View()), s.userId, s.tokenHash, s.expiresAt, now, ok).0;
      s.id, s.createdAt := drawn, now;
      done := true;
    }

    method GetByTokenHash(hash: TokenHash, ok: bool) returns (r: Result<SessionRecord>)
      requires db.Valid()
      ensures !ok ==> r == Err(Internal)
      ensures ok ==> match T.LiveSession(db.View(), hash)
                     case None => r == Err(NotFound)
                     case Some(s) => r.Ok? && fresh(r.value) && r.value.Value() == s
    {
      if !ok {
        return Err(Internal);
      }
      if i :| i in db.sessions && T.IsLiveSession(db.sessions[i], hash) {
        var s := new SessionRecord(db.sessions[i]);
        r := Ok(s);
      } else {
        r := Err(NotFound);
      }
    }

    /** Writes the whole row from the record, deleted_at included; no row is no error. */
    method Update(s: SessionRecord, ok: bool) returns (done: bool)
      requires db.Valid()
      modifies db
      ensures db.Valid()
      ensures (db.View(), done) == T.UpdateSessionRow(old(db.View()), s.Value(), ok)
    {
      T.UpdateSessionRowKeeps(db.View(), s.Value(), ok);
      if !ok {
        return false;
      }
      if s.id in db.sessions {
        if s.userId !in db.users
           || exists i :: i in db.sessions && i != s.id && db.sessions[i].tokenHash == s.tokenHash {
          return false;
        }
        db.sessions := db.sessions[s.id := s.Value().(createdAt := db.sessions[s.id].createdAt)];
      }
      done := true;
    }

    method SoftDelete(id: int, now: Time, ok: bool)
      requires db.Valid()
      modifies db
      ensures db.Valid() && db.View() == T.RetireSession(old(db.View()), id, now, ok)
    {
      T.RetireSessionKeeps(db.View(), id, now, ok);
      if ok && id in db.sessions {
        db.sessions := db.sessions[id := db.sessions[id].(deletedAt := Some(now))];
      }
    }

    method DeleteExpiredAndSoftDeleted(now: Time, ok: bool)
      requires db.Valid()
      modifies db
      ensures db.Valid() && db.View() == T.SweepSessionRows(old(db.View()), now, ok)
    {
      T.SweepSessionRowsKeeps(db.View(), now, ok);
      if ok {
        db.sessions := map i | i in db.sessions
                         && !(db.sessions[i].expiresAt < now || db.sessions[i].deletedAt != None) :: db.sessions[i];
      }
    }

    method IsTokenValid(hash: TokenHash, now: Time, ok: bool) returns (r: Result<Option<int>>)
      requires db.Valid()
      ensures r == if ok then Ok(T.TokenOwner(db.View(), hash, now)) else Err(Internal)
    {
      if !ok {
        return Err(Internal);
      }
      if i :| i in db.sessions && db.sessions[i].tokenHash == hash && db.sessions[i].expiresAt > now
              && db.sessions[i].deletedAt == None {
        r := Ok(Some(db.sessions[i].userId));
      } else {
        r := Ok(None);
      }
    }
  }

  class ProviderRepository {
    const db: Database

    constructor (db: Database)
      ensures this.db == db
    {
      this.db := db;
    }

    method Create(key: LinkKey, uid: int, now: Time, ok: bool) returns (done: bool)
      requires db.Valid()
      modifies db
      ensures db.Valid()
      ensures (db.View(), done) == T.InsertLink(old(db.View()), key, uid, now, ok)
    {
      T.InsertLinkKeeps(db.View(), key, uid, now, ok);
      if !ok || uid !in db.users || key in db.links
         || exists k :: k in db.links && k.provider == key.provider && db.links[k].userId == uid {
        return false;
      }
      db.links := db.links[key := Link(uid, now, now)];
      done := true;
    }

    method GetByProvider(key: LinkKey, ok: bool) returns (r: Result<Link>)
      ensures r == if !ok then Err(Internal) else if key in db.links then Ok(db.links[key]) else Err(NotFound)
    {
      r := if !ok then Err(Internal) else if key in db.links then Ok(db.links[key]) else Err(NotFound);
    }

    method UpdateLastLogin(key: LinkKey, now: Time, ok: bool)
      requires db.Valid()
      modifies db
      ensures db.Valid() && db.View() == T.TouchLink(old(db.View()), key, now, ok)
    {
      T.TouchLinkKeeps(db.View(), key, now, ok);
      if ok && key in db.links {
        db.links := db.links[key := db.links[key].(lastLoginAt := now)];
      }
    }
  }
}
