/** One-time codes issued and redeemed: exactly when, and with which rows. */
module CodeOutcomes {
  import opened Domain
  import opened Tables
  import opened CacheStates
  import opened Runs
  import opened Outcomes
  import opened AccountOutcomes
  import O = Operations
  import Usernames

  // ---------------------------------------------------------------- ForgotPassword

  /** The row is a reset code of the user with this email, and the request gets as far as retiring those. */
  predicate Superseded(a: Store, email: string, env: O.Env, o: Otp) {
    && o.userId in a.users && a.users[o.userId].email == email && o.purpose == ResetPassword
    && env.faults !! {GetUserByEmail, Randomness, CodeHashing, SoftDeleteOtpsOfUser}
  }

  /** Every otp row is as it was, but for the superseded ones, which are marked as deleted now. */
  ghost predicate OldCodes(email: string, env: O.Env, a: Store, b: Store) {
    forall i :: i in a.otps ==>
      && i in b.otps
      && (Superseded(a, email, env, a.otps[i]) ==> b.otps[i] == a.otps[i].(deletedAt := Some(env.now)))
      && (!Superseded(a, email, env, a.otps[i]) ==> b.otps[i] == a.otps[i])
  }

  /** The row of a reset code, if it is told, and no other row, is new. */
  ghost predicate NewCode(cfg: O.Config, email: string, env: O.Env, a: Store, b: Store, told: bool) {
    && (forall i :: i in b.otps && i !in a.otps ==> told && i == a.nextOtp)
    && (told ==> exists u :: u in a.users && a.users[u].email == email && NewCodeOf(cfg, env, u, a, b))
  }

  ghost predicate NewCodeOf(cfg: O.Config, env: O.Env, u: int, a: Store, b: Store) {
    a.nextOtp in b.otps
    && b.otps[a.nextOtp] == Otp(a.nextOtp, u, env.otpHash, Bcrypt(env.code), ResetPassword, env.now + cfg.otpExpiry,
                                None, env.now)
  }

  ghost predicate Reissues(cfg: O.Config, email: string, env: O.Env, a: Store, b: Store, answer: O.Response) {
    && (answer.ResetSent? <==> GetUserByEmail !in env.faults
                               && (EmailFree(a.users, email) || env.faults !! {Randomness, CodeHashing, CreateOtp}))
    && answer == (if !answer.ResetSent? then O.Rejected(Internal)
                  else O.ResetSent(if EmailFree(a.users, email) then "" else env.otpHash))
    && OldCodes(email, env, a, b) && NewCode(cfg, email, env, a, b, answer.ResetSent? && !EmailFree(a.users, email))
    && SameUsers(a, b) && b.sessions == a.sessions && b.links == a.links
  }

  lemma RetirementOutcome(db: Store, u: int, env: O.Env, t: Store)
    requires Wf(db) && u in db.users && env.faults !! {GetUserByEmail, Randomness, CodeHashing}
    requires t == RetireOtpsOf(db, u, ResetPassword, env.now, SoftDeleteOtpsOfUser !in env.faults)
    ensures OldCodes(db.users[u].email, env, db, t) && t.otps.Keys == db.otps.Keys && t.nextOtp == db.nextOtp
    ensures SameUsers(db, t) && t.sessions == db.sessions && t.links == db.links
  {
    assert forall v :: v in db.users && db.users[v].email == db.users[u].email ==> v == u;
  }

  lemma IssueOutcome(cfg: O.Config, db: Store, u: int, env: O.Env, t: Store, answer: O.Response)
    requires Wf(db) && u in db.users && !OtpHashTaken(db, env.otpHash)
    requires (t, answer) == O.Issue(cfg, db, u, ResetPassword, env)
    ensures answer == if CreateOtp in env.faults then O.Rejected(Internal) else O.ResetSent(env.otpHash)
    ensures forall i :: i in db.otps ==> i in t.otps && t.otps[i] == db.otps[i]
    ensures forall i :: i in t.otps && i !in db.otps ==> answer.ResetSent? && i == db.nextOtp
    ensures answer.ResetSent? ==> NewCodeOf(cfg, env, u, db, t)
    ensures SameUsers(db, t) && t.sessions == db.sessions && t.links == db.links
  {
  }

  lemma ReissueOutcome(cfg: O.Config, db: Store, u: int, env: O.Env, t: Store, answer: O.Response)
    requires Wf(db) && u in db.users && !OtpHashTaken(db, env.otpHash)
    requires env.faults !! {GetUserByEmail, Randomness, CodeHashing} && (t, answer) == O.Reissue(cfg, db, u, env)
    ensures Reissues(cfg, db.users[u].email, env, db, t, answer)
  {
    var ok := SoftDeleteOtpsOfUser !in env.faults;
    var db' := RetireOtpsOf(db, u, ResetPassword, env.now, ok);
    RetireOtpsOfKeeps(db, u, ResetPassword, env.now, ok);
    RetirementOutcome(db, u, env, db');
    assert forall i :: i in db'.otps ==> db'.otps[i].otpHash == db.otps[i].otpHash;
    IssueOutcome(cfg, db', u, env, t, answer);
    ReissueComposes(cfg, db, db', u, env, t, answer);
  }

  lemma ReissueComposes(cfg: O.Config, a: Store, m: Store, u: int, env: O.Env, b: Store, answer: O.Response)
    requires u in a.users && env.faults !! {GetUserByEmail, Randomness, CodeHashing}
    requires OldCodes(a.users[u].email, env, a, m) && m.otps.Keys == a.otps.Keys && m.nextOtp == a.nextOtp
    requires SameUsers(a, m) && m.sessions == a.sessions && m.links == a.links
    requires answer == if CreateOtp in env.faults then O.Rejected(Internal) else O.ResetSent(env.otpHash)
    requires forall i :: i in m.otps ==> i in b.otps && b.otps[i] == m.otps[i]
    requires forall i :: i in b.otps && i !in m.otps ==> answer.ResetSent? && i == m.nextOtp
    requires answer.ResetSent? ==> NewCodeOf(cfg, env, u, m, b)
    requires SameUsers(m, b) && b.sessions == m.sessions && b.links == m.links
    ensures Reissues(cfg, a.users[u].email, env, a, b, answer)
  {
    assert !EmailFree(a.users, a.users[u].email);
    assert answer.ResetSent? ==> NewCodeOf(cfg, env, u, a, b);
  }

  lemma ForgotOutcome(cfg: O.Config, db: Store, email: string, env: O.Env, t: Store, answer: O.Response)
    requires Wf(db) && !OtpHashTaken(db, env.otpHash) && (t, answer) == O.ForgotPassword(cfg, db, email, env)
    ensures Reissues(cfg, email, env, db, t, answer)
  {
    var u := UserByEmail(db, email);
    if u.Some? && env.faults !! {GetUserByEmail, Randomness, CodeHashing} {
      ReissueOutcome(cfg, db, u.value, env, t, answer);
    }
  }

  /** ForgotPassword over runs: it answers with the hash it drew, or the empty one where nobody has the
      email, exactly when its own calls work. The reset codes of the user with this email are marked as
      deleted, unless that UPDATE fails; every otp row of another user or for another purpose is exactly
      as it was; the only new row is the code for this user. */
  lemma ForgotExactly(sys: Service, cache: CacheState, calls: seq<Call>, k: nat)
    requires Lawful(calls) && k < |calls| && calls[k].op.Forgot?
    ensures Reissues(sys.config, calls[k].op.email, calls[k].env, Before(sys, cache, calls, k),
                     Behind(sys, cache, calls, k), Answer(sys, Empty(cache), calls, k))
  {
    CallIsSound(sys, cache, calls, k);
    StepIs(sys, After(sys, Empty(cache), calls[..k]), calls[k]);
    ForgotOutcome(sys.config, Before(sys, cache, calls, k), calls[k].op.email, calls[k].env,
                  Behind(sys, cache, calls, k), Answer(sys, Empty(cache), calls, k));
  }

  // ---------------------------------------------------------------- VerifyOTP

  /** Row i is the undeleted code of this hash and purpose, the digits are right, and it has not run out. */
  predicate Redeemable(a: Store, otpHash: string, purpose: Purpose, code: string, now: Time, i: int) {
    && otpHash != "" && i in a.otps && a.otps[i].otpHash == otpHash && a.otps[i].purpose == purpose
    && a.otps[i].deletedAt == None && a.otps[i].code == Bcrypt(code) && now <= a.otps[i].expiresAt
  }

  lemma RedeemableIsLive(a: Store, otpHash: string, purpose: Purpose, code: string, now: Time, i: int)
    requires Wf(a) && Redeemable(a, otpHash, purpose, code, now, i)
    ensures LiveOtp(a, otpHash, purpose) == Some(a.otps[i])
  {
  }

  /** Row i can be redeemed, and its user is still unverified. */
  predicate Pending(a: Store, otpHash: string, code: string, now: Time, i: int) {
    Redeemable(a, otpHash, SignupVerification, code, now, i)
    && a.otps[i].userId in a.users && !a.users[a.otps[i].userId].verified
  }

  /** And this is the username that its user gets. */
  ghost predicate Verifiable(a: Store, otpHash: string, code: string, env: O.Env, i: int, name: string) {
    Pending(a, otpHash, code, env.now, i) && Chosen(a.users, a.users[a.otps[i].userId].email, env.draws, name)
  }

  /** The calls of VerifyOTP up to the verification of the user, and all of its calls. */
  const VERIFICATION: set<CallSite> := {GetOtp, GetUserByID, CallSite.UpdateVerified}

  const VERIFY_NEEDS: set<CallSite> := VERIFICATION + {SoftDeleteOtp} + OPENING

  /** The code at row i, and no other row, is marked as deleted. */
  predicate Retires(i: int, env: O.Env, a: Store, b: Store, success: bool)
    requires i in a.otps
  {
    b.otps == if success then a.otps[i := a.otps[i].(deletedAt := Some(env.now))] else a.otps
  }

  ghost predicate Verifies(cfg: O.Config, env: O.Env, i: int, name: string, a: Store, b: Store, answer: O.Response)
    requires i in a.otps && a.otps[i].userId in a.users
  {
    var u := a.otps[i].userId;
    && answer == (if env.faults !! VERIFY_NEEDS then O.Verified(name, env.token, env.now + cfg.ttl)
                  else O.Rejected(Internal))
    && b.users == (if env.faults !! VERIFICATION
                   then a.users[u := a.users[u].(username := Some(name), verified := true)] else a.users)
    && Retires(i, env, a, b, env.faults !! VERIFICATION + {SoftDeleteOtp})
    && Sessions(cfg, env, a, b, if answer.Verified? then Some(u) else None)
    && b.credentials == a.credentials && b.links == a.links
  }

  /** The tables of VerifyOTP before the session. */
  ghost predicate Verifying(env: O.Env, i: int, name: string, a: Store, b: Store, admitted: Result<(int, string)>)
    requires i in a.otps && a.otps[i].userId in a.users
  {
    var u := a.otps[i].userId;
    && admitted == (if env.faults !! VERIFICATION + {SoftDeleteOtp} then Ok((u, name)) else Err(Internal))
    && b.users == (if env.faults !! VERIFICATION
                   then a.users[u := a.users[u].(username := Some(name), verified := true)] else a.users)
    && Retires(i, env, a, b, env.faults !! VERIFICATION + {SoftDeleteOtp})
    && b.sessions == a.sessions && b.nextSession == a.nextSession
    && b.credentials == a.credentials && b.links == a.links
  }

  lemma RetiredIsRow(a: Store, otpHash: string, purpose: Purpose, env: O.Env, i: int)
    requires Wf(a) && i in a.otps && a.otps[i].otpHash == otpHash && a.otps[i].purpose == purpose
    ensures RetireOtp(a, otpHash, purpose, env.now, true)
            == a.(otps := a.otps[i := a.otps[i].(deletedAt := Some(env.now))])
  {
    var hits := OtpsByHash(a.otps, otpHash, purpose);
    assert forall j :: j in hits ==> a.otps[j].otpHash == a.otps[i].otpHash;
    var r, e := SoftDeleteRows(a.otps, hits, env.now), a.otps[i := a.otps[i].(deletedAt := Some(env.now))];
    assert r.Keys == e.Keys;
    assert i in hits;
    assert forall j :: j in r ==> r[j] == e[j];
    assert r == e;
  }

  lemma NamedOutcome(db: Store, otpHash: string, env: O.Env, i: int, name: string, t: Store,
                     admitted: Result<(int, string)>)
    requires Wf(db) && i in db.otps && db.otps[i].otpHash == otpHash && db.otps[i].purpose == SignupVerification
    requires db.otps[i].userId in db.users && NameFree(db.users, name) && env.faults !! {GetOtp, GetUserByID}
    requires (t, admitted) == O.AdmitNamed(db, db.otps[i].userId, Some(name), otpHash, env)
    ensures Verifying(env, i, name, db, t, admitted)
  {
    var u := db.otps[i].userId;
    MarkVerifiedKeeps(db, u, name, UpdateVerified !in env.faults);
    RetiredIsRow(MarkVerified(db, u, name, UpdateVerified !in env.faults).0, otpHash, SignupVerification, env, i);
  }

  lemma PendingOutcome(db: Store, otpHash: string, code: string, env: O.Env, i: int, name: string, t: Store,
                       admitted: Result<(int, string)>)
    requires Wf(db) && Verifiable(db, otpHash, code, env, i, name)
    requires (t, admitted) == O.AdmitByOtp(db, otpHash, code, env)
    ensures Verifying(env, i, name, db, t, admitted)
  {
    RedeemableIsLive(db, otpHash, SignupVerification, code, env.now, i);
    if env.faults !! {GetOtp, GetUserByID} {
      assert O.CheckSignupOtp(db, otpHash, code, env) == Ok(db.otps[i].userId);
      ChosenIsPicked(db, db.users[db.otps[i].userId].email, env.draws, name);
      NamedOutcome(db, otpHash, env, i, name, t, admitted);
    }
  }

  lemma VerifiedUserOpens(cfg: O.Config, s: O.State, db: Store, env: O.Env, i: int, name: string, t: Store,
                          answer: O.Response)
    requires Wf(s.db) && Wf(db) && !TokenHashTaken(s.db, HashToken(env.token, cfg.secret))
    requires i in s.db.otps && s.db.otps[i].userId in s.db.users
    requires Verifying(env, i, name, s.db, db, Ok((s.db.otps[i].userId, name)))
    requires var (s', expiresAt) := O.OpenSession(cfg, s.(db := db), s.db.otps[i].userId, env);
             && t == s'.db
             && answer == if expiresAt.Some? then O.Verified(name, env.token, expiresAt.value) else O.Rejected(Internal)
    ensures Verifies(cfg, env, i, name, s.db, t, answer)
  {
    OpeningOutcome(cfg, s.(db := db), s.db.otps[i].userId, env);
  }

  lemma VerifyOutcome(cfg: O.Config, s: O.State, otpHash: string, code: string, env: O.Env, i: int, name: string,
                      t: Store, answer: O.Response)
    requires Wf(s.db) && !TokenHashTaken(s.db, HashToken(env.token, cfg.secret))
    requires Verifiable(s.db, otpHash, code, env, i, name)
    requires var r := O.VerifyOtp(cfg, s, otpHash, code, env); t == r.0.db && answer == r.1
    ensures Verifies(cfg, env, i, name, s.db, t, answer)
  {
    var (db, admitted) := O.AdmitByOtp(s.db, otpHash, code, env);
    PendingOutcome(s.db, otpHash, code, env, i, name, db, admitted);
    if admitted.Ok? {
      AdmitByOtpTables(cfg, s.db, otpHash, code, env);
      VerifiedUserOpens(cfg, s, db, env, i, name, t, answer);
    }
  }

  /** Why a code is turned away. */
  ghost predicate SignupCodeError(a: Store, otpHash: string, code: string, env: O.Env, error: Error) {
    && (error == Validation <==>
          || otpHash == ""
          || (env.faults !! {GetOtp, GetUserByID}
              && exists i :: Undeleted(a, otpHash, SignupVerification, i) && OwnerVerified(a, i)))
    && (error == NotFound <==>
          otpHash != "" && GetOtp !in env.faults && forall i :: !Undeleted(a, otpHash, SignupVerification, i))
    && (error == Unauthorized <==>
          otpHash != "" && env.faults !! {GetOtp, GetUserByID}
          && exists i :: Undeleted(a, otpHash, SignupVerification, i) && !OwnerVerified(a, i)
                         && (env.now > a.otps[i].expiresAt || a.otps[i].code != Bcrypt(code)))
    && error != Conflict
  }

  predicate Undeleted(a: Store, otpHash: string, purpose: Purpose, i: int) {
    i in a.otps && a.otps[i].otpHash == otpHash && a.otps[i].purpose == purpose && a.otps[i].deletedAt == None
  }

  predicate OwnerVerified(a: Store, i: int) {
    i in a.otps && a.otps[i].userId in a.users && a.users[a.otps[i].userId].verified
  }

  predicate PendingOf(a: Store, otpHash: string, code: string, now: Time, i: int, u: int) {
    Pending(a, otpHash, code, now, i) && a.otps[i].userId == u
  }

  lemma CheckOutcome(db: Store, otpHash: string, code: string, env: O.Env)
    requires Wf(db)
    ensures var checked := O.CheckSignupOtp(db, otpHash, code, env);
            && SignupCodeError(db, otpHash, code, env, if checked.Err? then checked.error else Internal)
            && (checked.Ok? ==> exists i :: PendingOf(db, otpHash, code, env.now, i, checked.value))
  {
    var otp := LiveOtp(db, otpHash, SignupVerification);
    if otp.Some? {
      var i :| i in db.otps && db.otps[i] == otp.value;
      assert Undeleted(db, otpHash, SignupVerification, i);
      assert forall j :: Undeleted(db, otpHash, SignupVerification, j) ==> j == i;
      assert O.CheckSignupOtp(db, otpHash, code, env).Ok? ==>
               PendingOf(db, otpHash, code, env.now, i, db.otps[i].userId);
    }
  }

  ghost predicate AnyVerifiable(a: Store, otpHash: string, code: string, env: O.Env) {
    exists i: int, name: string :: Verifiable(a, otpHash, code, env, i, name)
  }

  lemma UnverifiableOutcome(db: Store, otpHash: string, code: string, env: O.Env)
    requires Wf(db) && !AnyVerifiable(db, otpHash, code, env)
    ensures var (t, admitted) := O.AdmitByOtp(db, otpHash, code, env);
            t == db && admitted.Err? && SignupCodeError(db, otpHash, code, env, admitted.error)
  {
    CheckOutcome(db, otpHash, code, env);
    var uid := O.CheckSignupOtp(db, otpHash, code, env);
    if uid.Ok? {
      var i :| PendingOf(db, otpHash, code, env.now, i, uid.value);
      var email := db.users[uid.value].email;
      if O.PickName(db, email, env.draws, Usernames.MAX_TRIES).Some? {
        PickedIsChosen(db, email, env.draws);
        assert Verifiable(db, otpHash, code, env, i, O.PickName(db, email, env.draws, Usernames.MAX_TRIES).value);
      }
    }
  }

  /** Everything VerifyOTP does, and answers. */
  ghost predicate VerifiesOrRefuses(cfg: O.Config, otpHash: string, code: string, env: O.Env, a: Store, b: Store,
                                    answer: O.Response) {
    && (answer.Verified? <==> AnyVerifiable(a, otpHash, code, env) && env.faults !! VERIFY_NEEDS)
    && (forall i: int, name: string :: Verifiable(a, otpHash, code, env, i, name) ==>
          Verifies(cfg, env, i, name, a, b, answer))
    && (!AnyVerifiable(a, otpHash, code, env) ==> SameRows(a, b))
    && (answer.Verified? || (answer.Rejected? && SignupCodeError(a, otpHash, code, env, answer.error)))
  }

  lemma VerifyOtpOutcome(cfg: O.Config, s: O.State, otpHash: string, code: string, env: O.Env, t: Store,
                         answer: O.Response)
    requires Wf(s.db) && !TokenHashTaken(s.db, HashToken(env.token, cfg.secret))
    requires var r := O.VerifyOtp(cfg, s, otpHash, code, env); t == r.0.db && answer == r.1
    ensures VerifiesOrRefuses(cfg, otpHash, code, env, s.db, t, answer)
  {
    if AnyVerifiable(s.db, otpHash, code, env) {
      forall i: int, name: string | Verifiable(s.db, otpHash, code, env, i, name)
        ensures Verifies(cfg, env, i, name, s.db, t, answer)
      {
        VerifyOutcome(cfg, s, otpHash, code, env, i, name, t, answer);
      }
      PendingIsNoError(s.db, otpHash, code, env);
    } else {
      UnverifiableOutcome(s.db, otpHash, code, env);
    }
  }

  lemma PendingIsNoError(db: Store, otpHash: string, code: string, env: O.Env)
    requires Wf(db) && exists i :: Pending(db, otpHash, code, env.now, i)
    ensures SignupCodeError(db, otpHash, code, env, Internal)
  {
    var i :| Pending(db, otpHash, code, env.now, i);
    assert Undeleted(db, otpHash, SignupVerification, i);
    assert forall j :: Undeleted(db, otpHash, SignupVerification, j) ==> j == i;
  }

  /** VerifyOTP over runs, told from the tables: it succeeds exactly when an undeleted signup code has
      this hash and these digits and has not run out, its user is unverified, a username can be found,
      and its own calls work. Then that user is verified under the first free name and has one more
      session, good for the TTL, and that code is deleted; nothing else changes. */
  lemma VerifyOtpExactly(sys: Service, cache: CacheState, calls: seq<Call>, k: nat)
    requires Lawful(calls) && k < |calls| && calls[k].op.VerifyOtp?
    ensures VerifiesOrRefuses(sys.config, calls[k].op.otpHash, calls[k].op.code, calls[k].env,
                              Before(sys, cache, calls, k), Behind(sys, cache, calls, k),
                              Answer(sys, Empty(cache), calls, k))
  {
    CallIsSound(sys, cache, calls, k);
    StepIs(sys, After(sys, Empty(cache), calls[..k]), calls[k]);
    VerifyOtpOutcome(sys.config, After(sys, Empty(cache), calls[..k]), calls[k].op.otpHash, calls[k].op.code,
                     calls[k].env, Behind(sys, cache, calls, k), Answer(sys, Empty(cache), calls, k));
  }

  // ---------------------------------------------------------------- ResetPassword

  /** The calls of ResetPassword up to the new password, and all of its calls. */
  const REPLACEMENT: set<CallSite> := {GetOtp, Hashing, CallSite.UpdatePassword}

  const RESET_NEEDS: set<CallSite> := REPLACEMENT + {SoftDeleteOtp}

  ghost predicate Resets(password: string, env: O.Env, i: int, a: Store, b: Store, answer: O.Response)
    requires i in a.otps
  {
    && answer == (if env.faults !! RESET_NEEDS then O.PasswordReset else O.Rejected(Internal))
    && b.credentials == (if env.faults !! REPLACEMENT then a.credentials[a.otps[i].userId := Bcrypt(password)]
                         else a.credentials)
    && Retires(i, env, a, b, env.faults !! RESET_NEEDS)
    && b.users == a.users && b.sessions == a.sessions && b.links == a.links
  }

  ghost predicate AnyRedeemable(a: Store, otpHash: string, code: string, now: Time) {
    exists i :: Redeemable(a, otpHash, ResetPassword, code, now, i)
  }

  ghost predicate ResetCodeError(a: Store, otpHash: string, code: string, env: O.Env, error: Error) {
    && (error == Validation <==> otpHash == "")
    && (error == NotFound <==>
          otpHash != "" && GetOtp !in env.faults && forall i :: !Undeleted(a, otpHash, ResetPassword, i))
    && (error == Unauthorized <==>
          otpHash != "" && GetOtp !in env.faults
          && exists i :: Undeleted(a, otpHash, ResetPassword, i)
                         && (env.now > a.otps[i].expiresAt || a.otps[i].code != Bcrypt(code)))
    && error != Conflict
  }

  /** Everything ResetPassword does, and answers. */
  ghost predicate ResetsOrRefuses(otpHash: string, code: string, password: string, env: O.Env, a: Store, b: Store,
                                  answer: O.Response) {
    && (answer.PasswordReset? <==> AnyRedeemable(a, otpHash, code, env.now) && env.faults !! RESET_NEEDS)
    && (forall i :: Redeemable(a, otpHash, ResetPassword, code, env.now, i) ==> Resets(password, env, i, a, b, answer))
    && (!AnyRedeemable(a, otpHash, code, env.now) ==> SameRows(a, b))
    && (answer.PasswordReset? || (answer.Rejected? && ResetCodeError(a, otpHash, code, env, answer.error)))
  }

  lemma StoredPassword(db: Store, u: int, password: string, t: Store)
    requires Wf(db) && u in db.users && t == SetPassword(db, u, Bcrypt(password), true)
    ensures Wf(t) && t.credentials == db.credentials[u := Bcrypt(password)]
    ensures t.users == db.users && t.otps == db.otps && t.sessions == db.sessions && t.links == db.links
  {
    SetPasswordKeeps(db, u, Bcrypt(password), true);
  }

  lemma StoreOutcome(db: Store, otpHash: string, password: string, env: O.Env, i: int, t: Store, answer: O.Response)
    requires Wf(db) && i in db.otps && db.otps[i].otpHash == otpHash && db.otps[i].purpose == ResetPassword
    requires env.faults !! REPLACEMENT
    requires (t, answer) == O.StorePassword(db, otpHash, db.otps[i].userId, password, env)
    ensures Resets(password, env, i, db, t, answer)
  {
    var db' := SetPassword(db, db.otps[i].userId, Bcrypt(password), true);
    StoredPassword(db, db.otps[i].userId, password, db');
    RetiredIsRow(db', otpHash, ResetPassword, env, i);
  }

  lemma RedeemableIsNoError(db: Store, otpHash: string, code: string, env: O.Env, i: int)
    requires Wf(db) && Redeemable(db, otpHash, ResetPassword, code, env.now, i)
    ensures ResetCodeError(db, otpHash, code, env, Internal)
  {
    assert Undeleted(db, otpHash, ResetPassword, i);
    assert forall j :: Undeleted(db, otpHash, ResetPassword, j) ==> j == i;
  }

  lemma RedeemedOutcome(db: Store, otpHash: string, code: string, password: string, env: O.Env, i: int, t: Store,
                        answer: O.Response)
    requires Wf(db) && Redeemable(db, otpHash, ResetPassword, code, env.now, i)
    requires (t, answer) == O.Reset(db, otpHash, code, password, env)
    ensures Resets(password, env, i, db, t, answer)
  {
    if GetOtp !in env.faults {
      RedeemableIsLive(db, otpHash, ResetPassword, code, env.now, i);
      assert O.CheckResetOtp(db, otpHash, code, env) == Ok(db.otps[i].userId);
      if env.faults !! REPLACEMENT { StoreOutcome(db, otpHash, password, env, i, t, answer); }
    }
  }

  lemma UnredeemedOutcome(db: Store, otpHash: string, code: string, password: string, env: O.Env, t: Store,
                          answer: O.Response)
    requires Wf(db) && !AnyRedeemable(db, otpHash, code, env.now)
    requires (t, answer) == O.Reset(db, otpHash, code, password, env)
    ensures t == db && answer.Rejected? && ResetCodeError(db, otpHash, code, env, answer.error)
  {
    var otp := LiveOtp(db, otpHash, ResetPassword);
    if otp.Some? {
      var i :| i in db.otps && db.otps[i] == otp.value;
      assert Undeleted(db, otpHash, ResetPassword, i);
      assert forall j :: Undeleted(db, otpHash, ResetPassword, j) ==> j == i;
      assert !Redeemable(db, otpHash, ResetPassword, code, env.now, i);
    }
  }

  lemma ResetOutcome(db: Store, otpHash: string, code: string, password: string, env: O.Env, t: Store,
                     answer: O.Response)
    requires Wf(db) && (t, answer) == O.Reset(db, otpHash, code, password, env)
    ensures ResetsOrRefuses(otpHash, code, password, env, db, t, answer)
  {
    if AnyRedeemable(db, otpHash, code, env.now) {
      forall i | Redeemable(db, otpHash, ResetPassword, code, env.now, i)
        ensures Resets(password, env, i, db, t, answer) && ResetCodeError(db, otpHash, code, env, Internal)
      {
        RedeemedOutcome(db, otpHash, code, password, env, i, t, answer);
        RedeemableIsNoError(db, otpHash, code, env, i);
      }
    } else {
      UnredeemedOutcome(db, otpHash, code, password, env, t, answer);
    }
  }

  /** ResetPassword over runs, told from the tables: it succeeds exactly when an undeleted reset code has
      this hash and these digits and has not run out, and its own calls work. Then the owner of that
      code has the new password and the code is deleted; nothing else changes. */
  lemma ResetExactly(sys: Service, cache: CacheState, calls: seq<Call>, k: nat)
    requires k < |calls| && calls[k].op.Reset?
    ensures ResetsOrRefuses(calls[k].op.otpHash, calls[k].op.code, calls[k].op.password, calls[k].env,
                            Before(sys, cache, calls, k), Behind(sys, cache, calls, k),
                            Answer(sys, Empty(cache), calls, k))
  {
    AfterIsSound(sys, cache, calls[..k]);
    AfterNext(sys, Empty(cache), calls, k);
    StepIs(sys, After(sys, Empty(cache), calls[..k]), calls[k]);
    ResetOutcome(Before(sys, cache, calls, k), calls[k].op.otpHash, calls[k].op.code, calls[k].op.password,
                 calls[k].env, Behind(sys, cache, calls, k), Answer(sys, Empty(cache), calls, k));
  }
}
