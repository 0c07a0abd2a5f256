/** A newer one-time code replaces the older one, as long as soft deletes do not fail. */
module Supersession {
  import opened Domain
  import opened Tables
  import opened CacheStates
  import opened Runs
  import opened OneTimeCodes
  import O = Operations

  predicate SameSlot(o: Otp, p: Otp) {
    o.deletedAt == None && p.deletedAt == None && o.userId == p.userId && o.purpose == p.purpose
  }

  /** At most one otp of a user and purpose is not deleted. */
  ghost predicate OneLiveOtp(otps: map<int, Otp>) {
    forall i, j {:trigger otps[i], otps[j]} :: i in otps && j in otps && SameSlot(otps[i], otps[j]) ==> i == j
  }

  /** A row added by the call is alone in its slot. */
  ghost predicate NewOtpIsAlone(a: map<int, Otp>, b: map<int, Otp>) {
    forall i, j {:trigger b[i], b[j]} :: i in b && i !in a && j in b && j in a ==> !SameSlot(b[i], b[j])
  }

  /** A new user has no other row. */
  lemma SignupOtpIsAlone(sys: Service, s: O.State, c: Call)
    requires Wf(s.db) && c.op.Signup?
    ensures NewOtpIsAlone(s.db.otps, sys.step(s, c).0.db.otps)
  {
    StepIssues(sys, s, c);
    StepTables(sys, s, c);
    NewcomerIsAlone(s.db, sys.step(s, c).0.db, sys.config, c, sys.step(s, c).1);
  }

  lemma NewcomerIsAlone(a: Store, b: Store, cfg: O.Config, c: Call, answer: O.Response)
    requires Wf(a) && OtpsEvolve(a.otps, a.nextOtp, b.otps) && c.op.Signup? && NewOtpsAreIssued(cfg, c, answer, a, b)
    ensures NewOtpIsAlone(a.otps, b.otps)
  {
  }

  lemma ReissuedIsAlone(cfg: O.Config, db: Store, uid: int, env: O.Env)
    requires Wf(db) && SoftDeleteOtpsOfUser !in env.faults
    ensures NewOtpIsAlone(db.otps, O.Reissue(cfg, db, uid, env).0.otps)
  {
    RetireOtpsOfKeeps(db, uid, ResetPassword, env.now, true);
    var retired := RetireOtpsOf(db, uid, ResetPassword, env.now, true);
    IssueAdds(cfg, retired, uid, ResetPassword, env);
    IssueKeeps(cfg, retired, uid, ResetPassword, env);
  }

  lemma ForgotOtpIsAlone(cfg: O.Config, db: Store, email: string, env: O.Env)
    requires Wf(db) && SoftDeleteOtpsOfUser !in env.faults
    ensures NewOtpIsAlone(db.otps, O.ForgotPassword(cfg, db, email, env).0.otps)
  {
    var u := UserByEmail(db, email);
    if u.Some? { ReissuedIsAlone(cfg, db, u.value, env); }
  }

  lemma StepAddsAlone(sys: Service, s: O.State, c: Call)
    requires Wf(s.db) && SoftDeleteOtpsOfUser !in c.env.faults
    ensures NewOtpIsAlone(s.db.otps, sys.step(s, c).0.db.otps)
  {
    StepIs(sys, s, c);
    if c.op.Signup? { SignupOtpIsAlone(sys, s, c); }
    else if c.op.Forgot? { ForgotOtpIsAlone(sys.config, s.db, c.op.email, c.env); }
    else { OthersIssueNothing(sys.config, s, c); }
  }

  lemma StepKeepsOneLive(sys: Service, s: O.State, c: Call)
    requires Wf(s.db) && OneLiveOtp(s.db.otps) && SoftDeleteOtpsOfUser !in c.env.faults
    ensures OneLiveOtp(sys.step(s, c).0.db.otps)
  {
    StepTables(sys, s, c);
    StepAddsAlone(sys, s, c);
    OneLiveOtpThrough(s.db, sys.step(s, c).0.db, c.env.otpHash);
  }

  lemma OneLiveOtpThrough(a: Store, b: Store, otpHash: string)
    requires Wf(b) && Evolves(a, b) && OneLiveOtp(a.otps) && NewOtpIsAlone(a.otps, b.otps)
    requires forall i :: i in b.otps && i !in a.otps ==> b.otps[i].otpHash == otpHash
    ensures OneLiveOtp(b.otps)
  {
    forall i, j {:trigger b.otps[i], b.otps[j]} | i in b.otps && j in b.otps && SameSlot(b.otps[i], b.otps[j])
      ensures i == j
    {
      if i in a.otps && j in a.otps { assert SameSlot(a.otps[i], a.otps[j]); }
      else if i !in a.otps && j !in a.otps { assert b.otps[i].otpHash == b.otps[j].otpHash; }
    }
  }

  /** Between calls there is at most one undeleted otp per user and purpose. */
  lemma {:induction false} AtMostOneLiveOtp(sys: Service, cache: CacheState, calls: seq<Call>)
    requires forall k :: 0 <= k < |calls| ==> SoftDeleteOtpsOfUser !in calls[k].env.faults
    ensures OneLiveOtp(After(sys, Empty(cache), calls).db.otps)
  {
    if calls != [] {
      var n := |calls| - 1;
      AtMostOneLiveOtp(sys, cache, calls[..n]);
      AfterIsSound(sys, cache, calls[..n]);
      StepKeepsOneLive(sys, After(sys, Empty(cache), calls[..n]), calls[n]);
    }
  }

  // ---------------------------------------------------------------- earlier reset codes

  /** Every row with this hash is a reset code of a user with this email. */
  ghost predicate CodeOf(db: Store, email: string, otpHash: string) {
    forall i :: i in db.otps && db.otps[i].otpHash == otpHash ==>
      && db.otps[i].userId in db.users && db.users[db.otps[i].userId].email == email
      && db.otps[i].purpose == ResetPassword
  }

  lemma ReissueRetires(cfg: O.Config, db: Store, uid: int, env: O.Env, otpHash: string)
    requires Wf(db) && SoftDeleteOtpsOfUser !in env.faults && env.otpHash != otpHash
    requires uid in db.users && CodeOf(db, db.users[uid].email, otpHash)
    ensures Used(O.Reissue(cfg, db, uid, env).0.otps, otpHash)
  {
    RetireOtpsOfKeeps(db, uid, ResetPassword, env.now, true);
    var retired := RetireOtpsOf(db, uid, ResetPassword, env.now, true);
    assert Used(retired.otps, otpHash);
    IssueAdds(cfg, retired, uid, ResetPassword, env);
    IssueKeeps(cfg, retired, uid, ResetPassword, env);
  }

  lemma ForgotRetires(cfg: O.Config, db: Store, email: string, env: O.Env, otpHash: string)
    requires Wf(db) && SoftDeleteOtpsOfUser !in env.faults && env.otpHash != otpHash
    requires O.ForgotPassword(cfg, db, email, env).1.ResetSent? && CodeOf(db, email, otpHash)
    ensures Used(O.ForgotPassword(cfg, db, email, env).0.otps, otpHash)
  {
    var u := UserByEmail(db, email);
    if u.Some? { ReissueRetires(cfg, db, u.value, env, otpHash); }
  }

  lemma StepRetires(sys: Service, s: O.State, c: Call, otpHash: string)
    requires Wf(s.db) && c.op.Forgot? && SoftDeleteOtpsOfUser !in c.env.faults && c.env.otpHash != otpHash
    requires sys.step(s, c).1.ResetSent? && CodeOf(s.db, c.op.email, otpHash)
    ensures Used(sys.step(s, c).0.db.otps, otpHash)
  {
    StepIs(sys, s, c);
    ForgotRetires(sys.config, s.db, c.op.email, c.env, otpHash);
  }

  lemma IssueKeeps(cfg: O.Config, db: Store, uid: int, purpose: Purpose, env: O.Env)
    requires Wf(db)
    ensures forall i :: i in db.otps ==> i in O.Issue(cfg, db, uid, purpose, env).0.otps
                                         && O.Issue(cfg, db, uid, purpose, env).0.otps[i] == db.otps[i]
  {
  }

  /** A hash that ForgotPassword told is the one it drew, or the empty one. */
  lemma ResetSentIsDrawn(sys: Service, s: O.State, c: Call, otpHash: string)
    requires Issues(c.op, sys.step(s, c).1, ResetPassword, otpHash)
    ensures otpHash in {"", c.env.otpHash}
  {
    StepIs(sys, s, c);
  }

  lemma RowOfTheCode(sys: Service, cache: CacheState, calls: seq<Call>, i: nat, j: nat, email: string,
                     users: map<int, User>, o: Otp)
    requires Lawful(calls) && i < j < |calls| && calls[i].op == Forgot(email) && calls[i].env.otpHash == o.otpHash
    requires IsIssued(sys, cache, calls[..j], users, o)
    ensures o.userId in users && users[o.userId].email == email && o.purpose == ResetPassword
  {
    var k: nat :| k < j && IssuedAt(sys, cache, calls[..j], k, o)
                  && o.userId in users && users[o.userId].email == calls[..j][k].op.email;
    assert calls[..j][k] == calls[k];
    assert k == i;
  }

  lemma RowsOfTheCode(sys: Service, cache: CacheState, calls: seq<Call>, i: nat, j: nat, email: string, otpHash: string)
    requires Lawful(calls) && i < j < |calls| && calls[i].op == Forgot(email) && calls[i].env.otpHash == otpHash
    ensures CodeOf(After(sys, Empty(cache), calls[..j]).db, email, otpHash)
  {
    AfterIsIssued(sys, cache, calls[..j]);
    var db := After(sys, Empty(cache), calls[..j]).db;
    forall x | x in db.otps && db.otps[x].otpHash == otpHash
      ensures db.otps[x].userId in db.users && db.users[db.otps[x].userId].email == email
      ensures db.otps[x].purpose == ResetPassword
    {
      RowOfTheCode(sys, cache, calls, i, j, email, db.users, db.otps[x]);
    }
  }

  lemma ForgotUses(sys: Service, cache: CacheState, calls: seq<Call>, i: nat, j: nat, email: string, otpHash: string)
    requires Lawful(calls) && i < j < |calls| && calls[i].op == Forgot(email) && calls[i].env.otpHash == otpHash
    requires calls[j].op == Forgot(email) && Answer(sys, Empty(cache), calls, j).ResetSent?
    requires SoftDeleteOtpsOfUser !in calls[j].env.faults
    ensures Used(After(sys, Empty(cache), calls[..j + 1]).db.otps, otpHash)
  {
    AfterIsSound(sys, cache, calls[..j]);
    AfterNext(sys, Empty(cache), calls, j);
    RowsOfTheCode(sys, cache, calls, i, j, email, otpHash);
    StepRetires(sys, After(sys, Empty(cache), calls[..j]), calls[j], otpHash);
  }

  /** Once ForgotPassword has answered for an email, and its soft delete did not fail, no reset code
      sent earlier for that email ever works again. */
  lemma ForgotSupersedes(sys: Service, cache: CacheState, calls: seq<Call>, i: nat, j: nat, k: nat, email: string,
                         otpHash: string)
    requires Lawful(calls) && i < j < k < |calls|
    requires calls[i].op == Forgot(email) && Answer(sys, Empty(cache), calls, i) == O.ResetSent(otpHash)
    requires calls[j].op == Forgot(email) && Answer(sys, Empty(cache), calls, j).ResetSent?
    requires SoftDeleteOtpsOfUser !in calls[j].env.faults
    requires calls[k].op.Reset? && calls[k].op.otpHash == otpHash
    ensures Answer(sys, Empty(cache), calls, k).Rejected?
  {
    ResetSentIsDrawn(sys, After(sys, Empty(cache), calls[..i]), calls[i], otpHash);
    if otpHash != "" {
      ForgotUses(sys, cache, calls, i, j, email, otpHash);
      UsedForGood(sys, cache, calls, j + 1, k, otpHash);
      UsedIsRefused(sys, After(sys, Empty(cache), calls[..k]), calls[k], otpHash);
    } else {
      EmptyIsRefused(sys, After(sys, Empty(cache), calls[..k]), calls[k]);
    }
  }

  lemma EmptyIsRefused(sys: Service, s: O.State, c: Call)
    requires c.op.Reset? && c.op.otpHash == ""
    ensures sys.step(s, c).1.Rejected?
  {
    StepIs(sys, s, c);
  }
}
