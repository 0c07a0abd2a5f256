/** How long a one-time code lives: over whole runs, exactly when it can be redeemed. */
module CodeRuns {
  import opened Domain
  import opened Tables
  import opened CacheStates
  import opened Runs
  import opened OneTimeCodes
  import opened Outcomes
  import A = AccountOutcomes
  import C = CodeOutcomes
  import S = SessionOutcomes
  import O = Operations
  import Supersession

  // ---------------------------------------------------------------- one call

  /** The row is in the table, just so. */
  predicate Row(db: Store, x: int, o: Otp) {
    x in db.otps && db.otps[x] == o
  }

  /** The call, between these tables, ends the life of the code: it redeems it, or sends a newer one. */
  predicate Spends(c: Call, answer: O.Response, a: Store, b: Store, o: Otp) {
    || (c.op.VerifyOtp? && o.purpose == SignupVerification && o.userId in b.users && b.users[o.userId].verified)
    || (c.op.Reset? && o.purpose == ResetPassword && c.op.otpHash == o.otpHash && answer.PasswordReset?)
    || (c.op.Forgot? && C.Superseded(a, c.op.email, c.env, o))
  }

  lemma SignupKeepsCode(cfg: O.Config, c: Call, answer: O.Response, a: Store, b: Store, x: int)
    requires Wf(a) && c.op.Signup? && A.SignsUp(cfg, c.op.email, c.op.password, c.env, a, b, answer)
    requires x in a.otps
    ensures Row(b, x, a.otps[x])
  {
  }

  lemma VerifyKeepsCode(cfg: O.Config, c: Call, answer: O.Response, a: Store, b: Store, x: int)
    requires Wf(a) && c.op.VerifyOtp? && C.VerifiesOrRefuses(cfg, c.op.otpHash, c.op.code, c.env, a, b, answer)
    requires x in a.otps && a.otps[x].userId in b.users && !Spends(c, answer, a, b, a.otps[x])
    ensures Row(b, x, a.otps[x])
  {
    if C.AnyVerifiable(a, c.op.otpHash, c.op.code, c.env) {
      var i: int, name: string :| C.Verifiable(a, c.op.otpHash, c.op.code, c.env, i, name);
      assert C.Verifies(cfg, c.env, i, name, a, b, answer);
    }
  }

  lemma ResetKeepsCode(c: Call, answer: O.Response, a: Store, b: Store, x: int)
    requires Wf(a) && c.op.Reset?
    requires C.ResetsOrRefuses(c.op.otpHash, c.op.code, c.op.password, c.env, a, b, answer)
    requires x in a.otps && !Spends(c, answer, a, b, a.otps[x])
    ensures Row(b, x, a.otps[x])
  {
    if C.AnyRedeemable(a, c.op.otpHash, c.op.code, c.env.now) {
      var i :| C.Redeemable(a, c.op.otpHash, ResetPassword, c.op.code, c.env.now, i);
      assert C.Resets(c.op.password, c.env, i, a, b, answer);
    }
  }

  lemma StepKeepsCode(sys: Service, cache: CacheState, calls: seq<Call>, k: nat, x: int)
    requires Lawful(calls) && k < |calls| && x in Before(sys, cache, calls, k).otps
    requires var (a, b) := (Before(sys, cache, calls, k), Behind(sys, cache, calls, k));
             var o := a.otps[x];
             && o.deletedAt == None && calls[k].env.now <= o.expiresAt && o.userId in b.users
             && !Spends(calls[k], Answer(sys, Empty(cache), calls, k), a, b, o)
    ensures Row(Behind(sys, cache, calls, k), x, Before(sys, cache, calls, k).otps[x])
  {
    CallIsSound(sys, cache, calls, k);
    var (a, b) := (Before(sys, cache, calls, k), Behind(sys, cache, calls, k));
    var (c, answer) := (calls[k], Answer(sys, Empty(cache), calls, k));
    if c.op.Signup? {
      A.SignupExactly(sys, cache, calls, k);
      SignupKeepsCode(sys.config, c, answer, a, b, x);
    } else if c.op.VerifyOtp? {
      C.VerifyOtpExactly(sys, cache, calls, k);
      VerifyKeepsCode(sys.config, c, answer, a, b, x);
    } else if c.op.Reset? {
      C.ResetExactly(sys, cache, calls, k);
      ResetKeepsCode(c, answer, a, b, x);
    } else if c.op.Forgot? {
      C.ForgotExactly(sys, cache, calls, k);
    } else if c.op.Delete? {
      A.DeleteExactly(sys, cache, calls, k);
    } else if c.op.Cleanup? {
      S.CleanupExactly(sys, cache, calls, k);
    } else {
      OtherCallsKeepCodes(sys, cache, calls, k);
    }
  }

  lemma OtherCallsKeepCodes(sys: Service, cache: CacheState, calls: seq<Call>, k: nat)
    requires Lawful(calls) && k < |calls|
    requires var op := calls[k].op;
             op.Login? || op.Exchange? || op.Validate? || op.Refresh? || op.Logout? || op.GetUser? || op.Evict?
    ensures Behind(sys, cache, calls, k).otps == Before(sys, cache, calls, k).otps
  {
    if calls[k].op.Login? { A.LoginExactly(sys, cache, calls, k); }
    else if calls[k].op.Exchange? { A.ExchangeExactly(sys, cache, calls, k); }
    else if calls[k].op.Refresh? { S.RefreshExactly(sys, cache, calls, k); }
    else if calls[k].op.Logout? { S.LogoutExactly(sys, cache, calls, k); }
    else {
      AfterNext(sys, Empty(cache), calls, k);
      StepIs(sys, After(sys, Empty(cache), calls[..k]), calls[k]);
    }
  }

  // ---------------------------------------------------------------- runs

  /** A user known at m that is there at n was there at m, under the same email; and was unverified at m
      if it still is at n. */
  lemma {:induction false} UserWasThere(sys: Service, cache: CacheState, calls: seq<Call>, m: nat, n: nat, u: int)
    requires m <= n <= |calls| && u < After(sys, Empty(cache), calls[..m]).db.nextUser
    requires u in After(sys, Empty(cache), calls[..n]).db.users
    ensures var (a, b) := (After(sys, Empty(cache), calls[..m]).db, After(sys, Empty(cache), calls[..n]).db);
            && u in a.users && a.users[u].email == b.users[u].email && (a.users[u].verified ==> b.users[u].verified)
            && u < b.nextUser
    decreases n - m
  {
    if m < n {
      AfterIsSound(sys, cache, calls[..m]);
      AfterNext(sys, Empty(cache), calls, m);
      StepTables(sys, After(sys, Empty(cache), calls[..m]), calls[m]);
      UserWasThere(sys, cache, calls, m + 1, n, u);
    } else {
      AfterIsSound(sys, cache, calls[..m]);
    }
  }

  /** Call j of the run ends the life of the code. */
  ghost predicate SpentAt(sys: Service, cache: CacheState, calls: seq<Call>, j: nat, o: Otp)
    requires j < |calls|
  {
    Spends(calls[j], Answer(sys, Empty(cache), calls, j), Before(sys, cache, calls, j), Behind(sys, cache, calls, j), o)
  }

  /** Call j comes in time, does not spend the code and leaves its user. */
  ghost predicate Spared(sys: Service, cache: CacheState, calls: seq<Call>, j: nat, o: Otp)
    requires j < |calls|
  {
    && calls[j].env.now <= o.expiresAt && o.userId in Behind(sys, cache, calls, j).users
    && !SpentAt(sys, cache, calls, j, o)
  }

  /** Until a call spends it, its time is up or its user is removed, the row of a code stays as it is. */
  lemma {:induction false} CodeStays(sys: Service, cache: CacheState, calls: seq<Call>, m: nat, n: nat, x: int, o: Otp)
    requires Lawful(calls) && m <= n <= |calls| && Row(After(sys, Empty(cache), calls[..m]).db, x, o)
    requires o.deletedAt == None && forall j :: m <= j < n ==> Spared(sys, cache, calls, j, o)
    ensures Row(After(sys, Empty(cache), calls[..n]).db, x, o)
  {
    if m < n {
      CodeStays(sys, cache, calls, m, n - 1, x, o);
      assert Spared(sys, cache, calls, n - 1, o);
      StepKeepsCode(sys, cache, calls, n - 1, x);
    }
  }

  lemma {:induction false} UserExisted(sys: Service, cache: CacheState, calls: seq<Call>, m: nat, n: nat, u: int)
    requires m <= n <= |calls| && u < After(sys, Empty(cache), calls[..m]).db.nextUser
    ensures u < After(sys, Empty(cache), calls[..n]).db.nextUser
  {
    if m < n {
      UserExisted(sys, cache, calls, m, n - 1, u);
      AfterIsSound(sys, cache, calls[..n - 1]);
      AfterNext(sys, Empty(cache), calls, n - 1);
      StepTables(sys, After(sys, Empty(cache), calls[..n - 1]), calls[n - 1]);
    }
  }

  lemma SignupCodeSpared(sys: Service, cache: CacheState, calls: seq<Call>, m: nat, j: nat, n: nat, o: Otp)
    requires Lawful(calls) && m <= j < n <= |calls| && o.userId < After(sys, Empty(cache), calls[..m]).db.nextUser
    requires o.purpose == SignupVerification && LastTime(calls[..n]) <= o.expiresAt
    requires var users := After(sys, Empty(cache), calls[..n]).db.users;
             o.userId in users && !users[o.userId].verified
    ensures Spared(sys, cache, calls, j, o)
  {
    UserExisted(sys, cache, calls, m, j + 1, o.userId);
    UserWasThere(sys, cache, calls, j + 1, n, o.userId);
  }

  /** The signup code of a user who is still there and still unverified is in the table just as Signup
      stored it, until it runs out: whatever was requested, reset, swept or removed meanwhile. */
  lemma SignupCodeStays(sys: Service, cache: CacheState, calls: seq<Call>, m: nat, n: nat, x: int, o: Otp)
    requires Lawful(calls) && m <= n <= |calls| && Row(After(sys, Empty(cache), calls[..m]).db, x, o)
    requires o.purpose == SignupVerification && o.deletedAt == None && LastTime(calls[..n]) <= o.expiresAt
    requires var users := After(sys, Empty(cache), calls[..n]).db.users;
             o.userId in users && !users[o.userId].verified
    ensures Row(After(sys, Empty(cache), calls[..n]).db, x, o)
  {
    AfterIsSound(sys, cache, calls[..m]);
    forall j: nat | m <= j < n ensures Spared(sys, cache, calls, j, o) {
      SignupCodeSpared(sys, cache, calls, m, j, n, o);
    }
    CodeStays(sys, cache, calls, m, n, x, o);
  }

  // ---------------------------------------------------------------- VerifyOTP, told from the run

  /** Call i issued a code for this purpose to u: the row it stored. */
  ghost predicate StoredAt(sys: Service, cache: CacheState, calls: seq<Call>, i: nat, u: int, purpose: Purpose,
                           x: int, o: Otp)
    requires i < |calls|
  {
    && Row(Behind(sys, cache, calls, i), x, o)
    && o == Otp(x, u, calls[i].env.otpHash, Bcrypt(calls[i].env.code), purpose,
                calls[i].env.now + sys.config.otpExpiry, None, calls[i].env.now)
  }

  lemma SignupStores(sys: Service, cache: CacheState, calls: seq<Call>, i: nat, k: nat, u: int, otpHash: string,
                     code: string) returns (x: int, o: Otp)
    requires Lawful(calls) && k < |calls|
    requires Enables(sys, cache, calls, i, k, u, SignupVerification, otpHash, code)
    ensures otpHash == calls[i].env.otpHash && StoredAt(sys, cache, calls, i, u, SignupVerification, x, o)
  {
    A.SignupExactly(sys, cache, calls, i);
    x := Before(sys, cache, calls, i).nextOtp;
    o := Otp(x, u, calls[i].env.otpHash, Bcrypt(calls[i].env.code), SignupVerification,
             calls[i].env.now + sys.config.otpExpiry, None, calls[i].env.now);
  }

  /** Call i issued to u the code that call k presents; u is still there, still unverified, and this is
      the first free name that the draws of call k make for u. */
  ghost predicate Ready(sys: Service, cache: CacheState, calls: seq<Call>, k: nat, i: nat, u: int, name: string)
    requires k < |calls| && calls[k].op.VerifyOtp?
  {
    var users := Before(sys, cache, calls, k).users;
    && Enables(sys, cache, calls, i, k, u, SignupVerification, calls[k].op.otpHash, calls[k].op.code)
    && u in users && !users[u].verified && Chosen(users, users[u].email, calls[k].env.draws, name)
  }

  lemma LastTimeOf(calls: seq<Call>, k: nat)
    requires Lawful(calls) && k < |calls|
    ensures LastTime(calls[..k]) <= calls[k].env.now
  {
  }

  /** A code that is ready can be redeemed. */
  lemma ReadyIsVerifiable(sys: Service, cache: CacheState, calls: seq<Call>, k: nat, i: nat, u: int, name: string)
    returns (x: int)
    requires Lawful(calls) && k < |calls| && calls[k].op.VerifyOtp? && Ready(sys, cache, calls, k, i, u, name)
    ensures C.Verifiable(Before(sys, cache, calls, k), calls[k].op.otpHash, calls[k].op.code, calls[k].env, x, name)
    ensures Before(sys, cache, calls, k).otps[x].userId == u
  {
    var o: Otp;
    x, o := SignupStores(sys, cache, calls, i, k, u, calls[k].op.otpHash, calls[k].op.code);
    LastTimeOf(calls, k);
    SignupCodeStays(sys, cache, calls, i + 1, k, x, o);
  }

  /** The converse of VerifyNeedsSignup: a code that Signup issued to a user who is still there and
      unverified verifies this user, under the first free name, when it is presented in time with the
      right digits, a free name fits and the calls of VerifyOTP work; nothing that any other call has
      done in between can prevent it. */
  lemma ReadyCodeVerifies(sys: Service, cache: CacheState, calls: seq<Call>, k: nat, i: nat, u: int, name: string)
    requires Lawful(calls) && k < |calls| && calls[k].op.VerifyOtp? && Ready(sys, cache, calls, k, i, u, name)
    requires calls[k].env.faults !! C.VERIFY_NEEDS
    ensures Answer(sys, Empty(cache), calls, k)
            == O.Verified(name, calls[k].env.token, calls[k].env.now + sys.config.ttl)
    ensures BecomesVerified(Before(sys, cache, calls, k), Behind(sys, cache, calls, k), u, name)
  {
    var x := ReadyIsVerifiable(sys, cache, calls, k, i, u, name);
    C.VerifyOtpExactly(sys, cache, calls, k);
    assert C.Verifies(sys.config, calls[k].env, x, name, Before(sys, cache, calls, k), Behind(sys, cache, calls, k),
                      Answer(sys, Empty(cache), calls, k));
  }

  /** The user a code verifies is its owner. */
  lemma OwnerIsVerified(cfg: O.Config, env: O.Env, x: int, name: string, a: Store, b: Store, answer: O.Response, u: int)
    requires x in a.otps && a.otps[x].userId in a.users && C.Verifies(cfg, env, x, name, a, b, answer)
    requires answer.Verified? && BecomesVerified(a, b, u, answer.username)
    ensures a.otps[x].userId == u
  {
  }

  lemma VerifiedWasReady(sys: Service, cache: CacheState, calls: seq<Call>, k: nat)
    requires Lawful(calls) && k < |calls| && calls[k].op.VerifyOtp? && Answer(sys, Empty(cache), calls, k).Verified?
    ensures exists i: nat, u: int, name: string :: Ready(sys, cache, calls, k, i, u, name)
  {
    VerifyNeedsSignup(sys, cache, calls, k);
    var i: nat, u: int :| VerifiesWith(sys, cache, calls, k, i, u);
    C.VerifyOtpExactly(sys, cache, calls, k);
    var (a, b) := (Before(sys, cache, calls, k), Behind(sys, cache, calls, k));
    var x: int, name: string :| C.Verifiable(a, calls[k].op.otpHash, calls[k].op.code, calls[k].env, x, name);
    OwnerIsVerified(sys.config, calls[k].env, x, name, a, b, Answer(sys, Empty(cache), calls, k), u);
    assert Ready(sys, cache, calls, k, i, u, name);
  }

  /** VerifyOTP, told from the run: it succeeds if and only if a Signup issued the code to a user who is
      still there and unverified, the digits are right, it has not run out, one of the first ten draws
      makes a free name that fits, and its own calls work. */
  lemma VerifySucceedsExactly(sys: Service, cache: CacheState, calls: seq<Call>, k: nat)
    requires Lawful(calls) && k < |calls| && calls[k].op.VerifyOtp?
    ensures Answer(sys, Empty(cache), calls, k).Verified?
            <==> calls[k].env.faults !! C.VERIFY_NEEDS
                 && exists i: nat, u: int, name: string :: Ready(sys, cache, calls, k, i, u, name)
  {
    if Answer(sys, Empty(cache), calls, k).Verified? {
      VerifiedWasReady(sys, cache, calls, k);
      C.VerifyOtpExactly(sys, cache, calls, k);
    }
    if calls[k].env.faults !! C.VERIFY_NEEDS
       && exists i: nat, u: int, name: string :: Ready(sys, cache, calls, k, i, u, name)
    {
      var i: nat, u: int, name: string :| Ready(sys, cache, calls, k, i, u, name);
      ReadyCodeVerifies(sys, cache, calls, k, i, u, name);
    }
  }

  // ---------------------------------------------------------------- ResetPassword, told from the run

  lemma ForgotStores(sys: Service, cache: CacheState, calls: seq<Call>, i: nat, k: nat, u: int, otpHash: string,
                     code: string) returns (x: int, o: Otp)
    requires Lawful(calls) && k < |calls| && otpHash != ""
    requires Enables(sys, cache, calls, i, k, u, ResetPassword, otpHash, code)
    ensures otpHash == calls[i].env.otpHash && StoredAt(sys, cache, calls, i, u, ResetPassword, x, o)
  {
    C.ForgotExactly(sys, cache, calls, i);
    CallIsSound(sys, cache, calls, i);
    var a := Before(sys, cache, calls, i);
    x := a.nextOtp;
    o := Behind(sys, cache, calls, i).otps[x];
    assert a.users == Behind(sys, cache, calls, i).users;
    var v :| v in a.users && a.users[v].email == calls[i].op.email
             && C.NewCodeOf(sys.config, calls[i].env, v, a, Behind(sys, cache, calls, i));
    assert v == u;
  }

  /** Call j redeems the reset code, or gets as far as retiring the codes of this email. */
  predicate Ends(c: Call, answer: O.Response, otpHash: string, email: string) {
    || (c.op.Reset? && c.op.otpHash == otpHash && answer.PasswordReset?)
    || (c.op.Forgot? && c.op.email == email
        && c.env.faults !! {GetUserByEmail, Randomness, CodeHashing, SoftDeleteOtpsOfUser})
  }

  /** Call i issued to u the reset code that call k presents; u is still there; and no call in between
      has redeemed or superseded it. */
  ghost predicate ResetReady(sys: Service, cache: CacheState, calls: seq<Call>, k: nat, i: nat, u: int)
    requires k < |calls| && calls[k].op.Reset?
  {
    && Enables(sys, cache, calls, i, k, u, ResetPassword, calls[k].op.otpHash, calls[k].op.code)
    && u in Before(sys, cache, calls, k).users && calls[k].op.otpHash != ""
    && forall j: nat :: i < j < k ==>
         !Ends(calls[j], Answer(sys, Empty(cache), calls, j), calls[k].op.otpHash, calls[i].op.email)
  }

  lemma UserBetween(sys: Service, cache: CacheState, calls: seq<Call>, m: nat, j: nat, n: nat, u: int)
    requires m <= j <= n <= |calls| && u in After(sys, Empty(cache), calls[..m]).db.users
    requires u in After(sys, Empty(cache), calls[..n]).db.users
    ensures var (a, b) := (After(sys, Empty(cache), calls[..m]).db, After(sys, Empty(cache), calls[..j]).db);
            u in b.users && b.users[u].email == a.users[u].email
  {
    AfterIsSound(sys, cache, calls[..m]);
    UserExisted(sys, cache, calls, m, j, u);
    UserWasThere(sys, cache, calls, j, n, u);
    UserWasThere(sys, cache, calls, m, j, u);
  }

  /** A call that does not end the life of a reset code does not spend its row either. */
  lemma UnendedIsUnspent(c: Call, answer: O.Response, a: Store, b: Store, o: Otp, email: string)
    requires o.userId in a.users && a.users[o.userId].email == email && o.purpose == ResetPassword
    requires !Ends(c, answer, o.otpHash, email)
    ensures !Spends(c, answer, a, b, o)
  {
  }

  lemma ResetCodeSpared(sys: Service, cache: CacheState, calls: seq<Call>, m: nat, j: nat, n: nat, o: Otp,
                        email: string)
    requires m <= j < n <= |calls| && o.purpose == ResetPassword && calls[j].env.now <= o.expiresAt
    requires var users := After(sys, Empty(cache), calls[..m]).db.users;
             o.userId in users && users[o.userId].email == email
    requires o.userId in After(sys, Empty(cache), calls[..n]).db.users
    requires !Ends(calls[j], Answer(sys, Empty(cache), calls, j), o.otpHash, email)
    ensures Spared(sys, cache, calls, j, o)
  {
    UserBetween(sys, cache, calls, m, j, n, o.userId);
    UserBetween(sys, cache, calls, m, j + 1, n, o.userId);
    UnendedIsUnspent(calls[j], Answer(sys, Empty(cache), calls, j), Before(sys, cache, calls, j),
                     Behind(sys, cache, calls, j), o, email);
  }

  /** The converse of ResetNeedsForgot: a reset code issued to a user who is still there changes this
      user's password when it is presented in time with the right digits and the calls of
      ResetPassword work, unless it was redeemed or superseded in between. */
  lemma ReadyCodeResets(sys: Service, cache: CacheState, calls: seq<Call>, k: nat, i: nat, u: int)
    requires Lawful(calls) && k < |calls| && calls[k].op.Reset? && ResetReady(sys, cache, calls, k, i, u)
    requires calls[k].env.faults !! C.RESET_NEEDS
    ensures Answer(sys, Empty(cache), calls, k).PasswordReset?
    ensures Behind(sys, cache, calls, k).credentials
            == Before(sys, cache, calls, k).credentials[u := Bcrypt(calls[k].op.password)]
  {
    var x, o := ForgotStores(sys, cache, calls, i, k, u, calls[k].op.otpHash, calls[k].op.code);
    forall j: nat | i + 1 <= j < k ensures Spared(sys, cache, calls, j, o) {
      ResetCodeSpared(sys, cache, calls, i + 1, j, k, o, calls[i].op.email);
    }
    CodeStays(sys, cache, calls, i + 1, k, x, o);
    C.ResetExactly(sys, cache, calls, k);
    assert C.Redeemable(Before(sys, cache, calls, k), o.otpHash, ResetPassword, calls[k].op.code, calls[k].env.now, x);
  }

  lemma SupersededIsUsed(sys: Service, cache: CacheState, calls: seq<Call>, i: nat, j: nat, otpHash: string)
    requires Lawful(calls) && i < j < |calls| && calls[i].op.Forgot? && calls[i].env.otpHash == otpHash
    requires calls[j].op == calls[i].op
    requires calls[j].env.faults !! {GetUserByEmail, Randomness, CodeHashing, SoftDeleteOtpsOfUser}
    ensures Used(Behind(sys, cache, calls, j).otps, otpHash)
  {
    Supersession.RowsOfTheCode(sys, cache, calls, i, j, calls[i].op.email, otpHash);
    C.ForgotExactly(sys, cache, calls, j);
    AfterNext(sys, Empty(cache), calls, j);
    AfterIsSound(sys, cache, calls[..j]);
    StepTables(sys, After(sys, Empty(cache), calls[..j]), calls[j]);
  }

  lemma EndedIsUsed(sys: Service, cache: CacheState, calls: seq<Call>, i: nat, j: nat, otpHash: string)
    requires Lawful(calls) && i < j < |calls| && calls[i].op.Forgot? && calls[i].env.otpHash == otpHash
    requires Ends(calls[j], Answer(sys, Empty(cache), calls, j), otpHash, calls[i].op.email)
    ensures Used(Behind(sys, cache, calls, j).otps, otpHash)
  {
    if calls[j].op.Reset? {
      CallIsSound(sys, cache, calls, j);
      StepUses(sys, After(sys, Empty(cache), calls[..j]), calls[j], otpHash);
    } else {
      SupersededIsUsed(sys, cache, calls, i, j, otpHash);
    }
  }

  lemma EndedIsRefused(sys: Service, cache: CacheState, calls: seq<Call>, i: nat, j: nat, k: nat, u: int)
    requires Lawful(calls) && i < j < k < |calls| && calls[k].op.Reset? && calls[k].op.otpHash != ""
    requires Enables(sys, cache, calls, i, k, u, ResetPassword, calls[k].op.otpHash, calls[k].op.code)
    requires Ends(calls[j], Answer(sys, Empty(cache), calls, j), calls[k].op.otpHash, calls[i].op.email)
    ensures Answer(sys, Empty(cache), calls, k).Rejected?
  {
    var otpHash := calls[k].op.otpHash;
    var x, o := ForgotStores(sys, cache, calls, i, k, u, otpHash, calls[k].op.code);
    EndedIsUsed(sys, cache, calls, i, j, otpHash);
    UsedForGood(sys, cache, calls, j + 1, k, otpHash);
    UsedIsRefused(sys, After(sys, Empty(cache), calls[..k]), calls[k], otpHash);
  }

  lemma ResetWasReady(sys: Service, cache: CacheState, calls: seq<Call>, k: nat)
    requires Lawful(calls) && k < |calls| && calls[k].op.Reset? && Answer(sys, Empty(cache), calls, k).PasswordReset?
    ensures exists i: nat, u: int :: ResetReady(sys, cache, calls, k, i, u)
  {
    ResetNeedsForgot(sys, cache, calls, k);
    var i: nat, u: int :| ResetsWith(sys, cache, calls, k, i, u);
    C.ResetExactly(sys, cache, calls, k);
    forall j: nat | i < j < k
      ensures !Ends(calls[j], Answer(sys, Empty(cache), calls, j), calls[k].op.otpHash, calls[i].op.email)
    {
      if Ends(calls[j], Answer(sys, Empty(cache), calls, j), calls[k].op.otpHash, calls[i].op.email) {
        EndedIsRefused(sys, cache, calls, i, j, k, u);
      }
    }
    assert ResetReady(sys, cache, calls, k, i, u);
  }

  /** ResetPassword, told from the run: it succeeds if and only if a ForgotPassword issued the code to a
      user who is still there, the digits are right, it has not run out, no call in between has
      redeemed it or retired the codes of the same email, and its own calls work. */
  lemma ResetSucceedsExactly(sys: Service, cache: CacheState, calls: seq<Call>, k: nat)
    requires Lawful(calls) && k < |calls| && calls[k].op.Reset?
    ensures Answer(sys, Empty(cache), calls, k).PasswordReset?
            <==> calls[k].env.faults !! C.RESET_NEEDS
                 && exists i: nat, u: int :: ResetReady(sys, cache, calls, k, i, u)
  {
    if Answer(sys, Empty(cache), calls, k).PasswordReset? {
      ResetWasReady(sys, cache, calls, k);
      C.ResetExactly(sys, cache, calls, k);
    }
    if calls[k].env.faults !! C.RESET_NEEDS && exists i: nat, u: int :: ResetReady(sys, cache, calls, k, i, u) {
      var i: nat, u: int :| ResetReady(sys, cache, calls, k, i, u);
      ReadyCodeResets(sys, cache, calls, k, i, u);
    }
  }
}
