/** The overlap is real: from empty tables a reset code is sent, and two requests redeem it. */
module OverlapWitness {
  import opened Domain
  import opened Tables
  import opened Flights
  import opened Interleaving
  import opened Redemptions
  import TokenSteps

  lemma RunSnoc(cfg: Config, w: World, actions: seq<Action>, a: Action)
    ensures Run(cfg, w, actions + [a]) == Step(cfg, Run(cfg, w, actions), a)
  {
    assert (actions + [a])[..|actions|] == actions;
  }

  /** The step of an account flight, by its effect on the tables and the flight. */
  ghost predicate Flew(w: World, v: World, f: int, db: Store, fl: Flight) {
    v.db == db && v.flights == w.flights[f := fl] && v.now == w.now && v.nextFlight == w.nextFlight
    && v.began == w.began
  }

  lemma Flies(cfg: Config, w: World, f: int, a: Account, c: Choice)
    requires f in w.flights && w.flights[f] == OfAccount(a)
    ensures var (db, fl) := AccountStep(w.db, a, w.now, cfg.otpExpiry, c);
            Flew(w, Step(cfg, w, Advance(f, c)), f, db, fl)
  {
  }

  lemma SignupFlies(cfg: Config, w: World, f: int, a: Account, c: Choice)
    requires f in w.flights && w.flights[f] == OfAccount(a) && InSignup(a)
    ensures var (db, fl) := SignupStep(w.db, a, w.now, cfg.otpExpiry, c);
            Flew(w, Step(cfg, w, Advance(f, c)), f, db, fl)
  {
    Flies(cfg, w, f, a, c);
  }

  lemma PasswordFlies(cfg: Config, w: World, f: int, a: Account, c: Choice)
    requires f in w.flights && w.flights[f] == OfAccount(a) && InPassword(a)
    ensures var (db, fl) := PasswordStep(w.db, a, w.now, cfg.otpExpiry, c);
            Flew(w, Step(cfg, w, Advance(f, c)), f, db, fl)
  {
    Flies(cfg, w, f, a, c);
  }

  lemma Begins(cfg: Config, w: World, a: Account)
    requires a.SignupStart? || a.ForgotStart? || a.ResetStart?
    ensures var v := Step(cfg, w, Begin(OfAccount(a)));
            && v.db == w.db && v.now == w.now && v.flights == w.flights[w.nextFlight := OfAccount(a)]
            && v.nextFlight == w.nextFlight + 1 && v.began == w.began[w.nextFlight := OfAccount(a)]
  {
  }

  /** A live reset code with this text is in the tables. */
  ghost predicate Sent(db: Store, i: int, h: string, code: string, expiresAt: Time) {
    && i in db.otps && IsLiveOtp(db.otps[i], h, ResetPassword)
    && db.otps[i].code == Bcrypt(code) && db.otps[i].expiresAt == expiresAt
  }

  // ---------------------------------------------------------------- a code is sent

  /** One user, and every otp row with the hash that Signup drew. */
  ghost predicate SignedUp(db: Store, email: string, drawn: string) {
    && db.users.Keys == {1} && db.users[1].email == email
    && forall i :: i in db.otps ==> db.otps[i].otpHash == drawn
  }

  lemma TwoSteps(cfg: Config, w: World, a: Action, b: Action)
    ensures Run(cfg, w, [a, b]) == Step(cfg, Step(cfg, w, a), b)
  {
    RunSnoc(cfg, w, [], a);
    RunSnoc(cfg, w, [a], b);
    assert [] + [a] == [a] && [a] + [b] == [a, b];
  }

  lemma ThreeSteps(cfg: Config, w: World, a: Action)
    ensures Run(cfg, w, [a, a, a]) == Step(cfg, Step(cfg, Step(cfg, w, a), a), a)
  {
    TwoSteps(cfg, w, a, a);
    RunSnoc(cfg, w, [a, a], a);
    assert [a, a] + [a] == [a, a, a];
  }

  /** Two runs, one after the other. */
  lemma Then(cfg: Config, w: World, xs: seq<Action>, u: World, ys: seq<Action>, v: World) returns (actions: seq<Action>)
    requires u == Run(cfg, w, xs) && v == Run(cfg, u, ys)
    ensures v == Run(cfg, w, actions)
  {
    RunConcat(cfg, w, xs, ys);
    actions := xs + ys;
  }

  lemma SignupOpens(cfg: Config, now: nat, email: string, password: string, c: Choice)
    returns (actions: seq<Action>, v: World)
    requires c.faults == {}
    ensures v == Run(cfg, Start(now), actions)
    ensures v.now == now && v.nextFlight == 1 && v.db == EMPTY
    ensures 0 in v.flights && v.flights[0] == OfAccount(SignupCreate(email, Bcrypt(password)))
  {
    var a := SignupStart(email, password);
    Begins(cfg, Start(now), a);
    var u := Step(cfg, Start(now), Begin(OfAccount(a)));
    SignupFlies(cfg, u, 0, a, c);
    TwoSteps(cfg, Start(now), Begin(OfAccount(a)), Advance(0, c));
    v := Step(cfg, u, Advance(0, c));
    actions := [Begin(OfAccount(SignupStart(email, password))), Advance(0, c)];
  }

  lemma SignupCloses(cfg: Config, w: World, email: string, digest: Digest, c: Choice)
    returns (actions: seq<Action>, v: World)
    requires c.faults == {} && w.db == EMPTY && 0 in w.flights && w.flights[0] == OfAccount(SignupCreate(email, digest))
    ensures v == Run(cfg, w, actions)
    ensures v.now == w.now && v.nextFlight == w.nextFlight && SignedUp(v.db, email, c.otpHash)
  {
    var a := Advance(0, c);
    SignupFlies(cfg, w, 0, SignupCreate(email, digest), c);
    var w1 := Step(cfg, w, a);
    SignupFlies(cfg, w1, 0, SignupClock(1), c);
    var w2 := Step(cfg, w1, a);
    SignupFlies(cfg, w2, 0, SignupOtp(1, w.now + cfg.otpExpiry), c);
    ThreeSteps(cfg, w, a);
    v := Step(cfg, w2, a);
    actions := [Advance(0, c), Advance(0, c), Advance(0, c)];
  }

  lemma ForgotOpens(cfg: Config, w: World, email: string, drawn: string, c: Choice)
    returns (actions: seq<Action>, v: World)
    requires c.faults == {} && w.nextFlight == 1 && SignedUp(w.db, email, drawn)
    ensures v == Run(cfg, w, actions)
    ensures v.now == w.now && v.db == w.db && 1 in v.flights && v.flights[1] == OfAccount(ForgotRetire(1))
  {
    var a := ForgotStart(email);
    assert UserByEmail(w.db, email) == Some(1);
    Begins(cfg, w, a);
    var u := Step(cfg, w, Begin(OfAccount(a)));
    PasswordFlies(cfg, u, 1, a, c);
    TwoSteps(cfg, w, Begin(OfAccount(a)), Advance(1, c));
    v := Step(cfg, u, Advance(1, c));
    actions := [Begin(OfAccount(ForgotStart(email))), Advance(1, c)];
  }

  lemma RetiredStaySignedUp(db: Store, email: string, drawn: string, now: Time)
    requires SignedUp(db, email, drawn)
    ensures SignedUp(RetireOtpsOf(db, 1, ResetPassword, now, true), email, drawn)
  {
  }

  lemma InsertedIsSent(db: Store, email: string, drawn: string, expiresAt: Time, now: Time, c: Choice)
    requires SignedUp(db, email, drawn) && c.otpHash != drawn
    ensures var t := InsertOtp(db, 1, c.otpHash, Bcrypt(c.code), ResetPassword, expiresAt, now, true).0;
            Sent(t, db.nextOtp, c.otpHash, c.code, expiresAt)
  {
  }

  lemma ForgotCloses(cfg: Config, w: World, email: string, drawn: string, c: Choice)
    returns (actions: seq<Action>, v: World, i: int)
    requires c.faults == {} && c.otpHash != drawn && SignedUp(w.db, email, drawn)
    requires 1 in w.flights && w.flights[1] == OfAccount(ForgotRetire(1))
    ensures v == Run(cfg, w, actions)
    ensures v.now == w.now && Sent(v.db, i, c.otpHash, c.code, w.now + cfg.otpExpiry)
  {
    var a := Advance(1, c);
    PasswordFlies(cfg, w, 1, ForgotRetire(1), c);
    RetiredStaySignedUp(w.db, email, drawn, w.now);
    var w1 := Step(cfg, w, a);
    PasswordFlies(cfg, w1, 1, ForgotClock(1), c);
    var w2 := Step(cfg, w1, a);
    PasswordFlies(cfg, w2, 1, ForgotOtp(1, w.now + cfg.otpExpiry), c);
    InsertedIsSent(w2.db, email, drawn, w.now + cfg.otpExpiry, w.now, c);
    ThreeSteps(cfg, w, a);
    v, i := Step(cfg, w2, a), w2.db.nextOtp;
    actions := [Advance(1, c), Advance(1, c), Advance(1, c)];
  }

  /** A run that sends a reset code. */
  lemma CodeIsSent(cfg: Config, now: nat, email: string, password: string, c: Choice, d: Choice)
    returns (actions: seq<Action>, v: World, i: int)
    requires c.faults == {} && d.faults == {} && d.otpHash != c.otpHash
    ensures v == Run(cfg, Start(now), actions) && v.now == now && Sent(v.db, i, d.otpHash, d.code, now + cfg.otpExpiry)
  {
    var xs, x := SignupOpens(cfg, now, email, password, c);
    var ys, y := SignupCloses(cfg, x, email, Bcrypt(password), c);
    actions := Then(cfg, Start(now), xs, x, ys, y);
    var zs, z := ForgotOpens(cfg, y, email, c.otpHash, d);
    actions := Then(cfg, Start(now), actions, y, zs, z);
    var rest;
    rest, v, i := ForgotCloses(cfg, z, email, c.otpHash, d);
    actions := Then(cfg, Start(now), actions, z, rest, v);
  }

  // ---------------------------------------------------------------- and redeemed twice

  lemma Reads(cfg: Config, w: World, f: int, i: int, h: string, code: string, expiresAt: Time, password: string,
              c: Choice)
    requires Wf(w.db) && Sent(w.db, i, h, code, expiresAt) && h != "" && c.faults == {}
    requires f in w.flights && w.flights[f] == OfAccount(ResetStart(h, code, password))
    ensures Flew(w, Step(cfg, w, Advance(f, c)), f, w.db, OfAccount(ResetClock(w.db.otps[i], code, password)))
  {
    PasswordFlies(cfg, w, f, ResetStart(h, code, password), c);
    var otp := LiveOtp(w.db, h, ResetPassword).value;
    var j :| j in w.db.otps && w.db.otps[j] == otp;
    assert w.db.otps[i].otpHash == w.db.otps[j].otpHash;
  }

  lemma BothBegin(cfg: Config, w: World, n: int, h: string, code: string, p: string, q: string)
    returns (actions: seq<Action>, v: World)
    requires n == w.nextFlight
    ensures v == Run(cfg, w, actions)
    ensures v.db == w.db && v.now == w.now && n in v.flights && n + 1 in v.flights && n in v.began && n + 1 in v.began
    ensures v.flights[n] == v.began[n] == OfAccount(ResetStart(h, code, p))
    ensures v.flights[n + 1] == v.began[n + 1] == OfAccount(ResetStart(h, code, q))
  {
    var (x, y) := (ResetStart(h, code, p), ResetStart(h, code, q));
    Begins(cfg, w, x);
    var u := Step(cfg, w, Begin(OfAccount(x)));
    Begins(cfg, u, y);
    TwoSteps(cfg, w, Begin(OfAccount(x)), Begin(OfAccount(y)));
    v := Step(cfg, u, Begin(OfAccount(y)));
    actions := [Begin(OfAccount(ResetStart(h, code, p))), Begin(OfAccount(ResetStart(h, code, q)))];
  }

  lemma BothRead(cfg: Config, w: World, n: int, i: int, h: string, code: string, expiresAt: Time, p: string,
                 q: string, c: Choice)
    returns (actions: seq<Action>, v: World)
    requires Wf(w.db) && Sent(w.db, i, h, code, expiresAt) && h != "" && c.faults == {} && n in w.flights
    requires n + 1 in w.flights
    requires w.flights[n] == OfAccount(ResetStart(h, code, p)) && w.flights[n + 1] == OfAccount(ResetStart(h, code, q))
    ensures v == Run(cfg, w, actions)
    ensures v.now == w.now && n in v.flights && n + 1 in v.flights
    ensures v.flights[n] == OfAccount(ResetClock(w.db.otps[i], code, p))
    ensures v.flights[n + 1] == OfAccount(ResetClock(w.db.otps[i], code, q))
    ensures v.began == w.began
  {
    Reads(cfg, w, n, i, h, code, expiresAt, p, c);
    var u := Step(cfg, w, Advance(n, c));
    Reads(cfg, u, n + 1, i, h, code, expiresAt, q, c);
    TwoSteps(cfg, w, Advance(n, c), Advance(n + 1, c));
    v := Step(cfg, u, Advance(n + 1, c));
    actions := [Advance(n, c), Advance(n + 1, c)];
  }

  /** The rest of a reset that holds the code, from its check of the clock on. */
  lemma RunsOn(cfg: Config, w: World, f: int, otp: Otp, code: string, password: string, c: Choice)
    returns (actions: seq<Action>, v: World)
    requires f in w.flights && w.flights[f] == OfAccount(ResetClock(otp, code, password)) && c.faults == {}
    requires w.now <= otp.expiresAt && Verify(otp.code, code)
    ensures v == Run(cfg, w, actions)
    ensures v.flights == w.flights[f := Finished(Done)] && v.now == w.now && v.began == w.began
  {
    PasswordFlies(cfg, w, f, ResetClock(otp, code, password), c);
    var u := Step(cfg, w, Advance(f, c));
    RunSnoc(cfg, w, [], Advance(f, c));
    var rest;
    rest, v := Writes(cfg, u, f, otp, Bcrypt(password), c);
    actions := Then(cfg, w, [] + [Advance(f, c)], u, rest, v);
  }

  lemma Writes(cfg: Config, w: World, f: int, otp: Otp, digest: Digest, c: Choice)
    returns (actions: seq<Action>, v: World)
    requires f in w.flights && w.flights[f] == OfAccount(ResetUpdate(otp, digest)) && c.faults == {}
    ensures v == Run(cfg, w, actions)
    ensures v.flights == w.flights[f := Finished(Done)] && v.now == w.now && v.began == w.began
  {
    PasswordFlies(cfg, w, f, ResetUpdate(otp, digest), c);
    var u := Step(cfg, w, Advance(f, c));
    PasswordFlies(cfg, u, f, ResetRetire(otp), c);
    TwoSteps(cfg, w, Advance(f, c), Advance(f, c));
    actions, v := [Advance(f, c), Advance(f, c)], Step(cfg, u, Advance(f, c));
  }

  /** Two requests for one code that both read it before either goes on. */
  lemma BothRunOn(cfg: Config, w: World, f: int, g: int, otp: Otp, code: string, p: string, q: string, c: Choice)
    returns (actions: seq<Action>, v: World)
    requires f != g && c.faults == {} && w.now <= otp.expiresAt && Verify(otp.code, code)
    requires f in w.flights && w.flights[f] == OfAccount(ResetClock(otp, code, p))
    requires g in w.flights && w.flights[g] == OfAccount(ResetClock(otp, code, q))
    ensures v == Run(cfg, w, actions) && v.began == w.began
    ensures f in v.flights && v.flights[f] == Finished(Done) && g in v.flights && v.flights[g] == Finished(Done)
  {
    var xs, u := RunsOn(cfg, w, f, otp, code, p, c);
    var ys;
    ys, v := RunsOn(cfg, u, g, otp, code, q, c);
    actions := Then(cfg, w, xs, u, ys, v);
  }

  lemma BothComeToHold(cfg: Config, w: World, i: int, h: string, code: string, expiresAt: Time, p: string, q: string,
                       c: Choice)
    returns (actions: seq<Action>, v: World)
    requires Wf(w.db) && Sent(w.db, i, h, code, expiresAt) && h != "" && c.faults == {}
    ensures var (f, g) := (w.nextFlight, w.nextFlight + 1);
            && v == Run(cfg, w, actions) && v.now == w.now
            && Resetter(v, f, h, code) && v.flights[f] == OfAccount(ResetClock(w.db.otps[i], code, p))
            && Resetter(v, g, h, code) && v.flights[g] == OfAccount(ResetClock(w.db.otps[i], code, q))
  {
    var xs, u := BothBegin(cfg, w, w.nextFlight, h, code, p, q);
    var ys;
    ys, v := BothRead(cfg, u, w.nextFlight, i, h, code, expiresAt, p, q, c);
    actions := Then(cfg, w, xs, u, ys, v);
  }

  /** Two requests for one code that both read it before either goes on. */
  lemma BothRedeem(cfg: Config, w: World, i: int, h: string, code: string, expiresAt: Time, p: string, q: string,
                   c: Choice)
    returns (actions: seq<Action>, v: World)
    requires Wf(w.db) && Sent(w.db, i, h, code, expiresAt) && h != "" && c.faults == {} && w.now <= expiresAt
    ensures var (f, g) := (w.nextFlight, w.nextFlight + 1);
            && v == Run(cfg, w, actions)
            && Resetter(v, f, h, code) && v.flights[f] == Finished(Done)
            && Resetter(v, g, h, code) && v.flights[g] == Finished(Done)
  {
    var xs, u := BothComeToHold(cfg, w, i, h, code, expiresAt, p, q, c);
    var ys;
    ys, v := BothRunOn(cfg, u, w.nextFlight, w.nextFlight + 1, w.db.otps[i], code, p, q, c);
    actions := Then(cfg, w, xs, u, ys, v);
  }

  /** With any expiry that is not negative, some run from empty tables ends with two resets that both
      succeeded with one code. */
  lemma OneCodeTwoSuccesses(cfg: Config, now: nat, email: string, password: string, p: string, q: string, c: Choice,
                            d: Choice)
    returns (actions: seq<Action>, f: int, g: int)
    requires 0 <= cfg.otpExpiry && c.faults == {} && d.faults == {} && d.otpHash !in {"", c.otpHash}
    ensures f != g
    ensures var v := Run(cfg, Start(now), actions);
            && Resetter(v, f, d.otpHash, d.code) && v.flights[f] == Finished(Done)
            && Resetter(v, g, d.otpHash, d.code) && v.flights[g] == Finished(Done)
  {
    var sent, w, i := CodeIsSent(cfg, now, email, password, c, d);
    TokenSteps.Reachable(cfg, now, sent);
    var twice, v := BothRedeem(cfg, w, i, d.otpHash, d.code, now + cfg.otpExpiry, p, q, d);
    f, g := w.nextFlight, w.nextFlight + 1;
    actions := Then(cfg, Start(now), sent, w, twice, v);
  }
}
