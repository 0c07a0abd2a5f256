/** One-time codes under interleaving: two flights both succeed with one code exactly when at some
    moment both hold it, that is, both have read its row and neither has retired it. */
module Redemptions {
  import opened Domain
  import opened Tables
  import opened Flights
  import opened Interleaving
  import opened TokenInvariant
  import TokenSteps

  // ---------------------------------------------------------------- where a redeeming flight stands

  /** The operation presents the hash of a code. */
  predicate Redeems(op: Flight, h: string) {
    op.OfAccount? && (op.account.VerifyStart? || op.account.ResetStart?) && op.account.otpHash == h
  }

  /** The flight has read the row of a code, and carries its copy. */
  predicate HoldsOtp(a: Account) {
    || a.VerifyUser? || a.VerifyClock? || a.VerifyName? || a.VerifyUpdate? || a.VerifyRetire?
    || a.ResetClock? || a.ResetUpdate? || a.ResetRetire?
  }

  /** The copy is of this code, and held by a flight of the operation that the code is for. */
  predicate HoldsCopy(a: Account, o: Otp) {
    && HoldsOtp(a) && a.otp.otpHash == o.otpHash && a.otp.purpose == o.purpose && a.otp.code == o.code
    && a.otp.expiresAt == o.expiresAt && (InVerify(a) <==> o.purpose.SignupVerification?)
  }

  /** Past the retirement of its code. */
  predicate Succeeds(fl: Flight) {
    fl.OfToken? || (fl.Finished? && fl.answer != Failed)
  }

  ghost predicate Redeemer(w: World, f: int, h: string) {
    f in w.flights && f in w.began && Redeems(w.began[f], h)
  }

  ghost predicate Holding(w: World, f: int, h: string) {
    Redeemer(w, f, h) && w.flights[f].OfAccount? && HoldsOtp(w.flights[f].account)
  }

  ghost predicate Succeeded(w: World, f: int, h: string) {
    Redeemer(w, f, h) && Succeeds(w.flights[f])
  }

  /** Not begun, or begun and not one step further. */
  ghost predicate NotYetRead(w: World, f: int, h: string) {
    Redeemer(w, f, h) ==> w.flights[f] == w.began[f]
  }

  ghost predicate Recorded(w: World) {
    forall f :: f in w.flights ==> f in w.began && f < w.nextFlight
  }

  // ---------------------------------------------------------------- the rows of a code

  ghost predicate CodeRows(db: Store, o: Otp) {
    forall i :: i in db.otps && db.otps[i].otpHash == o.otpHash ==>
      db.otps[i].purpose == o.purpose && db.otps[i].code == o.code && db.otps[i].expiresAt == o.expiresAt
  }

  /** No row of the code is left undeleted. */
  ghost predicate Used(db: Store, h: string) {
    forall i :: i in db.otps && db.otps[i].otpHash == h ==> db.otps[i].deletedAt.Some?
  }

  ghost predicate NewRowsCarry(a: Store, b: Store, drawn: string) {
    forall i :: i in b.otps && i !in a.otps ==> b.otps[i].otpHash == drawn
  }

  lemma RowsStay(a: Store, b: Store, o: Otp, drawn: string)
    requires OtpsEvolve(a.otps, a.nextOtp, b.otps) && NewRowsCarry(a, b, drawn) && drawn != o.otpHash
    ensures CodeRows(a, o) ==> CodeRows(b, o)
    ensures Used(a, o.otpHash) ==> Used(b, o.otpHash)
  {
  }

  lemma SignupDraws(db: Store, a: Account, now: Time, otpExpiry: Time, c: Choice)
    requires InSignup(a)
    ensures NewRowsCarry(db, SignupStep(db, a, now, otpExpiry, c).0, c.otpHash)
  {
  }

  lemma VerifyDraws(db: Store, a: Account, now: Time, c: Choice)
    requires InVerify(a)
    ensures NewRowsCarry(db, VerifyStep(db, a, now, c).0, c.otpHash)
  {
  }

  lemma ExchangeDraws(db: Store, a: Account, now: Time, c: Choice)
    requires InExchange(a)
    ensures NewRowsCarry(db, ExchangeStep(db, a, now, c).0, c.otpHash)
  {
  }

  lemma PasswordDraws(db: Store, a: Account, now: Time, otpExpiry: Time, c: Choice)
    requires InPassword(a)
    ensures NewRowsCarry(db, PasswordStep(db, a, now, otpExpiry, c).0, c.otpHash)
  {
  }

  lemma LoginDraws(db: Store, a: Account, now: Time, c: Choice)
    requires InLogin(a)
    ensures NewRowsCarry(db, LoginStep(db, a, now, c).0, c.otpHash)
  {
  }

  lemma DeleteDraws(db: Store, a: Account, c: Choice)
    requires InDelete(a)
    ensures NewRowsCarry(db, DeleteStep(db, a, c).0, c.otpHash)
  {
  }

  lemma AccountDraws(db: Store, a: Account, now: Time, otpExpiry: Time, c: Choice)
    ensures NewRowsCarry(db, AccountStep(db, a, now, otpExpiry, c).0, c.otpHash)
  {
    if InSignup(a) { SignupDraws(db, a, now, otpExpiry, c); }
    else if InVerify(a) { VerifyDraws(db, a, now, c); }
    else if InExchange(a) { ExchangeDraws(db, a, now, c); }
    else if InLogin(a) { LoginDraws(db, a, now, c); }
    else if InDelete(a) { DeleteDraws(db, a, c); }
    else { PasswordDraws(db, a, now, otpExpiry, c); }
  }

  // ---------------------------------------------------------------- a step of the flight itself

  predicate OnCode(fl: Flight, o: Otp) {
    fl.OfAccount? ==> Redeems(fl, o.otpHash) || HoldsCopy(fl.account, o)
  }

  /** What a redeeming flight's own step comes to: it reads a code that is not used up, and it
      succeeds by using up the one it holds. */
  ghost predicate OwnStep(db: Store, fl: Flight, db': Store, fl': Flight, o: Otp) {
    && OnCode(fl', o)
    && (Redeems(fl, o.otpHash) ==> !Succeeds(fl') && (fl'.OfAccount? ==> !Used(db, o.otpHash)))
    && (Succeeds(fl') ==> Used(db', o.otpHash))
  }

  lemma RetirementUses(db: Store, o: Otp, purpose: Purpose, now: Time)
    requires CodeRows(db, o) && o.purpose == purpose
    ensures Used(RetireOtp(db, o.otpHash, purpose, now, true), o.otpHash)
  {
  }

  lemma ReadVerify(db: Store, h: string, code: string, now: Time, c: Choice, o: Otp)
    requires CodeRows(db, o) && o.otpHash == h
    ensures var (db', fl) := VerifyStep(db, VerifyStart(h, code), now, c);
            OwnStep(db, OfAccount(VerifyStart(h, code)), db', fl, o)
  {
  }

  lemma HoldVerify(db: Store, a: Account, now: Time, c: Choice, o: Otp)
    requires CodeRows(db, o) && InVerify(a) && HoldsCopy(a, o)
    ensures var (db', fl) := VerifyStep(db, a, now, c); OwnStep(db, OfAccount(a), db', fl, o)
  {
    if a.VerifyRetire? { RetirementUses(db, o, SignupVerification, now); }
  }

  lemma ReadReset(db: Store, h: string, code: string, password: string, now: Time, otpExpiry: Time, c: Choice, o: Otp)
    requires CodeRows(db, o) && o.otpHash == h
    ensures var (db', fl) := PasswordStep(db, ResetStart(h, code, password), now, otpExpiry, c);
            OwnStep(db, OfAccount(ResetStart(h, code, password)), db', fl, o)
  {
  }

  lemma HoldReset(db: Store, a: Account, now: Time, otpExpiry: Time, c: Choice, o: Otp)
    requires CodeRows(db, o) && InPassword(a) && HoldsCopy(a, o)
    ensures var (db', fl) := PasswordStep(db, a, now, otpExpiry, c); OwnStep(db, OfAccount(a), db', fl, o)
  {
    if a.ResetRetire? { RetirementUses(db, o, ResetPassword, now); }
  }

  lemma RedeemerSteps(db: Store, a: Account, now: Time, otpExpiry: Time, c: Choice, o: Otp)
    requires CodeRows(db, o) && OnCode(OfAccount(a), o)
    ensures var (db', fl) := AccountStep(db, a, now, otpExpiry, c); OwnStep(db, OfAccount(a), db', fl, o)
  {
    if a.VerifyStart? { ReadVerify(db, a.otpHash, a.code, now, c, o); }
    else if a.ResetStart? { ReadReset(db, a.otpHash, a.code, a.password, now, otpExpiry, c, o); }
    else if InVerify(a) { HoldVerify(db, a, now, c, o); }
    else { HoldReset(db, a, now, otpExpiry, c, o); }
  }

  // ---------------------------------------------------------------- one step of anyone

  /** What an action makes of a flight that is already there. */
  ghost predicate FlightStep(cfg: Config, w: World, a: Action, v: World, f: int)
    requires f in w.flights && f in w.began
  {
    && f in v.flights && f in v.began && v.began[f] == w.began[f]
    && if !(a.Advance? && a.f == f) || w.flights[f].Finished? then v.flights[f] == w.flights[f]
       else if w.flights[f].OfAccount?
       then (v.db, v.flights[f]) == AccountStep(w.db, w.flights[f].account, w.now, cfg.otpExpiry, a.c)
       else !v.flights[f].OfAccount?
  }

  lemma TokensStayTokens(cfg: Config, w: World, f: int, t: Token, c: Choice)
    requires f in w.flights && w.flights[f] == OfToken(t)
    ensures f in TokenStep(cfg, w, f, t, c).flights && !TokenStep(cfg, w, f, t, c).flights[f].OfAccount?
  {
    StepOf(cfg, w, f, t, c);
    if InRefresh(t) { RefreshLeads(cfg, w, f, t, c); }
    else if InOpen(t) { OpenLeads(cfg, w, f, t, c); }
    else if InValidate(t) { ValidateLeads(w, f, t, c); }
    else if InLogout(t) { LogoutLeads(w, f, t, c); }
    else if InSet(t) { SetLeads(cfg, w, f, t, c); }
    else { DropLeads(w, f, t, c); }
  }

  lemma AdvanceIs(cfg: Config, w: World, f: int, c: Choice, g: int)
    requires f in w.flights && g in w.flights && g in w.began
    ensures FlightStep(cfg, w, Advance(f, c), AdvanceStep(cfg, w, f, c), g)
  {
    if f == g && w.flights[f].OfToken? { TokensStayTokens(cfg, w, f, w.flights[f].token, c); }
  }

  lemma StepFlight(cfg: Config, w: World, a: Action, f: int)
    requires Recorded(w) && f in w.flights
    ensures FlightStep(cfg, w, a, Step(cfg, w, a), f)
  {
    if a.Advance? && a.f in w.flights { AdvanceIs(cfg, w, a.f, a.c, f); }
  }

  /** Flights appear as they are begun. */
  lemma StepBegins(cfg: Config, w: World, a: Action)
    requires Recorded(w)
    ensures var v := Step(cfg, w, a);
            && Recorded(v)
            && forall f :: f in v.flights && f !in w.flights ==> v.flights[f] == v.began[f]
  {
    if a.Advance? && a.f in w.flights { AdvanceBeginsNothing(cfg, w, a.f, a.c); }
  }

  lemma AdvanceBeginsNothing(cfg: Config, w: World, f: int, c: Choice)
    requires Recorded(w) && f in w.flights
    ensures var v := AdvanceStep(cfg, w, f, c);
            v.began == w.began && v.nextFlight == w.nextFlight && v.flights.Keys == w.flights.Keys
  {
  }

  /** What an action makes of the rows of codes. */
  lemma StepRows(cfg: Config, w: World, a: Action)
    requires Wf(w.db)
    ensures var v := Step(cfg, w, a);
            && OtpsEvolve(w.db.otps, w.db.nextOtp, v.db.otps)
            && (if a.Advance? then NewRowsCarry(w.db, v.db, a.c.otpHash) else v.db.otps.Keys <= w.db.otps.Keys)
  {
    if a.Advance? && a.f in w.flights && w.flights[a.f].OfAccount? {
      AccountStepKeeps(w.db, w.flights[a.f].account, w.now, cfg.otpExpiry, a.c);
      AccountDraws(w.db, w.flights[a.f].account, w.now, cfg.otpExpiry, a.c);
    } else {
      OtherStepsDrawNothing(cfg, w, a);
    }
  }

  lemma OtherStepsDrawNothing(cfg: Config, w: World, a: Action)
    requires !(a.Advance? && a.f in w.flights && w.flights[a.f].OfAccount?)
    ensures var b := Step(cfg, w, a).db.otps; forall i :: i in b ==> i in w.db.otps && b[i] == w.db.otps[i]
  {
  }

  /** The action draws no second code with this hash. */
  predicate DrawsAnother(a: Action, h: string) {
    a.Advance? ==> a.c.otpHash != h
  }

  lemma StepKeepsRows(cfg: Config, w: World, a: Action, o: Otp)
    requires Wf(w.db) && CodeRows(w.db, o) && DrawsAnother(a, o.otpHash)
    ensures var v := Step(cfg, w, a); CodeRows(v.db, o) && (Used(w.db, o.otpHash) ==> Used(v.db, o.otpHash))
  {
    StepRows(cfg, w, a);
    RowsStay(w.db, Step(cfg, w, a).db, o, if a.Advance? then a.c.otpHash else o.otpHash + "x");
  }

  // ---------------------------------------------------------------- the invariant of a redeeming flight

  ghost predicate Tracked(w: World, f: int, o: Otp) {
    Redeemer(w, f, o.otpHash) ==>
      OnCode(w.flights[f], o) && (Succeeds(w.flights[f]) ==> Used(w.db, o.otpHash))
  }

  /** A flight comes to hold the code only while it is not used up, and to succeed only from holding it. */
  ghost predicate GoesOn(w: World, v: World, f: int, o: Otp) {
    && Tracked(v, f, o)
    && (Holding(v, f, o.otpHash) ==> Holding(w, f, o.otpHash) || !Used(w.db, o.otpHash))
    && (Succeeded(v, f, o.otpHash) ==> Succeeded(w, f, o.otpHash) || Holding(w, f, o.otpHash))
  }

  lemma TrackedStep(cfg: Config, w: World, a: Action, f: int, o: Otp)
    requires Wf(w.db) && Recorded(w) && CodeRows(w.db, o) && DrawsAnother(a, o.otpHash) && Tracked(w, f, o)
    ensures GoesOn(w, Step(cfg, w, a), f, o)
  {
    StepBegins(cfg, w, a);
    StepKeepsRows(cfg, w, a, o);
    if f in w.flights {
      StepFlight(cfg, w, a, f);
      TrackedMove(cfg, w, a, Step(cfg, w, a), f, o);
    }
  }

  lemma TrackedMove(cfg: Config, w: World, a: Action, v: World, f: int, o: Otp)
    requires CodeRows(w.db, o) && Tracked(w, f, o) && (Used(w.db, o.otpHash) ==> Used(v.db, o.otpHash))
    requires f in w.flights && f in w.began && FlightStep(cfg, w, a, v, f)
    ensures GoesOn(w, v, f, o)
  {
    if Redeemer(w, f, o.otpHash) && a.Advance? && a.f == f && w.flights[f].OfAccount? {
      RedeemerSteps(w.db, w.flights[f].account, w.now, cfg.otpExpiry, a.c, o);
    }
  }

  // ---------------------------------------------------------------- two flights

  /** Of two redeemers of a code, once one has succeeded the other neither holds it nor has succeeded. */
  ghost predicate Apart(w: World, f: int, g: int, h: string) {
    && !(Succeeded(w, f, h) && Succeeded(w, g, h))
    && !(Succeeded(w, f, h) && Holding(w, g, h))
    && !(Holding(w, f, h) && Succeeded(w, g, h))
  }

  ghost predicate BothHold(w: World, f: int, g: int, h: string) {
    Holding(w, f, h) && Holding(w, g, h)
  }

  ghost predicate CodeInv(w: World, f: int, g: int, o: Otp) {
    && Recorded(w) && CodeRows(w.db, o) && Tracked(w, f, o) && Tracked(w, g, o) && Apart(w, f, g, o.otpHash)
  }

  /** At most one of two flights moves. */
  lemma OnlyOneMoves(cfg: Config, w: World, a: Action, f: int, g: int, h: string)
    requires Recorded(w) && f != g
    ensures var v := Step(cfg, w, a);
            || ((Holding(v, f, h) ==> Holding(w, f, h)) && (Succeeded(v, f, h) ==> Succeeded(w, f, h)))
            || ((Holding(v, g, h) ==> Holding(w, g, h)) && (Succeeded(v, g, h) ==> Succeeded(w, g, h)))
  {
    if a.Advance? && a.f == f { Stands(cfg, w, a, g, h); } else { Stands(cfg, w, a, f, h); }
  }

  lemma Stands(cfg: Config, w: World, a: Action, f: int, h: string)
    requires Recorded(w) && !(a.Advance? && a.f == f)
    ensures var v := Step(cfg, w, a);
            (Holding(v, f, h) ==> Holding(w, f, h)) && (Succeeded(v, f, h) ==> Succeeded(w, f, h))
  {
    StepBegins(cfg, w, a);
    if f in w.flights { StepFlight(cfg, w, a, f); }
  }

  lemma CodeStep(cfg: Config, w: World, a: Action, f: int, g: int, o: Otp)
    requires Wf(w.db) && f != g && CodeInv(w, f, g, o) && DrawsAnother(a, o.otpHash) && !BothHold(w, f, g, o.otpHash)
    ensures CodeInv(Step(cfg, w, a), f, g, o)
  {
    var v := Step(cfg, w, a);
    StepBegins(cfg, w, a);
    StepKeepsRows(cfg, w, a, o);
    TrackedStep(cfg, w, a, f, o);
    TrackedStep(cfg, w, a, g, o);
    OnlyOneMoves(cfg, w, a, f, g, o.otpHash);
    StaysApart(w, v, f, g, o);
  }

  lemma StaysApart(w: World, v: World, f: int, g: int, o: Otp)
    requires Tracked(w, f, o) && Tracked(w, g, o) && Apart(w, f, g, o.otpHash) && !BothHold(w, f, g, o.otpHash)
    requires GoesOn(w, v, f, o) && GoesOn(w, v, g, o)
    requires var h := o.otpHash;
             || ((Holding(v, f, h) ==> Holding(w, f, h)) && (Succeeded(v, f, h) ==> Succeeded(w, f, h)))
             || ((Holding(v, g, h) ==> Holding(w, g, h)) && (Succeeded(v, g, h) ==> Succeeded(w, g, h)))
    ensures Apart(v, f, g, o.otpHash)
  {
  }

  // ---------------------------------------------------------------- runs

  predicate NeverDraws(actions: seq<Action>, h: string) {
    forall k :: 0 <= k < |actions| ==> DrawsAnother(actions[k], h)
  }

  /** At some moment of the run both flights hold the code. */
  ghost predicate Overlap(cfg: Config, w: World, actions: seq<Action>, f: int, g: int, h: string) {
    exists k :: 0 <= k <= |actions| && BothHold(Run(cfg, w, actions[..k]), f, g, h)
  }

  lemma {:induction false} CodeRun(cfg: Config, w: World, actions: seq<Action>, f: int, g: int, o: Otp)
    requires TokenInv(cfg, w) && f != g && CodeInv(w, f, g, o) && NeverDraws(actions, o.otpHash)
    requires !Overlap(cfg, w, actions, f, g, o.otpHash)
    ensures CodeInv(Run(cfg, w, actions), f, g, o)
  {
    if actions != [] {
      var n := |actions| - 1;
      EarlierOverlap(cfg, w, actions, f, g, o.otpHash);
      CodeRun(cfg, w, actions[..n], f, g, o);
      TokenSteps.RunKeeps(cfg, w, actions[..n]);
      assert !BothHold(Run(cfg, w, actions[..n]), f, g, o.otpHash);
      CodeStep(cfg, Run(cfg, w, actions[..n]), actions[n], f, g, o);
    }
  }

  lemma EarlierOverlap(cfg: Config, w: World, actions: seq<Action>, f: int, g: int, h: string)
    requires actions != []
    ensures Overlap(cfg, w, actions[..|actions| - 1], f, g, h) ==> Overlap(cfg, w, actions, f, g, h)
  {
    var n := |actions| - 1;
    if Overlap(cfg, w, actions[..n], f, g, h) {
      var k :| 0 <= k <= n && BothHold(Run(cfg, w, actions[..n][..k]), f, g, h);
      assert actions[..n][..k] == actions[..k];
    }
  }

  lemma {:induction false} RunRecords(cfg: Config, now: nat, actions: seq<Action>)
    ensures Recorded(Run(cfg, Start(now), actions))
  {
    if actions != [] {
      var n := |actions| - 1;
      RunRecords(cfg, now, actions[..n]);
      StepBegins(cfg, Run(cfg, Start(now), actions[..n]), actions[n]);
    }
  }

  /** The row of a hash speaks for every row of it. */
  lemma OneRowPerHash(db: Store, h: string) returns (o: Otp)
    requires Wf(db)
    ensures o.otpHash == h && CodeRows(db, o)
  {
    if i :| i in db.otps && db.otps[i].otpHash == h {
      o := db.otps[i];
    } else {
      o := Otp(0, 0, h, Blank, ResetPassword, 0, None, 0);
    }
  }

  /** In every interleaving: when two flights succeed with the same code, which is not drawn a second
      time, they held it at the same moment. So flights that do not overlap have one success. */
  lemma SuccessesOverlap(cfg: Config, now: nat, earlier: seq<Action>, later: seq<Action>, f: int, g: int, h: string)
    requires f != g && NeverDraws(later, h)
    requires var w := Run(cfg, Start(now), earlier); NotYetRead(w, f, h) && NotYetRead(w, g, h)
    requires var v := Run(cfg, Run(cfg, Start(now), earlier), later); Succeeded(v, f, h) && Succeeded(v, g, h)
    ensures Overlap(cfg, Run(cfg, Start(now), earlier), later, f, g, h)
  {
    var w := Run(cfg, Start(now), earlier);
    TokenSteps.Reachable(cfg, now, earlier);
    RunRecords(cfg, now, earlier);
    var o := OneRowPerHash(w.db, h);
    if !Overlap(cfg, w, later, f, g, h) { CodeRun(cfg, w, later, f, g, o); }
  }

  // ---------------------------------------------------------------- who holds the code succeeds

  /** The flight's own calls work. */
  predicate Smooth(a: Action, f: int) {
    a.Advance? && a.f == f ==> a.c.faults !! {GetOtp, Hashing, UpdatePassword, SoftDeleteOtp}
  }

  predicate AllSmooth(actions: seq<Action>, f: int) {
    forall k :: 0 <= k < |actions| ==> Smooth(actions[k], f)
  }

  /** A flight of ResetPassword with the right code, which has not failed since it read the row. */
  predicate OnItsWay(fl: Flight, code: string) {
    || (fl.OfAccount? && (fl.account.ResetUpdate? || fl.account.ResetRetire?
                          || (fl.account.ResetClock? && fl.account.code == code && Verify(fl.account.otp.code, code))))
    || fl == Finished(Done)
  }

  /** The clock check of a flight that has it before it will be passed until `end`. */
  predicate InTime(fl: Flight, end: Time) {
    fl.OfAccount? && fl.account.ResetClock? ==> end <= fl.account.otp.expiresAt
  }

  lemma OnItsWaySteps(db: Store, a: Account, now: Time, otpExpiry: Time, c: Choice, code: string, end: Time)
    requires InPassword(a) && OnItsWay(OfAccount(a), code) && InTime(OfAccount(a), end) && now <= end
    requires c.faults !! {GetOtp, Hashing, UpdatePassword, SoftDeleteOtp}
    ensures var fl := PasswordStep(db, a, now, otpExpiry, c).1; OnItsWay(fl, code) && InTime(fl, end)
  {
  }

  lemma OnItsWayStays(cfg: Config, w: World, a: Action, f: int, code: string, end: Time)
    requires Recorded(w) && f in w.flights && w.now <= end && Smooth(a, f)
    requires OnItsWay(w.flights[f], code) && InTime(w.flights[f], end)
    ensures var v := Step(cfg, w, a); f in v.flights && OnItsWay(v.flights[f], code) && InTime(v.flights[f], end)
  {
    StepFlight(cfg, w, a, f);
    if a.Advance? && a.f == f && w.flights[f].OfAccount? {
      OnItsWaySteps(w.db, w.flights[f].account, w.now, cfg.otpExpiry, a.c, code, end);
    }
  }

  lemma TimeGoesOn(cfg: Config, w: World, a: Action)
    ensures w.now <= Step(cfg, w, a).now
  {
  }

  predicate ResetWith(op: Flight, h: string, code: string) {
    op.OfAccount? && op.account.ResetStart? && op.account.otpHash == h && op.account.code == code
  }

  ghost predicate Resetter(w: World, f: int, h: string, code: string) {
    f in w.flights && f in w.began && ResetWith(w.began[f], h, code)
  }

  predicate CarriesCode(a: Account, code: string) {
    InPassword(a) && (a.ResetStart? || a.ResetClock? ==> a.code == code)
  }

  ghost predicate Carries(w: World, f: int, h: string, code: string) {
    Resetter(w, f, h, code) && w.flights[f].OfAccount? ==> CarriesCode(w.flights[f].account, code)
  }

  lemma PasswordCarries(db: Store, a: Account, now: Time, otpExpiry: Time, c: Choice, code: string)
    requires InPassword(a) && CarriesCode(a, code)
    ensures var fl := PasswordStep(db, a, now, otpExpiry, c).1; fl.OfAccount? ==> CarriesCode(fl.account, code)
  {
  }

  lemma CarriesStep(cfg: Config, w: World, a: Action, f: int, h: string, code: string)
    requires Recorded(w) && Carries(w, f, h, code)
    ensures Carries(Step(cfg, w, a), f, h, code)
  {
    StepBegins(cfg, w, a);
    if f in w.flights {
      StepFlight(cfg, w, a, f);
      CarriesMove(cfg, w, a, Step(cfg, w, a), f, h, code);
    }
  }

  lemma CarriesMove(cfg: Config, w: World, a: Action, v: World, f: int, h: string, code: string)
    requires f in w.flights && f in w.began && FlightStep(cfg, w, a, v, f) && Carries(w, f, h, code)
    ensures Carries(v, f, h, code)
  {
    if Resetter(w, f, h, code) && a.Advance? && a.f == f && w.flights[f].OfAccount? {
      var now, account := w.now, w.flights[f].account;
      PasswordStepOf(w.db, account, now, cfg.otpExpiry, a.c);
      PasswordCarries(w.db, account, now, cfg.otpExpiry, a.c, code);
    }
  }

  lemma PasswordStepOf(db: Store, a: Account, now: Time, otpExpiry: Time, c: Choice)
    requires InPassword(a)
    ensures AccountStep(db, a, now, otpExpiry, c) == PasswordStep(db, a, now, otpExpiry, c)
  {
  }

  ghost predicate ResetInv(w: World, f: int, o: Otp, code: string) {
    Recorded(w) && CodeRows(w.db, o) && Tracked(w, f, o) && Carries(w, f, o.otpHash, code)
  }

  lemma {:induction false} ResetRun(cfg: Config, w: World, actions: seq<Action>, f: int, o: Otp, code: string)
    requires TokenInv(cfg, w) && ResetInv(w, f, o, code) && NeverDraws(actions, o.otpHash)
    ensures ResetInv(Run(cfg, w, actions), f, o, code)
  {
    if actions != [] {
      var n := |actions| - 1;
      ResetRun(cfg, w, actions[..n], f, o, code);
      TokenSteps.RunKeeps(cfg, w, actions[..n]);
      var u := Run(cfg, w, actions[..n]);
      StepBegins(cfg, u, actions[n]);
      StepKeepsRows(cfg, u, actions[n], o);
      TrackedStep(cfg, u, actions[n], f, o);
      CarriesStep(cfg, u, actions[n], f, o.otpHash, code);
    }
  }

  lemma HolderIsOnItsWay(w: World, f: int, o: Otp, code: string, end: Time)
    requires ResetInv(w, f, o, code) && Resetter(w, f, o.otpHash, code) && Holding(w, f, o.otpHash)
    requires o.purpose.ResetPassword? && Verify(o.code, code) && end <= o.expiresAt
    ensures OnItsWay(w.flights[f], code) && InTime(w.flights[f], end)
  {
  }

  /** Flights stay, and what they were begun with. */
  lemma BegunStays(cfg: Config, w: World, a: Action, f: int)
    requires Recorded(w) && f in w.flights
    ensures var v := Step(cfg, w, a); f in v.flights && f in v.began && v.began[f] == w.began[f] && w.now <= v.now
  {
    StepFlight(cfg, w, a, f);
    TimeGoesOn(cfg, w, a);
  }

  lemma {:induction false} RunRecorded(cfg: Config, w: World, actions: seq<Action>, f: int)
    requires Recorded(w)
    ensures var v := Run(cfg, w, actions);
            && Recorded(v) && w.now <= v.now
            && (f in w.flights ==> f in v.flights && v.began[f] == w.began[f])
  {
    if actions != [] {
      var n := |actions| - 1;
      RunRecorded(cfg, w, actions[..n], f);
      var u := Run(cfg, w, actions[..n]);
      StepBegins(cfg, u, actions[n]);
      TimeGoesOn(cfg, u, actions[n]);
      if f in w.flights { BegunStays(cfg, u, actions[n], f); }
    }
  }

  lemma {:induction false} OnItsWayRun(cfg: Config, w: World, actions: seq<Action>, f: int, code: string)
    requires Recorded(w) && f in w.flights && AllSmooth(actions, f)
    requires OnItsWay(w.flights[f], code) && InTime(w.flights[f], Run(cfg, w, actions).now)
    ensures f in Run(cfg, w, actions).flights && OnItsWay(Run(cfg, w, actions).flights[f], code)
  {
    OnItsWayUntil(cfg, w, actions, f, code, Run(cfg, w, actions).now);
  }

  lemma {:induction false} OnItsWayUntil(cfg: Config, w: World, actions: seq<Action>, f: int, code: string, end: Time)
    requires Recorded(w) && f in w.flights && AllSmooth(actions, f) && Run(cfg, w, actions).now <= end
    requires OnItsWay(w.flights[f], code) && InTime(w.flights[f], end)
    ensures var v := Run(cfg, w, actions); f in v.flights && OnItsWay(v.flights[f], code) && InTime(v.flights[f], end)
  {
    if actions != [] {
      var n := |actions| - 1;
      var u := Run(cfg, w, actions[..n]);
      TimeGoesOn(cfg, u, actions[n]);
      OnItsWayUntil(cfg, w, actions[..n], f, code, end);
      RunRecorded(cfg, w, actions[..n], f);
      OnItsWayStays(cfg, u, actions[n], f, code, end);
    }
  }

  /** A reset that holds the right code, in time and with its own calls working, succeeds, whatever
      anyone else does meanwhile. */
  lemma HolderSucceeds(cfg: Config, w: World, actions: seq<Action>, k: nat, f: int, o: Otp, code: string)
    requires TokenInv(cfg, w) && ResetInv(w, f, o, code) && NeverDraws(actions, o.otpHash) && k <= |actions|
    requires Holding(Run(cfg, w, actions[..k]), f, o.otpHash) && AllSmooth(actions, f)
    requires o.purpose.ResetPassword? && Verify(o.code, code)
    requires var v := Run(cfg, w, actions);
             Resetter(v, f, o.otpHash, code) && v.flights[f].Finished? && v.now <= o.expiresAt
    ensures Run(cfg, w, actions).flights[f] == Finished(Done)
  {
    var (done, rest) := (actions[..k], actions[k..]);
    assert done + rest == actions;
    RunConcat(cfg, w, done, rest);
    var u, v := Run(cfg, w, done), Run(cfg, w, actions);
    ResetRun(cfg, w, done, f, o, code);
    RunRecorded(cfg, u, rest, f);
    HolderIsOnItsWay(u, f, o, code, v.now);
    OnItsWayRun(cfg, u, rest, f, code);
  }

  lemma HoldersSucceed(cfg: Config, w: World, actions: seq<Action>, f: int, g: int, o: Otp, code: string)
    requires TokenInv(cfg, w) && ResetInv(w, f, o, code) && ResetInv(w, g, o, code) && NeverDraws(actions, o.otpHash)
    requires AllSmooth(actions, f) && AllSmooth(actions, g) && o.purpose.ResetPassword? && Verify(o.code, code)
    requires Overlap(cfg, w, actions, f, g, o.otpHash)
    requires var v := Run(cfg, w, actions);
             && Resetter(v, f, o.otpHash, code) && v.flights[f].Finished?
             && Resetter(v, g, o.otpHash, code) && v.flights[g].Finished? && v.now <= o.expiresAt
    ensures var v := Run(cfg, w, actions); v.flights[f] == Finished(Done) && v.flights[g] == Finished(Done)
  {
    var k :| 0 <= k <= |actions| && BothHold(Run(cfg, w, actions[..k]), f, g, o.otpHash);
    HolderSucceeds(cfg, w, actions, k, f, o, code);
    HolderSucceeds(cfg, w, actions, k, g, o, code);
  }

  lemma UnreadIsTracked(w: World, f: int, o: Otp, code: string)
    requires Recorded(w) && CodeRows(w.db, o) && NotYetRead(w, f, o.otpHash)
    ensures ResetInv(w, f, o, code)
  {
  }

  /** The exact condition, over every interleaving of two resets with the right code whose own calls
      work and which end before the code expires: both succeed if and only if at some moment both hold it. */
  lemma BothSucceedIffTheyOverlap(cfg: Config, now: nat, earlier: seq<Action>, later: seq<Action>, f: int, g: int,
                                  o: Otp, code: string)
    requires f != g && NeverDraws(later, o.otpHash) && AllSmooth(later, f) && AllSmooth(later, g)
    requires o.purpose.ResetPassword? && Verify(o.code, code)
    requires var w := Run(cfg, Start(now), earlier);
             CodeRows(w.db, o) && NotYetRead(w, f, o.otpHash) && NotYetRead(w, g, o.otpHash)
    requires var v := Run(cfg, Run(cfg, Start(now), earlier), later);
             && Resetter(v, f, o.otpHash, code) && v.flights[f].Finished?
             && Resetter(v, g, o.otpHash, code) && v.flights[g].Finished? && v.now <= o.expiresAt
    ensures var w := Run(cfg, Start(now), earlier);
            var v := Run(cfg, w, later);
            (v.flights[f] == Finished(Done) && v.flights[g] == Finished(Done))
            <==> Overlap(cfg, w, later, f, g, o.otpHash)
  {
    var w := Run(cfg, Start(now), earlier);
    TokenSteps.Reachable(cfg, now, earlier);
    RunRecords(cfg, now, earlier);
    if Overlap(cfg, w, later, f, g, o.otpHash) {
      UnreadIsTracked(w, f, o, code);
      UnreadIsTracked(w, g, o, code);
      HoldersSucceed(cfg, w, later, f, g, o, code);
    } else {
      NotBothWithoutOverlap(cfg, w, later, f, g, o, code);
    }
  }

  lemma NotBothWithoutOverlap(cfg: Config, w: World, later: seq<Action>, f: int, g: int, o: Otp, code: string)
    requires f != g && NeverDraws(later, o.otpHash) && TokenInv(cfg, w) && Recorded(w) && CodeRows(w.db, o)
    requires NotYetRead(w, f, o.otpHash) && NotYetRead(w, g, o.otpHash) && !Overlap(cfg, w, later, f, g, o.otpHash)
    requires var v := Run(cfg, w, later); Resetter(v, f, o.otpHash, code) && Resetter(v, g, o.otpHash, code)
    ensures var v := Run(cfg, w, later); !(v.flights[f] == Finished(Done) && v.flights[g] == Finished(Done))
  {
    CodeRun(cfg, w, later, f, g, o);
  }
}
