/** Every operation that has a flight: alone, the flight ends within twenty steps, and as the atomic
    operation does. */
module Atomicity {
  import opened Domain
  import opened Granularity
  import F = Flights
  import I = Interleaving
  import O = Operations
  import R = Runs
  import Tables
  import Usernames

  // ---------------------------------------------------------------- how long a flight can take

  /** The most steps an account flight can still take. */
  function AccountRank(a: F.Account): nat {
    var naming := a.VerifyName? || a.ExchangeName?;
    var draws := if naming && a.tries < Usernames.MAX_TRIES then Usernames.MAX_TRIES - a.tries else 0;
    if a.SignupOtp? || a.ForgotOtp? || a.ResetRetire? || a.DeleteRow? then 1
    else if a.SignupClock? || a.ForgotClock? || a.ResetUpdate? || a.DeleteStart? then 2
    else if a.SignupCreate? || a.ForgotRetire? || a.ResetClock? then 3
    else if a.SignupStart? || a.ForgotStart? || a.ResetStart? then 4
    else if a.VerifyRetire? || a.ExchangeLink? || a.LoginTouch? || a.ExchangeTouch? then 5
    else if a.VerifyUpdate? || a.ExchangeCreate? || a.LoginStart? then 6
    else if a.VerifyName? || a.ExchangeName? then 7 + draws
    else if a.VerifyClock? || a.ExchangeEmail? then 18
    else if a.VerifyUser? || a.ExchangeStart? then 19
    else 20
  }

  function TokenRank(t: F.Token): nat {
    if t.SetSecond? || t.ValidateUser? then 1
    else if t.SetFirst? || t.ValidateRow? then 2
    else if t.OpenInsert? || t.ValidateStart? then 3
    else if t.Open? then 4
    else if t.Drop? then if t.pass < 3 then 6 - t.pass else 3
    else if t.RefreshUpdate? || t.LogoutRetire? then 7
    else if t.RefreshRenew? || t.LogoutClock? then 8
    else if t.RefreshClock? || t.LogoutStart? then 9
    else 10
  }

  function Rank(fl: F.Flight): nat {
    if fl.OfAccount? then AccountRank(fl.account) else if fl.OfToken? then TokenRank(fl.token) else 0
  }

  const MOST_STEPS: nat := 20

  lemma RankIsBounded(fl: F.Flight)
    ensures Rank(fl) <= MOST_STEPS
  {
  }

  /** The flight has a token still to draw. */
  predicate WillDraw(fl: F.Flight) {
    || (fl.OfAccount? && (F.InVerify(fl.account) || F.InLogin(fl.account) || F.InExchange(fl.account)))
    || (fl.OfToken? && (fl.token.Open? || fl.token.RefreshStart? || fl.token.RefreshClock? || fl.token.RefreshRenew?))
  }

  predicate Closer(before: F.Flight, after: F.Flight) {
    Rank(after) < Rank(before) && (WillDraw(after) ==> WillDraw(before))
  }

  lemma SignupCloser(db: Tables.Store, a: F.Account, now: Time, otpExpiry: Time, c: F.Choice)
    requires F.InSignup(a)
    ensures Closer(F.OfAccount(a), F.SignupStep(db, a, now, otpExpiry, c).1)
  {
  }

  lemma LoginCloser(db: Tables.Store, a: F.Account, now: Time, c: F.Choice)
    requires F.InLogin(a)
    ensures Closer(F.OfAccount(a), F.LoginStep(db, a, now, c).1)
  {
  }

  lemma NamingCloser(db: Tables.Store, email: string, tries: nat, c: F.Choice)
    ensures F.TryName(db, email, tries, c).Again? ==> tries + 1 < Usernames.MAX_TRIES
  {
  }

  lemma VerifyCloser(db: Tables.Store, a: F.Account, now: Time, c: F.Choice)
    requires F.InVerify(a)
    ensures Closer(F.OfAccount(a), F.VerifyStep(db, a, now, c).1)
  {
    if a.VerifyName? { NamingCloser(db, a.email, a.tries, c); }
  }

  lemma ExchangeCloser(db: Tables.Store, a: F.Account, now: Time, c: F.Choice)
    requires F.InExchange(a)
    ensures Closer(F.OfAccount(a), F.ExchangeStep(db, a, now, c).1)
  {
    if a.ExchangeName? { NamingCloser(db, a.email, a.tries, c); }
  }

  lemma PasswordCloser(db: Tables.Store, a: F.Account, now: Time, otpExpiry: Time, c: F.Choice)
    requires F.InPassword(a)
    ensures Closer(F.OfAccount(a), F.PasswordStep(db, a, now, otpExpiry, c).1)
  {
  }

  lemma DeleteCloser(db: Tables.Store, a: F.Account, c: F.Choice)
    requires F.InDelete(a)
    ensures Closer(F.OfAccount(a), F.DeleteStep(db, a, c).1)
  {
  }

  lemma AccountCloser(db: Tables.Store, a: F.Account, now: Time, otpExpiry: Time, c: F.Choice)
    ensures Closer(F.OfAccount(a), F.AccountStep(db, a, now, otpExpiry, c).1)
  {
    if F.InSignup(a) { SignupCloser(db, a, now, otpExpiry, c); }
    else if F.InLogin(a) { LoginCloser(db, a, now, c); }
    else if F.InDelete(a) { DeleteCloser(db, a, c); }
    else if F.InVerify(a) { VerifyCloser(db, a, now, c); }
    else if F.InExchange(a) { ExchangeCloser(db, a, now, c); }
    else { PasswordCloser(db, a, now, otpExpiry, c); }
  }

  /** The step brings the flight closer to its end, and no hash becomes known that it has yet to draw. */
  ghost predicate Nearer(w: I.World, v: I.World, f: int) {
    && f in w.flights && f in v.flights && Closer(w.flights[f], v.flights[f])
    && (WillDraw(v.flights[f]) ==> v.birth == w.birth && v.presented == w.presented)
  }

  lemma OpenNearer(cfg: I.Config, w: I.World, f: int, t: F.Token, c: F.Choice)
    requires f in w.flights && w.flights[f] == F.OfToken(t) && F.InOpen(t) && (t.Open? ==> I.Fresh(w, c.hash))
    ensures Nearer(w, I.OpenStep(cfg, w, f, t, c), f)
  {
  }

  lemma SetNearer(cfg: I.Config, w: I.World, f: int, t: F.Token, c: F.Choice)
    requires f in w.flights && w.flights[f] == F.OfToken(t) && F.InSet(t)
    ensures Nearer(w, I.SetStep(cfg, w, f, t, c), f)
  {
    I.SetLeads(cfg, w, f, t, c);
  }

  lemma AskNearer(w: I.World, f: int, h: TokenHash, c: F.Choice)
    requires f in w.flights && w.flights[f] == F.OfToken(F.ValidateStart(h))
    ensures Nearer(w, I.ValidateStep(w, f, F.ValidateStart(h), c), f)
  {
  }

  lemma LookNearer(w: I.World, f: int, t: F.Token, c: F.Choice)
    requires f in w.flights && w.flights[f] == F.OfToken(t) && (t.ValidateRow? || t.ValidateUser?)
    ensures Nearer(w, I.ValidateStep(w, f, t, c), f)
  {
  }

  lemma ValidateNearer(w: I.World, f: int, t: F.Token, c: F.Choice)
    requires f in w.flights && w.flights[f] == F.OfToken(t) && F.InValidate(t)
    ensures Nearer(w, I.ValidateStep(w, f, t, c), f)
  {
    if t.ValidateStart? { AskNearer(w, f, t.hash, c); } else { LookNearer(w, f, t, c); }
  }

  lemma ReadNearer(cfg: I.Config, w: I.World, f: int, h: TokenHash, c: F.Choice)
    requires f in w.flights && w.flights[f] == F.OfToken(F.RefreshStart(h))
    ensures Nearer(w, I.RefreshStep(cfg, w, f, F.RefreshStart(h), c), f)
  {
  }

  lemma ClockNearer(cfg: I.Config, w: I.World, f: int, h: TokenHash, s: Session, c: F.Choice)
    requires f in w.flights && w.flights[f] == F.OfToken(F.RefreshClock(h, s))
    ensures Nearer(w, I.RefreshStep(cfg, w, f, F.RefreshClock(h, s), c), f)
  {
  }

  lemma RenewNearer(cfg: I.Config, w: I.World, f: int, h: TokenHash, s: Session, c: F.Choice)
    requires f in w.flights && w.flights[f] == F.OfToken(F.RefreshRenew(h, s)) && I.Fresh(w, c.hash)
    ensures Nearer(w, I.RefreshStep(cfg, w, f, F.RefreshRenew(h, s), c), f)
  {
  }

  lemma UpdateNearer(cfg: I.Config, w: I.World, f: int, h: TokenHash, s: Session, c: F.Choice)
    requires f in w.flights && w.flights[f] == F.OfToken(F.RefreshUpdate(h, s))
    ensures Nearer(w, I.RefreshStep(cfg, w, f, F.RefreshUpdate(h, s), c), f)
  {
  }

  lemma RefreshNearer(cfg: I.Config, w: I.World, f: int, t: F.Token, c: F.Choice)
    requires f in w.flights && w.flights[f] == F.OfToken(t) && F.InRefresh(t)
    requires t.RefreshRenew? ==> I.Fresh(w, c.hash)
    ensures Nearer(w, I.RefreshStep(cfg, w, f, t, c), f)
  {
    if t.RefreshStart? { ReadNearer(cfg, w, f, t.hash, c); }
    else if t.RefreshClock? { ClockNearer(cfg, w, f, t.hash, t.s, c); }
    else if t.RefreshRenew? { RenewNearer(cfg, w, f, t.hash, t.s, c); }
    else { UpdateNearer(cfg, w, f, t.hash, t.s, c); }
  }

  lemma LogoutReadNearer(w: I.World, f: int, h: TokenHash, c: F.Choice)
    requires f in w.flights && w.flights[f] == F.OfToken(F.LogoutStart(h))
    ensures Nearer(w, I.LogoutStep(w, f, F.LogoutStart(h), c), f)
  {
  }

  lemma LogoutClockNearer(w: I.World, f: int, h: TokenHash, s: Session, c: F.Choice)
    requires f in w.flights && w.flights[f] == F.OfToken(F.LogoutClock(h, s))
    ensures Nearer(w, I.LogoutStep(w, f, F.LogoutClock(h, s), c), f)
  {
  }

  lemma LogoutRetireNearer(w: I.World, f: int, h: TokenHash, id: int, c: F.Choice)
    requires f in w.flights && w.flights[f] == F.OfToken(F.LogoutRetire(h, id))
    ensures Nearer(w, I.LogoutStep(w, f, F.LogoutRetire(h, id), c), f)
  {
  }

  lemma LogoutNearer(w: I.World, f: int, t: F.Token, c: F.Choice)
    requires f in w.flights && w.flights[f] == F.OfToken(t) && F.InLogout(t)
    ensures Nearer(w, I.LogoutStep(w, f, t, c), f)
  {
    if t.LogoutStart? { LogoutReadNearer(w, f, t.hash, c); }
    else if t.LogoutClock? { LogoutClockNearer(w, f, t.hash, t.s, c); }
    else { LogoutRetireNearer(w, f, t.hash, t.id, c); }
  }

  lemma DropNearer(w: I.World, f: int, t: F.Token, c: F.Choice)
    requires f in w.flights && w.flights[f] == F.OfToken(t) && t.Drop?
    ensures Nearer(w, I.DropStep(w, f, t, c), f)
  {
    I.DropLeads(w, f, t, c);
  }

  lemma TokenNearer(cfg: I.Config, w: I.World, f: int, t: F.Token, c: F.Choice)
    requires f in w.flights && w.flights[f] == F.OfToken(t) && (WillDraw(w.flights[f]) ==> I.Fresh(w, c.hash))
    ensures Nearer(w, I.TokenStep(cfg, w, f, t, c), f)
  {
    I.StepOf(cfg, w, f, t, c);
    if F.InOpen(t) { OpenNearer(cfg, w, f, t, c); }
    else if F.InSet(t) { SetNearer(cfg, w, f, t, c); }
    else if F.InValidate(t) { ValidateNearer(w, f, t, c); }
    else if F.InRefresh(t) { RefreshNearer(cfg, w, f, t, c); }
    else if F.InLogout(t) { LogoutNearer(w, f, t, c); }
    else { DropNearer(w, f, t, c); }
  }

  lemma AdvanceNearer(step: Stepper, cfg: O.Config, w: I.World, f: int, c: F.Choice)
    requires Advances(step, cfg, f) && f in w.flights && !w.flights[f].Finished?
    requires WillDraw(w.flights[f]) ==> I.Fresh(w, c.hash)
    ensures Nearer(w, step(w, c), f)
  {
    var fl := w.flights[f];
    assert step(w, c) == I.AdvanceStep(Fine(cfg), w, f, c);
    if fl.OfAccount? { AccountCloser(w.db, fl.account, w.now, cfg.otpExpiry, c); }
    else { TokenNearer(Fine(cfg), w, f, fl.token, c); }
  }

  lemma {:induction false} SoloNearer(step: Stepper, cfg: O.Config, w: I.World, f: int, h: TokenHash, cs: seq<F.Choice>)
    requires Advances(step, cfg, f) && f in w.flights && (forall k :: 0 <= k < |cs| ==> cs[k].hash == h)
    requires WillDraw(w.flights[f]) ==> I.Fresh(w, h)
    ensures var v := Solo(step, w, cs);
            && f in v.flights && (v.flights[f].Finished? || Rank(v.flights[f]) + |cs| <= Rank(w.flights[f]))
            && (WillDraw(v.flights[f]) ==> I.Fresh(v, h))
  {
    if cs != [] {
      var n := |cs| - 1;
      SoloNearer(step, cfg, w, f, h, cs[..n]);
      var v := Solo(step, w, cs[..n]);
      if v.flights[f].Finished? { EndedStays(step, cfg, f, v, cs[n]); } else { AdvanceNearer(step, cfg, v, f, cs[n]); }
    }
  }

  // ---------------------------------------------------------------- all operations

  /** GetUser and the eviction of an entry are one call each, the cleanup worker is an action of its own. */
  predicate HasFlight(op: R.Op) {
    !op.GetUser? && !op.Cleanup? && !op.Evict?
  }

  predicate OnToken(op: R.Op) {
    op.Validate? || op.Refresh? || op.Logout?
  }

  /** The flight of an operation on a token. An empty token is answered before any call is made. */
  function TokenStart(secret: string, now: Time, op: R.Op): F.Flight
    requires OnToken(op)
  {
    var h := HashToken(op.token, secret);
    if op.token == "" then if op.Validate? then F.Finished(F.Validated(h, None, now)) else F.FAILED
    else F.OfToken(if op.Validate? then F.ValidateStart(h) else if op.Refresh? then F.RefreshStart(h)
                   else F.LogoutStart(h))
  }

  function AccountStart(op: R.Op): F.Flight
    requires HasFlight(op) && !OnToken(op)
  {
    F.OfAccount(
      if op.Signup? then F.SignupStart(op.email, op.password)
      else if op.VerifyOtp? then F.VerifyStart(op.otpHash, op.code)
      else if op.Login? then F.LoginStart(op.email, op.password)
      else if op.Exchange? then F.ExchangeStart(op.key, op.email)
      else if op.Forgot? then F.ForgotStart(op.email)
      else if op.Reset? then F.ResetStart(op.otpHash, op.code, op.password)
      else F.DeleteStart(op.uid))
  }

  /** The flight a client begins for an operation. */
  function StartOf(secret: string, now: Time, op: R.Op): F.Flight
    requires HasFlight(op)
  {
    if OnToken(op) then TokenStart(secret, now, op) else AccountStart(op)
  }

  /** The environment, with the username draws that the choices hold for the operation. */
  function DrawingFrom(env: O.Env, op: R.Op, cs: seq<F.Choice>): O.Env {
    env.(draws := if op.VerifyOtp? then DrawsFrom(cs, VERIFY_DRAWS)
                  else if op.Exchange? then DrawsFrom(cs, EXCHANGE_DRAWS) else [])
  }

  /** Advancing flight f. */
  ghost function Alone(cfg: O.Config, f: int): Stepper {
    (w, c) => I.AdvanceStep(Fine(cfg), w, f, c)
  }

  /** A flight stands at the start of the operation, under this environment. */
  ghost predicate Begun(cfg: O.Config, env: O.Env, w: I.World, f: int, op: R.Op, cs: seq<F.Choice>)
    requires HasFlight(op)
  {
    && f in w.flights && w.flights[f] == StartOf(cfg.secret, env.now, op) && w.now == env.now
    && I.Fresh(w, HashToken(env.token, cfg.secret))
    && forall k :: 0 <= k < |cs| ==> Under(cfg, env, cs[k])
  }

  /** Twenty choices are enough for any flight to end. */
  lemma FlightAloneEnds(cfg: O.Config, env: O.Env, w: I.World, f: int, op: R.Op, cs: seq<F.Choice>)
    requires HasFlight(op) && Begun(cfg, env, w, f, op, cs) && MOST_STEPS <= |cs|
    ensures Ended(Solo(Alone(cfg, f), w, cs), f)
  {
    SoloNearer(Alone(cfg, f), cfg, w, f, HashToken(env.token, cfg.secret), cs);
    RankIsBounded(w.flights[f]);
    var v := Solo(Alone(cfg, f), w, cs);
    if !v.flights[f].Finished? { RankIsPositive(v.flights[f]); }
  }

  lemma RankIsPositive(fl: F.Flight)
    requires !fl.Finished?
    ensures 0 < Rank(fl)
  {
  }

  lemma EmptyTokenAlone(r: Trip, sys: R.Service, op: R.Op)
    requires Leads(r, 0, r.start) && OnToken(op) && op.token == "" && r.cfg == sys.config
    requires At(r, r.start, TokenStart(r.cfg.secret, r.env.now, op))
    ensures var (s, response) := sys.step(View(r.start), R.Call(op, r.env)); EndsWith(r, s, response)
  {
    R.StepIs(sys, View(r.start), R.Call(op, r.env));
    var (s, response) := sys.step(View(r.start), R.Call(op, r.env));
    EndIs(r, 0, r.start, s, response);
  }

  lemma TokenCallAlone(r: Trip, sys: R.Service, op: R.Op)
    requires Leads(r, 0, r.start) && OnToken(op) && op.token != "" && r.cfg == sys.config
    requires At(r, r.start, TokenStart(r.cfg.secret, r.env.now, op))
    requires I.Fresh(r.start, HashToken(r.env.token, r.cfg.secret))
    ensures var (s, response) := sys.step(View(r.start), R.Call(op, r.env)); EndsWith(r, s, response)
  {
    R.StepIs(sys, View(r.start), R.Call(op, r.env));
    if op.Validate? { ValidateAlone(r, op.token); }
    else if op.Refresh? { RefreshAlone(r, op.token); }
    else { LogoutAlone(r, op.token); }
  }

  lemma AdmissionAlone(r: Trip, sys: R.Service, op: R.Op)
    requires Leads(r, 0, r.start) && (op.VerifyOtp? || op.Login? || op.Exchange?) && r.cfg == sys.config
    requires At(r, r.start, AccountStart(op)) && I.Fresh(r.start, HashToken(r.env.token, r.cfg.secret))
    requires r.env == DrawingFrom(r.env, op, r.cs)
    ensures var (s, response) := sys.step(View(r.start), R.Call(op, r.env)); EndsWith(r, s, response)
  {
    R.StepIs(sys, View(r.start), R.Call(op, r.env));
    if op.VerifyOtp? { VerifyAlone(r, op.otpHash, op.code); }
    else if op.Login? { LoginAlone(r, op.email, op.password); }
    else { ExchangeAlone(r, op.key, op.email); }
  }

  lemma AccountCallAlone(r: Trip, sys: R.Service, op: R.Op)
    requires Leads(r, 0, r.start) && r.cfg == sys.config && (op.Signup? || op.Forgot? || op.Reset? || op.Delete?)
    requires At(r, r.start, AccountStart(op))
    ensures var (s, response) := sys.step(View(r.start), R.Call(op, r.env)); EndsWith(r, s, response)
  {
    R.StepIs(sys, View(r.start), R.Call(op, r.env));
    if op.Signup? { SignupAlone(r, op.email, op.password); }
    else if op.Forgot? { ForgotAlone(r, op.email); }
    else if op.Reset? { ResetAlone(r, op.otpHash, op.code, op.password); }
    else { DeleteAlone(r, op.uid); }
  }

  /** Whatever the environment makes fail, and however the choices fall: once the flight of an
      operation has run to its end with nothing in between, the tables and the cache are, and it has
      answered, what the atomic operation gives on the username draws among those choices. */
  lemma FlightAloneIsAtomic(sys: R.Service, env: O.Env, w: I.World, f: int, op: R.Op, cs: seq<F.Choice>)
    requires HasFlight(op) && Begun(sys.config, env, w, f, op, cs)
    requires Ended(Solo(Alone(sys.config, f), w, cs), f)
    ensures var v := Solo(Alone(sys.config, f), w, cs);
            var (s, response) := sys.step(View(w), R.Call(op, DrawingFrom(env, op, cs)));
            View(v) == s && Agree(sys.config, v, f, response)
  {
    var r := Trip(Alone(sys.config, f), sys.config, DrawingFrom(env, op, cs), f, w, cs);
    LeadsFromStart(r);
    if OnToken(op) {
      if op.token == "" { EmptyTokenAlone(r, sys, op); } else { TokenCallAlone(r, sys, op); }
    }
    else if op.VerifyOtp? || op.Login? || op.Exchange? { AdmissionAlone(r, sys, op); }
    else { AccountCallAlone(r, sys, op); }
  }
}
