/** The two granularities agree: however the choices fall, a flight that runs alone, one call at a
    time, does to the tables, to memcached and to its caller what the atomic operation does. */
module Granularity {
  import opened Domain
  import opened Tables
  import opened CacheStates
  import F = Flights
  import I = Interleaving
  import O = Operations
  import Usernames

  // ---------------------------------------------------------------- a flight alone

  function Fine(cfg: O.Config): I.Config {
    I.Config(cfg.ttl, cfg.otpExpiry)
  }

  /** The choice gives the flight what the environment gives the atomic operation; the username
      draws, and the failures of their lookups, are free. */
  ghost predicate Under(cfg: O.Config, env: O.Env, c: F.Choice) {
    && c.hash == HashToken(env.token, cfg.secret) && c.otpHash == env.otpHash && c.code == env.code
    && forall site {:trigger site in c.faults} {:trigger site in env.faults} ::
         site != ExistsUsername ==> (site in c.faults <==> site in env.faults)
  }

  /** The choice that also takes the username lookup from the environment. */
  function Plain(cfg: O.Config, env: O.Env): F.Choice {
    F.Choice(env.faults, HashToken(env.token, cfg.secret), env.otpHash, env.code, None)
  }

  /** How a flight moves on by itself, given the choices for a step. */
  type Stepper = (I.World, F.Choice) -> I.World

  ghost predicate Advances(step: Stepper, cfg: O.Config, f: int) {
    forall w, c {:trigger I.AdvanceStep(Fine(cfg), w, f, c)} :: step(w, c) == I.AdvanceStep(Fine(cfg), w, f, c)
  }

  /** One step per choice, and nothing else happens. */
  function Solo(step: Stepper, w: I.World, cs: seq<F.Choice>): I.World {
    if cs == [] then w else step(Solo(step, w, cs[..|cs| - 1]), cs[|cs| - 1])
  }

  predicate Ended(w: I.World, f: int) {
    f in w.flights && w.flights[f].Finished?
  }

  /** Flight f, from the world `start`, with these choices and nothing in between. */
  datatype Trip = Trip(step: Stepper, cfg: O.Config, env: O.Env, f: int, start: I.World, cs: seq<F.Choice>)

  ghost predicate Governed(r: Trip) {
    Advances(r.step, r.cfg, r.f) && forall k :: 0 <= k < |r.cs| ==> Under(r.cfg, r.env, r.cs[k])
  }

  function Final(r: Trip): I.World {
    Solo(r.step, r.start, r.cs)
  }

  /** The trip comes to its end, and after k steps stands in the world w. */
  ghost predicate Leads(r: Trip, k: nat, w: I.World) {
    Governed(r) && Ended(Final(r), r.f) && k <= |r.cs| && Solo(r.step, r.start, r.cs[..k]) == w
  }

  /** The flight stands at this point, at the time of the environment. */
  ghost predicate At(r: Trip, w: I.World, flight: F.Flight) {
    r.f in w.flights && w.flights[r.f] == flight && w.now == r.env.now
  }

  function View(w: I.World): O.State {
    O.State(w.db, OfMemcached(w.items))
  }

  lemma LeadsFromStart(r: Trip)
    requires Governed(r) && Ended(Final(r), r.f)
    ensures Leads(r, 0, r.start)
  {
    assert r.cs[..0] == [];
  }

  /** A trip that has not ended has a next choice, and takes the step. */
  lemma Goes(r: Trip, k: nat, w: I.World)
    requires Leads(r, k, w) && !Ended(w, r.f)
    ensures k < |r.cs| && Under(r.cfg, r.env, r.cs[k]) && Leads(r, k + 1, r.step(w, r.cs[k]))
  {
    assert r.cs[..|r.cs|] == r.cs;
    assert r.cs[..k + 1][..k] == r.cs[..k];
  }

  lemma EndedStays(step: Stepper, cfg: O.Config, f: int, w: I.World, c: F.Choice)
    requires Advances(step, cfg, f) && Ended(w, f)
    ensures step(w, c) == w
  {
    assert step(w, c) == I.AdvanceStep(Fine(cfg), w, f, c);
  }

  /** Where a trip stands when its flight has ended is where it ends. */
  lemma {:induction false} LeadsToEnd(r: Trip, k: nat, w: I.World)
    requires Leads(r, k, w) && Ended(w, r.f)
    ensures Final(r) == w
    decreases |r.cs| - k
  {
    if k == |r.cs| {
      assert r.cs[..k] == r.cs;
    } else {
      assert r.cs[..k + 1][..k] == r.cs[..k];
      EndedStays(r.step, r.cfg, r.f, w, r.cs[k]);
      LeadsToEnd(r, k + 1, w);
    }
  }

  // ---------------------------------------------------------------- one token step

  lemma TokenGoes(r: Trip, k: nat, w: I.World, t: F.Token)
    requires Leads(r, k, w) && At(r, w, F.OfToken(t))
    ensures k < |r.cs| && Under(r.cfg, r.env, r.cs[k])
    ensures Leads(r, k + 1, I.TokenStep(Fine(r.cfg), w, r.f, t, r.cs[k]))
  {
    Goes(r, k, w);
    assert r.step(w, r.cs[k]) == I.AdvanceStep(Fine(r.cfg), w, r.f, r.cs[k]);
  }

  lemma SetUnder(r: Trip, w: I.World, t: F.Token, c: F.Choice)
    requires Under(r.cfg, r.env, c) && F.InSet(t)
    ensures I.SetStep(Fine(r.cfg), w, r.f, t, c) == I.SetStep(Fine(r.cfg), w, r.f, t, Plain(r.cfg, r.env))
  {
  }

  lemma SetGoes(r: Trip, k: nat, w: I.World, t: F.Token)
    requires Leads(r, k, w) && At(r, w, F.OfToken(t)) && F.InSet(t)
    ensures Leads(r, k + 1, I.SetStep(Fine(r.cfg), w, r.f, t, Plain(r.cfg, r.env)))
  {
    TokenGoes(r, k, w, t);
    I.StepOf(Fine(r.cfg), w, r.f, t, r.cs[k]);
    SetUnder(r, w, t, r.cs[k]);
  }

  lemma GenerationUnder(r: Trip, w: I.World, uid: int, origin: F.Origin, c: F.Choice)
    requires Under(r.cfg, r.env, c)
    ensures I.OpenStep(Fine(r.cfg), w, r.f, F.Open(uid, origin), c)
            == I.OpenStep(Fine(r.cfg), w, r.f, F.Open(uid, origin), Plain(r.cfg, r.env))
  {
  }

  lemma InsertionUnder(r: Trip, w: I.World, uid: int, origin: F.Origin, h: TokenHash, at: Time, c: F.Choice)
    requires Under(r.cfg, r.env, c)
    ensures I.OpenStep(Fine(r.cfg), w, r.f, F.OpenInsert(uid, origin, h, at), c)
            == I.OpenStep(Fine(r.cfg), w, r.f, F.OpenInsert(uid, origin, h, at), Plain(r.cfg, r.env))
  {
  }

  lemma OpenUnder(r: Trip, w: I.World, t: F.Token, c: F.Choice)
    requires Under(r.cfg, r.env, c) && F.InOpen(t)
    ensures I.OpenStep(Fine(r.cfg), w, r.f, t, c) == I.OpenStep(Fine(r.cfg), w, r.f, t, Plain(r.cfg, r.env))
  {
    if t.Open? { GenerationUnder(r, w, t.uid, t.origin, c); }
    else { InsertionUnder(r, w, t.uid, t.origin, t.hash, t.expiresAt, c); }
  }

  lemma OpenGoes(r: Trip, k: nat, w: I.World, t: F.Token)
    requires Leads(r, k, w) && At(r, w, F.OfToken(t)) && F.InOpen(t)
    ensures Leads(r, k + 1, I.OpenStep(Fine(r.cfg), w, r.f, t, Plain(r.cfg, r.env)))
  {
    TokenGoes(r, k, w, t);
    I.StepOf(Fine(r.cfg), w, r.f, t, r.cs[k]);
    OpenUnder(r, w, t, r.cs[k]);
  }

  lemma DropUnder(r: Trip, w: I.World, t: F.Token, c: F.Choice)
    requires Under(r.cfg, r.env, c) && t.Drop?
    ensures I.DropStep(w, r.f, t, c) == I.DropStep(w, r.f, t, Plain(r.cfg, r.env))
  {
    var site := I.DropTarget(t.hash, t.pass).1;
    assert site in c.faults <==> site in r.env.faults;
  }

  lemma DropGoes(r: Trip, k: nat, w: I.World, t: F.Token)
    requires Leads(r, k, w) && At(r, w, F.OfToken(t)) && t.Drop?
    ensures Leads(r, k + 1, I.DropStep(w, r.f, t, Plain(r.cfg, r.env)))
  {
    TokenGoes(r, k, w, t);
    I.StepOf(Fine(r.cfg), w, r.f, t, r.cs[k]);
    DropUnder(r, w, t, r.cs[k]);
  }

  lemma ValidateStartUnder(r: Trip, w: I.World, h: TokenHash, c: F.Choice)
    requires Under(r.cfg, r.env, c)
    ensures I.ValidateStep(w, r.f, F.ValidateStart(h), c)
            == I.ValidateStep(w, r.f, F.ValidateStart(h), Plain(r.cfg, r.env))
  {
  }

  lemma ValidateRowUnder(r: Trip, w: I.World, h: TokenHash, c: F.Choice)
    requires Under(r.cfg, r.env, c)
    ensures I.ValidateStep(w, r.f, F.ValidateRow(h), c) == I.ValidateStep(w, r.f, F.ValidateRow(h), Plain(r.cfg, r.env))
  {
  }

  lemma ValidateUserUnder(r: Trip, w: I.World, h: TokenHash, uid: int, at: Time, c: F.Choice)
    requires Under(r.cfg, r.env, c)
    ensures I.ValidateStep(w, r.f, F.ValidateUser(h, uid, at), c)
            == I.ValidateStep(w, r.f, F.ValidateUser(h, uid, at), Plain(r.cfg, r.env))
  {
  }

  lemma ValidateUnder(r: Trip, w: I.World, t: F.Token, c: F.Choice)
    requires Under(r.cfg, r.env, c) && F.InValidate(t)
    ensures I.ValidateStep(w, r.f, t, c) == I.ValidateStep(w, r.f, t, Plain(r.cfg, r.env))
  {
    if t.ValidateStart? { ValidateStartUnder(r, w, t.hash, c); }
    else if t.ValidateRow? { ValidateRowUnder(r, w, t.hash, c); }
    else { ValidateUserUnder(r, w, t.hash, t.uid, t.readAt, c); }
  }

  lemma ValidateGoes(r: Trip, k: nat, w: I.World, t: F.Token)
    requires Leads(r, k, w) && At(r, w, F.OfToken(t)) && F.InValidate(t)
    ensures Leads(r, k + 1, I.ValidateStep(w, r.f, t, Plain(r.cfg, r.env)))
  {
    TokenGoes(r, k, w, t);
    I.StepOf(Fine(r.cfg), w, r.f, t, r.cs[k]);
    ValidateUnder(r, w, t, r.cs[k]);
  }

  lemma RefreshStartUnder(r: Trip, w: I.World, h: TokenHash, c: F.Choice)
    requires Under(r.cfg, r.env, c)
    ensures I.RefreshStep(Fine(r.cfg), w, r.f, F.RefreshStart(h), c)
            == I.RefreshStep(Fine(r.cfg), w, r.f, F.RefreshStart(h), Plain(r.cfg, r.env))
  {
  }

  lemma RefreshClockUnder(r: Trip, w: I.World, h: TokenHash, s: Session, c: F.Choice)
    requires Under(r.cfg, r.env, c)
    ensures I.RefreshStep(Fine(r.cfg), w, r.f, F.RefreshClock(h, s), c)
            == I.RefreshStep(Fine(r.cfg), w, r.f, F.RefreshClock(h, s), Plain(r.cfg, r.env))
  {
  }

  lemma RefreshRenewUnder(r: Trip, w: I.World, h: TokenHash, s: Session, c: F.Choice)
    requires Under(r.cfg, r.env, c)
    ensures I.RefreshStep(Fine(r.cfg), w, r.f, F.RefreshRenew(h, s), c)
            == I.RefreshStep(Fine(r.cfg), w, r.f, F.RefreshRenew(h, s), Plain(r.cfg, r.env))
  {
  }

  lemma RefreshUpdateUnder(r: Trip, w: I.World, h: TokenHash, s: Session, c: F.Choice)
    requires Under(r.cfg, r.env, c)
    ensures I.RefreshStep(Fine(r.cfg), w, r.f, F.RefreshUpdate(h, s), c)
            == I.RefreshStep(Fine(r.cfg), w, r.f, F.RefreshUpdate(h, s), Plain(r.cfg, r.env))
  {
    assert F.Fails(c, UpdateSession) == F.Fails(Plain(r.cfg, r.env), UpdateSession);
  }

  lemma RefreshUnder(r: Trip, w: I.World, t: F.Token, c: F.Choice)
    requires Under(r.cfg, r.env, c) && F.InRefresh(t)
    ensures I.RefreshStep(Fine(r.cfg), w, r.f, t, c) == I.RefreshStep(Fine(r.cfg), w, r.f, t, Plain(r.cfg, r.env))
  {
    if t.RefreshStart? { RefreshStartUnder(r, w, t.hash, c); }
    else if t.RefreshClock? { RefreshClockUnder(r, w, t.hash, t.s, c); }
    else if t.RefreshRenew? { RefreshRenewUnder(r, w, t.hash, t.s, c); }
    else { RefreshUpdateUnder(r, w, t.hash, t.s, c); }
  }

  lemma RefreshGoes(r: Trip, k: nat, w: I.World, t: F.Token)
    requires Leads(r, k, w) && At(r, w, F.OfToken(t)) && F.InRefresh(t)
    ensures Leads(r, k + 1, I.RefreshStep(Fine(r.cfg), w, r.f, t, Plain(r.cfg, r.env)))
  {
    TokenGoes(r, k, w, t);
    I.StepOf(Fine(r.cfg), w, r.f, t, r.cs[k]);
    RefreshUnder(r, w, t, r.cs[k]);
  }

  lemma LogoutUnder(r: Trip, w: I.World, t: F.Token, c: F.Choice)
    requires Under(r.cfg, r.env, c) && F.InLogout(t)
    ensures I.LogoutStep(w, r.f, t, c) == I.LogoutStep(w, r.f, t, Plain(r.cfg, r.env))
  {
  }

  lemma LogoutGoes(r: Trip, k: nat, w: I.World, t: F.Token)
    requires Leads(r, k, w) && At(r, w, F.OfToken(t)) && F.InLogout(t)
    ensures Leads(r, k + 1, I.LogoutStep(w, r.f, t, Plain(r.cfg, r.env)))
  {
    TokenGoes(r, k, w, t);
    I.StepOf(Fine(r.cfg), w, r.f, t, r.cs[k]);
    LogoutUnder(r, w, t, r.cs[k]);
  }

  // ---------------------------------------------------------------- one account step

  ghost predicate SameBesides(w: I.World, v: I.World) {
    v.items == w.items && v.birth == w.birth && v.presented == w.presented
  }

  /** After one more step the tables and the place of the flight are these, and the rest is as it was. */
  ghost predicate NextIs(r: Trip, k: nat, w: I.World, v: I.World, next: (Store, F.Flight)) {
    Leads(r, k + 1, v) && At(r, v, next.1) && v.db == next.0 && SameBesides(w, v)
  }

  lemma AccountGoes(r: Trip, k: nat, w: I.World, a: F.Account) returns (v: I.World)
    requires Leads(r, k, w) && At(r, w, F.OfAccount(a))
    ensures k < |r.cs| && Under(r.cfg, r.env, r.cs[k])
    ensures NextIs(r, k, w, v, F.AccountStep(w.db, a, r.env.now, r.cfg.otpExpiry, r.cs[k]))
  {
    Goes(r, k, w);
    v := r.step(w, r.cs[k]);
    assert v == I.AdvanceStep(Fine(r.cfg), w, r.f, r.cs[k]);
  }

  lemma SignupStepOf(db: Store, a: F.Account, now: Time, otpExpiry: Time, c: F.Choice)
    requires F.InSignup(a)
    ensures F.AccountStep(db, a, now, otpExpiry, c) == F.SignupStep(db, a, now, otpExpiry, c)
  {
  }

  lemma VerifyStepOf(db: Store, a: F.Account, now: Time, otpExpiry: Time, c: F.Choice)
    requires F.InVerify(a)
    ensures F.AccountStep(db, a, now, otpExpiry, c) == F.VerifyStep(db, a, now, c)
  {
  }

  lemma LoginStepOf(db: Store, a: F.Account, now: Time, otpExpiry: Time, c: F.Choice)
    requires F.InLogin(a)
    ensures F.AccountStep(db, a, now, otpExpiry, c) == F.LoginStep(db, a, now, c)
  {
  }

  lemma ExchangeStepOf(db: Store, a: F.Account, now: Time, otpExpiry: Time, c: F.Choice)
    requires F.InExchange(a)
    ensures F.AccountStep(db, a, now, otpExpiry, c) == F.ExchangeStep(db, a, now, c)
  {
  }

  lemma PasswordStepOf(db: Store, a: F.Account, now: Time, otpExpiry: Time, c: F.Choice)
    requires F.InPassword(a)
    ensures F.AccountStep(db, a, now, otpExpiry, c) == F.PasswordStep(db, a, now, otpExpiry, c)
  {
  }

  lemma DeleteStepOf(db: Store, a: F.Account, now: Time, otpExpiry: Time, c: F.Choice)
    requires F.InDelete(a)
    ensures F.AccountStep(db, a, now, otpExpiry, c) == F.DeleteStep(db, a, c)
  {
  }

  lemma SignupUnder(cfg: O.Config, env: O.Env, db: Store, a: F.Account, c: F.Choice)
    requires Under(cfg, env, c) && F.InSignup(a)
    ensures F.SignupStep(db, a, env.now, cfg.otpExpiry, c)
            == F.SignupStep(db, a, env.now, cfg.otpExpiry, Plain(cfg, env))
  {
  }

  lemma SignupGoes(r: Trip, k: nat, w: I.World, a: F.Account) returns (v: I.World)
    requires Leads(r, k, w) && At(r, w, F.OfAccount(a)) && F.InSignup(a)
    ensures NextIs(r, k, w, v, F.SignupStep(w.db, a, r.env.now, r.cfg.otpExpiry, Plain(r.cfg, r.env)))
  {
    v := AccountGoes(r, k, w, a);
    SignupStepOf(w.db, a, r.env.now, r.cfg.otpExpiry, r.cs[k]);
    SignupUnder(r.cfg, r.env, w.db, a, r.cs[k]);
  }

  lemma VerifyUnder(cfg: O.Config, env: O.Env, db: Store, a: F.Account, c: F.Choice)
    requires Under(cfg, env, c) && F.InVerify(a) && !a.VerifyName?
    ensures F.VerifyStep(db, a, env.now, c) == F.VerifyStep(db, a, env.now, Plain(cfg, env))
  {
  }

  lemma VerifyGoes(r: Trip, k: nat, w: I.World, a: F.Account) returns (v: I.World)
    requires Leads(r, k, w) && At(r, w, F.OfAccount(a)) && F.InVerify(a) && !a.VerifyName?
    ensures NextIs(r, k, w, v, F.VerifyStep(w.db, a, r.env.now, Plain(r.cfg, r.env)))
  {
    v := AccountGoes(r, k, w, a);
    VerifyStepOf(w.db, a, r.env.now, r.cfg.otpExpiry, r.cs[k]);
    VerifyUnder(r.cfg, r.env, w.db, a, r.cs[k]);
  }

  lemma VerifyNameGoes(r: Trip, k: nat, w: I.World, otp: Otp, email: string, tries: nat) returns (v: I.World)
    requires Leads(r, k, w) && At(r, w, F.OfAccount(F.VerifyName(otp, email, tries)))
    ensures k < |r.cs|
    ensures NextIs(r, k, w, v, (w.db, match F.TryName(w.db, email, tries, r.cs[k])
                                      case Use(name) => F.OfAccount(F.VerifyUpdate(otp, name))
                                      case GiveUp => F.FAILED
                                      case Again => F.OfAccount(F.VerifyName(otp, email, tries + 1))))
  {
    v := AccountGoes(r, k, w, F.VerifyName(otp, email, tries));
    VerifyStepOf(w.db, F.VerifyName(otp, email, tries), r.env.now, r.cfg.otpExpiry, r.cs[k]);
  }

  lemma LoginUnder(cfg: O.Config, env: O.Env, db: Store, a: F.Account, c: F.Choice)
    requires Under(cfg, env, c) && F.InLogin(a)
    ensures F.LoginStep(db, a, env.now, c) == F.LoginStep(db, a, env.now, Plain(cfg, env))
  {
  }

  lemma LoginGoes(r: Trip, k: nat, w: I.World, a: F.Account) returns (v: I.World)
    requires Leads(r, k, w) && At(r, w, F.OfAccount(a)) && F.InLogin(a)
    ensures NextIs(r, k, w, v, F.LoginStep(w.db, a, r.env.now, Plain(r.cfg, r.env)))
  {
    v := AccountGoes(r, k, w, a);
    LoginStepOf(w.db, a, r.env.now, r.cfg.otpExpiry, r.cs[k]);
    LoginUnder(r.cfg, r.env, w.db, a, r.cs[k]);
  }

  lemma ExchangeUnder(cfg: O.Config, env: O.Env, db: Store, a: F.Account, c: F.Choice)
    requires Under(cfg, env, c) && F.InExchange(a) && !a.ExchangeName?
    ensures F.ExchangeStep(db, a, env.now, c) == F.ExchangeStep(db, a, env.now, Plain(cfg, env))
  {
  }

  lemma ExchangeGoes(r: Trip, k: nat, w: I.World, a: F.Account) returns (v: I.World)
    requires Leads(r, k, w) && At(r, w, F.OfAccount(a)) && F.InExchange(a) && !a.ExchangeName?
    ensures NextIs(r, k, w, v, F.ExchangeStep(w.db, a, r.env.now, Plain(r.cfg, r.env)))
  {
    v := AccountGoes(r, k, w, a);
    ExchangeStepOf(w.db, a, r.env.now, r.cfg.otpExpiry, r.cs[k]);
    ExchangeUnder(r.cfg, r.env, w.db, a, r.cs[k]);
  }

  lemma ExchangeNameGoes(r: Trip, k: nat, w: I.World, key: LinkKey, email: string, tries: nat) returns (v: I.World)
    requires Leads(r, k, w) && At(r, w, F.OfAccount(F.ExchangeName(key, email, tries)))
    ensures k < |r.cs|
    ensures NextIs(r, k, w, v, (w.db, match F.TryName(w.db, email, tries, r.cs[k])
                                      case Use(name) => F.OfAccount(F.ExchangeCreate(key, email, name))
                                      case GiveUp => F.FAILED
                                      case Again => F.OfAccount(F.ExchangeName(key, email, tries + 1))))
  {
    v := AccountGoes(r, k, w, F.ExchangeName(key, email, tries));
    ExchangeStepOf(w.db, F.ExchangeName(key, email, tries), r.env.now, r.cfg.otpExpiry, r.cs[k]);
  }

  lemma PasswordUnder(cfg: O.Config, env: O.Env, db: Store, a: F.Account, c: F.Choice)
    requires Under(cfg, env, c) && F.InPassword(a)
    ensures F.PasswordStep(db, a, env.now, cfg.otpExpiry, c)
            == F.PasswordStep(db, a, env.now, cfg.otpExpiry, Plain(cfg, env))
  {
  }

  lemma PasswordGoes(r: Trip, k: nat, w: I.World, a: F.Account) returns (v: I.World)
    requires Leads(r, k, w) && At(r, w, F.OfAccount(a)) && F.InPassword(a)
    ensures NextIs(r, k, w, v, F.PasswordStep(w.db, a, r.env.now, r.cfg.otpExpiry, Plain(r.cfg, r.env)))
  {
    v := AccountGoes(r, k, w, a);
    PasswordStepOf(w.db, a, r.env.now, r.cfg.otpExpiry, r.cs[k]);
    PasswordUnder(r.cfg, r.env, w.db, a, r.cs[k]);
  }

  lemma DeleteUnder(cfg: O.Config, env: O.Env, db: Store, a: F.Account, c: F.Choice)
    requires Under(cfg, env, c) && F.InDelete(a)
    ensures F.DeleteStep(db, a, c) == F.DeleteStep(db, a, Plain(cfg, env))
  {
  }

  lemma DeleteGoes(r: Trip, k: nat, w: I.World, a: F.Account) returns (v: I.World)
    requires Leads(r, k, w) && At(r, w, F.OfAccount(a)) && F.InDelete(a)
    ensures NextIs(r, k, w, v, F.DeleteStep(w.db, a, Plain(r.cfg, r.env)))
  {
    v := AccountGoes(r, k, w, a);
    DeleteStepOf(w.db, a, r.env.now, r.cfg.otpExpiry, r.cs[k]);
    DeleteUnder(r.cfg, r.env, w.db, a, r.cs[k]);
  }

  // ---------------------------------------------------------------- the cache calls

  lemma SetSecondOf(r: Trip, w: I.World, s: Session, answer: F.Answer)
    requires At(r, w, F.OfToken(F.SetSecond(s, answer)))
    ensures var v := I.SetStep(Fine(r.cfg), w, r.f, F.SetSecond(s, answer), Plain(r.cfg, r.env));
            && At(r, v, F.Finished(answer)) && v.db == w.db
            && v.items == if CacheSetValidity in r.env.faults then w.items
                          else w.items[ValidityKey(s.tokenHash) :=
                                       Item(Validity(s.userId), EntryExpiry(r.env.now, r.cfg.ttl))]
  {
  }

  lemma SetSecondAlone(r: Trip, k: nat, w: I.World, s: Session, answer: F.Answer) returns (v: I.World)
    requires Leads(r, k, w) && At(r, w, F.OfToken(F.SetSecond(s, answer)))
    ensures Leads(r, k + 1, v) && At(r, v, F.Finished(answer)) && v.db == w.db
    ensures v.items == if CacheSetValidity in r.env.faults then w.items
                       else w.items[ValidityKey(s.tokenHash) :=
                                    Item(Validity(s.userId), EntryExpiry(r.env.now, r.cfg.ttl))]
  {
    SetGoes(r, k, w, F.SetSecond(s, answer));
    SetSecondOf(r, w, s, answer);
    v := I.SetStep(Fine(r.cfg), w, r.f, F.SetSecond(s, answer), Plain(r.cfg, r.env));
  }

  lemma SetFirstOf(r: Trip, w: I.World, s: Session, answer: F.Answer)
    requires At(r, w, F.OfToken(F.SetFirst(s, answer)))
    ensures var v := I.SetStep(Fine(r.cfg), w, r.f, F.SetFirst(s, answer), Plain(r.cfg, r.env));
            && v.db == w.db
            && At(r, v, if CacheSetSession in r.env.faults then F.Finished(answer)
                        else F.OfToken(F.SetSecond(s, answer)))
            && v.items == if CacheSetSession in r.env.faults then w.items
                          else w.items[SessionKey(s.tokenHash) :=
                                       Item(SessionJson(s), EntryExpiry(r.env.now, r.cfg.ttl))]
  {
  }

  lemma SetFirstAlone(r: Trip, k: nat, w: I.World, s: Session, answer: F.Answer) returns (v: I.World)
    requires Leads(r, k, w) && At(r, w, F.OfToken(F.SetFirst(s, answer)))
    ensures Leads(r, k + 1, v) && v.db == w.db
    ensures At(r, v, if CacheSetSession in r.env.faults then F.Finished(answer) else F.OfToken(F.SetSecond(s, answer)))
    ensures v.items == if CacheSetSession in r.env.faults then w.items
                       else w.items[SessionKey(s.tokenHash) := Item(SessionJson(s), EntryExpiry(r.env.now, r.cfg.ttl))]
  {
    SetGoes(r, k, w, F.SetFirst(s, answer));
    SetFirstOf(r, w, s, answer);
    v := I.SetStep(Fine(r.cfg), w, r.f, F.SetFirst(s, answer), Plain(r.cfg, r.env));
  }

  lemma SetAlone(r: Trip, k: nat, w: I.World, s: Session, answer: F.Answer) returns (n: nat, v: I.World)
    requires Leads(r, k, w) && At(r, w, F.OfToken(F.SetFirst(s, answer)))
    ensures Leads(r, n, v) && At(r, v, F.Finished(answer)) && v.db == w.db
    ensures OfMemcached(v.items) == Remember(OfMemcached(w.items), s.tokenHash, s, r.cfg.ttl, r.env.now, r.env.faults)
  {
    n := k + 1;
    v := SetFirstAlone(r, k, w, s, answer);
    if CacheSetSession !in r.env.faults {
      v := SetSecondAlone(r, n, v, s, answer);
      n := n + 1;
    }
  }

  /** Deletes `pass` to the last all work. */
  predicate Dropped(h: TokenHash, pass: nat, faults: set<CallSite>)
    requires pass < 4
    decreases 4 - pass
  {
    I.DropTarget(h, pass).1 !in faults && (pass == 3 || Dropped(h, pass + 1, faults))
  }

  /** Where the flight is after them. */
  function AfterDrops(h: TokenHash, pass: nat, renewed: Option<Session>, faults: set<CallSite>): F.Flight
    requires pass < 4
  {
    match renewed
    case Some(s) => F.OfToken(F.SetFirst(s, F.Refreshed(h, s.tokenHash, Dropped(h, pass, faults))))
    case None => F.Finished(F.LoggedOut(h, Dropped(h, pass, faults)))
  }

  /** The entries after them. */
  function ItemsAfterDrops(items: Items, h: TokenHash, pass: nat, faults: set<CallSite>): Items
    requires pass < 4
    decreases 4 - pass
  {
    var (key, site) := I.DropTarget(h, pass);
    if site in faults then items
    else if pass == 3 then items - {key}
    else ItemsAfterDrops(items - {key}, h, pass + 1, faults)
  }

  lemma DropStepOf(r: Trip, w: I.World, h: TokenHash, pass: nat, renewed: Option<Session>)
    requires pass < 4 && At(r, w, F.OfToken(F.Drop(h, pass, renewed)))
    ensures var v := I.DropStep(w, r.f, F.Drop(h, pass, renewed), Plain(r.cfg, r.env));
            var (key, site) := I.DropTarget(h, pass);
            && v.db == w.db && v.items == (if site in r.env.faults then w.items else w.items - {key})
            && At(r, v, if site !in r.env.faults && pass < 3 then F.OfToken(F.Drop(h, pass + 1, renewed))
                        else AfterDrops(h, pass, renewed, r.env.faults))
  {
    var (key, site) := I.DropTarget(h, pass);
    if site in r.env.faults || pass == 3 {
      assert Dropped(h, pass, r.env.faults) == (site !in r.env.faults);
      AfterDropOf(r, if site in r.env.faults then w else w.(items := w.items - {key}), h, pass, renewed);
    }
  }

  lemma AfterDropOf(r: Trip, w: I.World, h: TokenHash, pass: nat, renewed: Option<Session>)
    requires pass < 4 && r.f in w.flights && w.now == r.env.now
    ensures var v := I.AfterDrop(w, r.f, h, renewed, Dropped(h, pass, r.env.faults));
            At(r, v, AfterDrops(h, pass, renewed, r.env.faults)) && v.db == w.db && v.items == w.items
  {
  }

  lemma DropOnce(r: Trip, k: nat, w: I.World, h: TokenHash, pass: nat, renewed: Option<Session>) returns (v: I.World)
    requires pass < 4 && Leads(r, k, w) && At(r, w, F.OfToken(F.Drop(h, pass, renewed)))
    ensures var (key, site) := I.DropTarget(h, pass);
            && Leads(r, k + 1, v) && v.db == w.db
            && v.items == (if site in r.env.faults then w.items else w.items - {key})
            && At(r, v, if site !in r.env.faults && pass < 3 then F.OfToken(F.Drop(h, pass + 1, renewed))
                        else AfterDrops(h, pass, renewed, r.env.faults))
  {
    DropGoes(r, k, w, F.Drop(h, pass, renewed));
    DropStepOf(r, w, h, pass, renewed);
    v := I.DropStep(w, r.f, F.Drop(h, pass, renewed), Plain(r.cfg, r.env));
  }

  lemma {:induction false} DropAlone(r: Trip, k: nat, w: I.World, h: TokenHash, pass: nat, renewed: Option<Session>)
    returns (n: nat, v: I.World)
    requires pass < 4 && Leads(r, k, w) && At(r, w, F.OfToken(F.Drop(h, pass, renewed)))
    ensures Leads(r, n, v) && At(r, v, AfterDrops(h, pass, renewed, r.env.faults)) && v.db == w.db
    ensures v.items == ItemsAfterDrops(w.items, h, pass, r.env.faults)
    decreases 4 - pass
  {
    n := k + 1;
    v := DropOnce(r, k, w, h, pass, renewed);
    if DropsGoOn(h, pass, r.env.faults) {
      DropsNext(w.items, h, pass, renewed, r.env.faults);
      n, v := DropAlone(r, n, v, h, pass + 1, renewed);
    }
  }

  predicate DropsGoOn(h: TokenHash, pass: nat, faults: set<CallSite>) {
    pass < 3 && I.DropTarget(h, pass).1 !in faults
  }

  lemma DropsNext(items: Items, h: TokenHash, pass: nat, renewed: Option<Session>, faults: set<CallSite>)
    requires DropsGoOn(h, pass, faults)
    ensures AfterDrops(h, pass, renewed, faults) == AfterDrops(h, pass + 1, renewed, faults)
    ensures ItemsAfterDrops(items, h, pass, faults)
            == ItemsAfterDrops(items - {I.DropTarget(h, pass).0}, h, pass + 1, faults)
  {
  }

  /** The four deletes come to what Forget says. */
  lemma DropsForget(items: Items, h: TokenHash, faults: set<CallSite>)
    ensures OfMemcached(ItemsAfterDrops(items, h, 0, faults)) == Forget(OfMemcached(items), h, faults)
  {
    var k, l := SessionKey(h), ValidityKey(h);
    assert items - {k} - {l} == items - {k, l} == items - {k} - {l} - {k} == items - {k} - {l} - {k} - {l};
    assert I.DropTarget(h, 0) == (k, CacheDeleteSession) && I.DropTarget(h, 1) == (l, CacheDeleteValidity);
    assert ItemsAfterDrops(items - {k} - {l}, h, 2, faults) == items - {k, l};
  }

  // ---------------------------------------------------------------- operations on sessions

  /** What the flight of an operation ends with, against the response of the operation. */
  ghost predicate Agree(cfg: O.Config, v: I.World, f: int, r: O.Response) {
    && Ended(v, f)
    && var a := v.flights[f].answer;
       if r.Rejected? then a == F.Failed
       else if r.Verified? || r.LoggedIn? then a.Opened? && a.hash == HashToken(r.token, cfg.secret)
       else if r.Refreshed? then a.Refreshed? && a.hash == HashToken(r.token, cfg.secret)
       else if r.LoggedOut? then a.LoggedOut?
       else if r.Checked? then a.Validated? && a.owner == if r.owner.None? then None else Some(r.owner.value.userId)
       else a == F.Done
  }

  /** The trip ends with these tables and entries, and this response. */
  ghost predicate EndsWith(r: Trip, s: O.State, response: O.Response) {
    View(Final(r)) == s && Agree(r.cfg, Final(r), r.f, response)
  }

  lemma EndIs(r: Trip, k: nat, v: I.World, s: O.State, response: O.Response)
    requires Leads(r, k, v) && View(v) == s && Agree(r.cfg, v, r.f, response)
    ensures EndsWith(r, s, response)
  {
    LeadsToEnd(r, k, v);
  }

  /** Where createSession ends. */
  function Sessioned(r: Trip, uid: int, origin: F.Origin, expiresAt: Option<Time>): F.Flight {
    if expiresAt.Some? then F.Finished(F.Opened(HashToken(r.env.token, r.cfg.secret), uid, origin)) else F.FAILED
  }

  lemma OpenStepOf(r: Trip, w: I.World, uid: int, origin: F.Origin)
    requires At(r, w, F.OfToken(F.Open(uid, origin))) && I.Fresh(w, HashToken(r.env.token, r.cfg.secret))
    ensures var v := I.OpenStep(Fine(r.cfg), w, r.f, F.Open(uid, origin), Plain(r.cfg, r.env));
            && View(v) == View(w)
            && At(r, v, if Randomness in r.env.faults then F.FAILED
                        else F.OfToken(F.OpenInsert(uid, origin, HashToken(r.env.token, r.cfg.secret),
                                                    r.env.now + r.cfg.ttl)))
  {
  }

  lemma OpenOnce(r: Trip, k: nat, w: I.World, uid: int, origin: F.Origin) returns (v: I.World)
    requires Leads(r, k, w) && At(r, w, F.OfToken(F.Open(uid, origin)))
    requires I.Fresh(w, HashToken(r.env.token, r.cfg.secret))
    ensures Leads(r, k + 1, v) && View(v) == View(w)
    ensures At(r, v, if Randomness in r.env.faults then F.FAILED
                     else F.OfToken(F.OpenInsert(uid, origin, HashToken(r.env.token, r.cfg.secret),
                                                 r.env.now + r.cfg.ttl)))
  {
    OpenGoes(r, k, w, F.Open(uid, origin));
    OpenStepOf(r, w, uid, origin);
    v := I.OpenStep(Fine(r.cfg), w, r.f, F.Open(uid, origin), Plain(r.cfg, r.env));
  }

  lemma OpenAlone(r: Trip, k: nat, w: I.World, uid: int, origin: F.Origin) returns (n: nat, v: I.World)
    requires Leads(r, k, w) && At(r, w, F.OfToken(F.Open(uid, origin)))
    requires I.Fresh(w, HashToken(r.env.token, r.cfg.secret))
    ensures var (s, expiresAt) := O.OpenSession(r.cfg, View(w), uid, r.env);
            Leads(r, n, v) && View(v) == s && At(r, v, Sessioned(r, uid, origin, expiresAt))
  {
    n := k + 1;
    v := OpenOnce(r, k, w, uid, origin);
    if Randomness !in r.env.faults {
      n, v := InsertAlone(r, n, v, uid, origin);
      OpeningIs(r, w, v, uid, origin);
    }
  }

  lemma InsertStep(r: Trip, w: I.World, uid: int, origin: F.Origin)
    requires At(r, w, F.OfToken(F.OpenInsert(uid, origin, HashToken(r.env.token, r.cfg.secret), r.env.now + r.cfg.ttl)))
    ensures var h := HashToken(r.env.token, r.cfg.secret);
            var v := I.OpenStep(Fine(r.cfg), w, r.f, F.OpenInsert(uid, origin, h, r.env.now + r.cfg.ttl),
                                Plain(r.cfg, r.env));
            var (db, row) := InsertSession(w.db, uid, h, r.env.now + r.cfg.ttl, r.env.now,
                                           CreateSession !in r.env.faults);
            && v.db == db && v.items == w.items
            && At(r, v, if row.None? then F.FAILED else F.OfToken(F.SetFirst(row.value, F.Opened(h, uid, origin))))
            && (row.Some? ==> row.value.tokenHash == h)
  {
  }

  lemma InsertOnce(r: Trip, k: nat, w: I.World, uid: int, origin: F.Origin) returns (v: I.World)
    requires Leads(r, k, w)
    requires At(r, w, F.OfToken(F.OpenInsert(uid, origin, HashToken(r.env.token, r.cfg.secret), r.env.now + r.cfg.ttl)))
    ensures var h := HashToken(r.env.token, r.cfg.secret);
            var (db, row) := InsertSession(w.db, uid, h, r.env.now + r.cfg.ttl, r.env.now,
                                           CreateSession !in r.env.faults);
            && Leads(r, k + 1, v) && v.db == db && v.items == w.items
            && At(r, v, if row.None? then F.FAILED else F.OfToken(F.SetFirst(row.value, F.Opened(h, uid, origin))))
            && (row.Some? ==> row.value.tokenHash == h)
  {
    var t := F.OpenInsert(uid, origin, HashToken(r.env.token, r.cfg.secret), r.env.now + r.cfg.ttl);
    OpenGoes(r, k, w, t);
    InsertStep(r, w, uid, origin);
    v := I.OpenStep(Fine(r.cfg), w, r.f, t, Plain(r.cfg, r.env));
  }

  /** What createSession writes and caches once the token is drawn; `inserted` is what the INSERT gave. */
  ghost predicate SessionWritten(r: Trip, w: I.World, v: I.World, uid: int, origin: F.Origin,
                                 inserted: (Store, Option<Session>)) {
    && v.db == inserted.0
    && if inserted.1.None? then v.items == w.items && At(r, v, F.FAILED)
       else
         && OfMemcached(v.items) == Remember(OfMemcached(w.items), HashToken(r.env.token, r.cfg.secret),
                                             inserted.1.value, r.cfg.ttl, r.env.now, r.env.faults)
         && At(r, v, F.Finished(F.Opened(HashToken(r.env.token, r.cfg.secret), uid, origin)))
  }

  lemma OpeningIs(r: Trip, w: I.World, v: I.World, uid: int, origin: F.Origin)
    requires Randomness !in r.env.faults
    requires var h := HashToken(r.env.token, r.cfg.secret);
             SessionWritten(r, w, v, uid, origin,
                            InsertSession(w.db, uid, h, r.env.now + r.cfg.ttl, r.env.now,
                                          CreateSession !in r.env.faults))
    ensures var (s, expiresAt) := O.OpenSession(r.cfg, View(w), uid, r.env);
            View(v) == s && At(r, v, Sessioned(r, uid, origin, expiresAt))
  {
  }

  lemma InsertAlone(r: Trip, k: nat, w: I.World, uid: int, origin: F.Origin) returns (n: nat, v: I.World)
    requires Leads(r, k, w)
    requires At(r, w, F.OfToken(F.OpenInsert(uid, origin, HashToken(r.env.token, r.cfg.secret), r.env.now + r.cfg.ttl)))
    ensures var h := HashToken(r.env.token, r.cfg.secret);
            var inserted := InsertSession(w.db, uid, h, r.env.now + r.cfg.ttl, r.env.now,
                                          CreateSession !in r.env.faults);
            Leads(r, n, v) && SessionWritten(r, w, v, uid, origin, inserted)
  {
    var inserted := InsertOnce(r, k, w, uid, origin);
    n, v := RememberAlone(r, k + 1, inserted, uid, origin, inserted.flights[r.f]);
  }

  lemma RememberAlone(r: Trip, k: nat, w: I.World, uid: int, origin: F.Origin, flight: F.Flight)
    returns (n: nat, v: I.World)
    requires Leads(r, k, w) && At(r, w, flight)
    requires var h := HashToken(r.env.token, r.cfg.secret);
             flight == F.FAILED
             || (flight.OfToken? && flight.token.SetFirst? && flight.token.s.tokenHash == h
                 && flight.token.answer == F.Opened(h, uid, origin))
    ensures Leads(r, n, v) && v.db == w.db
    ensures if flight == F.FAILED then v == w
            else && At(r, v, F.Finished(flight.token.answer))
                 && OfMemcached(v.items) == Remember(OfMemcached(w.items), flight.token.s.tokenHash, flight.token.s,
                                                     r.cfg.ttl, r.env.now, r.env.faults)
  {
    n, v := k, w;
    if flight != F.FAILED { n, v := SetAlone(r, k, w, flight.token.s, flight.token.answer); }
  }

  lemma RefreshReadOf(r: Trip, w: I.World, h: TokenHash)
    requires At(r, w, F.OfToken(F.RefreshStart(h)))
    ensures var v := I.RefreshStep(Fine(r.cfg), w, r.f, F.RefreshStart(h), Plain(r.cfg, r.env));
            var row := LiveSession(w.db, h);
            && View(v) == View(w) && SameBesides(w, v)
            && At(r, v, if GetSession in r.env.faults || row.None? then F.FAILED
                        else F.OfToken(F.RefreshClock(h, row.value)))
  {
  }

  lemma RefreshClockOf(r: Trip, w: I.World, h: TokenHash, row: Session)
    requires At(r, w, F.OfToken(F.RefreshClock(h, row)))
    ensures var v := I.RefreshStep(Fine(r.cfg), w, r.f, F.RefreshClock(h, row), Plain(r.cfg, r.env));
            && View(v) == View(w) && SameBesides(w, v)
            && At(r, v, if r.env.now > row.expiresAt then F.FAILED else F.OfToken(F.RefreshRenew(h, row)))
  {
  }

  lemma RefreshRenewOf(r: Trip, w: I.World, h: TokenHash, row: Session)
    requires At(r, w, F.OfToken(F.RefreshRenew(h, row))) && I.Fresh(w, HashToken(r.env.token, r.cfg.secret))
    ensures var v := I.RefreshStep(Fine(r.cfg), w, r.f, F.RefreshRenew(h, row), Plain(r.cfg, r.env));
            && View(v) == View(w)
            && At(r, v, if Randomness in r.env.faults then F.FAILED
                        else F.OfToken(F.RefreshUpdate(h, O.Renewed(r.cfg, row, r.env))))
  {
  }

  /** The end of a refresh whose token passed the checks. */
  ghost function Rotated(r: Trip, s: O.State, row: Session): (O.State, O.Response) {
    if Randomness in r.env.faults then (s, O.Rejected(Internal)) else O.Rotate(r.cfg, s, row, r.env)
  }

  lemma RefreshRead(r: Trip, h: TokenHash) returns (v: I.World)
    requires Leads(r, 0, r.start) && At(r, r.start, F.OfToken(F.RefreshStart(h)))
    ensures var row := LiveSession(r.start.db, h);
            && Leads(r, 1, v) && View(v) == View(r.start) && SameBesides(r.start, v)
            && At(r, v, if GetSession in r.env.faults || row.None? then F.FAILED
                        else F.OfToken(F.RefreshClock(h, row.value)))
  {
    RefreshGoes(r, 0, r.start, F.RefreshStart(h));
    RefreshReadOf(r, r.start, h);
    v := I.RefreshStep(Fine(r.cfg), r.start, r.f, F.RefreshStart(h), Plain(r.cfg, r.env));
  }

  lemma RefreshAlone(r: Trip, token: string)
    requires Leads(r, 0, r.start) && At(r, r.start, F.OfToken(F.RefreshStart(HashToken(token, r.cfg.secret))))
    requires token != "" && I.Fresh(r.start, HashToken(r.env.token, r.cfg.secret))
    ensures var (s, response) := O.Refresh(r.cfg, View(r.start), token, r.env); EndsWith(r, s, response)
  {
    var h := HashToken(token, r.cfg.secret);
    var (s, response) := O.Refresh(r.cfg, View(r.start), token, r.env);
    var v := RefreshRead(r, h);
    var row := LiveSession(r.start.db, h);
    if GetSession in r.env.faults || row.None? {
      EndIs(r, 1, v, s, response);
    } else {
      RefreshClockAlone(r, 1, v, h, row.value);
    }
  }

  lemma RefreshClockAlone(r: Trip, k: nat, w: I.World, h: TokenHash, row: Session)
    requires Leads(r, k, w) && At(r, w, F.OfToken(F.RefreshClock(h, row))) && row.tokenHash == h
    requires I.Fresh(w, HashToken(r.env.token, r.cfg.secret))
    ensures r.env.now > row.expiresAt ==> EndsWith(r, View(w), O.Rejected(Unauthorized))
    ensures r.env.now <= row.expiresAt ==> var (s, response) := Rotated(r, View(w), row); EndsWith(r, s, response)
  {
    RefreshGoes(r, k, w, F.RefreshClock(h, row));
    RefreshClockOf(r, w, h, row);
    var v := I.RefreshStep(Fine(r.cfg), w, r.f, F.RefreshClock(h, row), Plain(r.cfg, r.env));
    if r.env.now > row.expiresAt {
      EndIs(r, k + 1, v, View(w), O.Rejected(Unauthorized));
    } else {
      RenewAlone(r, k + 1, v, h, row);
    }
  }

  lemma RenewAlone(r: Trip, k: nat, w: I.World, h: TokenHash, row: Session)
    requires Leads(r, k, w) && At(r, w, F.OfToken(F.RefreshRenew(h, row))) && row.tokenHash == h
    requires I.Fresh(w, HashToken(r.env.token, r.cfg.secret))
    ensures var (s, response) := Rotated(r, View(w), row); EndsWith(r, s, response)
  {
    RefreshGoes(r, k, w, F.RefreshRenew(h, row));
    RefreshRenewOf(r, w, h, row);
    var v := I.RefreshStep(Fine(r.cfg), w, r.f, F.RefreshRenew(h, row), Plain(r.cfg, r.env));
    if Randomness in r.env.faults {
      EndIs(r, k + 1, v, View(w), O.Rejected(Internal));
    } else {
      RotateAlone(r, k + 1, v, h, row);
    }
  }

  lemma UpdateOf(r: Trip, w: I.World, h: TokenHash, row: Session)
    requires At(r, w, F.OfToken(F.RefreshUpdate(h, row)))
    ensures var v := I.RefreshStep(Fine(r.cfg), w, r.f, F.RefreshUpdate(h, row), Plain(r.cfg, r.env));
            var (db, ok) := UpdateSessionRow(w.db, row, UpdateSession !in r.env.faults);
            && v.db == db && v.items == w.items
            && At(r, v, if ok then F.OfToken(F.Drop(h, 0, Some(row))) else F.FAILED)
  {
  }

  lemma RotateAlone(r: Trip, k: nat, w: I.World, h: TokenHash, row: Session)
    requires Leads(r, k, w) && At(r, w, F.OfToken(F.RefreshUpdate(h, O.Renewed(r.cfg, row, r.env))))
    requires row.tokenHash == h
    ensures var (s, response) := O.Rotate(r.cfg, View(w), row, r.env); EndsWith(r, s, response)
  {
    var row' := O.Renewed(r.cfg, row, r.env);
    var (s, response) := O.Rotate(r.cfg, View(w), row, r.env);
    RefreshGoes(r, k, w, F.RefreshUpdate(h, row'));
    UpdateOf(r, w, h, row');
    var v := I.RefreshStep(Fine(r.cfg), w, r.f, F.RefreshUpdate(h, row'), Plain(r.cfg, r.env));
    if UpdateSessionRow(w.db, row', UpdateSession !in r.env.faults).1 {
      var n, v' := RecacheAlone(r, k + 1, v, h, row');
      EndIs(r, n, v', s, response);
    } else {
      EndIs(r, k + 1, v, s, response);
    }
  }

  lemma RecacheAlone(r: Trip, k: nat, w: I.World, h: TokenHash, row: Session) returns (n: nat, v: I.World)
    requires Leads(r, k, w) && At(r, w, F.OfToken(F.Drop(h, 0, Some(row))))
    ensures Leads(r, n, v) && v.db == w.db && Ended(v, r.f)
            && v.flights[r.f].answer.Refreshed? && v.flights[r.f].answer.hash == row.tokenHash
    ensures OfMemcached(v.items)
            == Remember(Forget(OfMemcached(w.items), h, r.env.faults), row.tokenHash, row, r.cfg.ttl, r.env.now,
                        r.env.faults)
  {
    n, v := DropAlone(r, k, w, h, 0, Some(row));
    DropsForget(w.items, h, r.env.faults);
    n, v := SetAlone(r, n, v, row, v.flights[r.f].token.answer);
  }

  lemma LogoutReadOf(r: Trip, w: I.World, h: TokenHash)
    requires At(r, w, F.OfToken(F.LogoutStart(h)))
    ensures var v := I.LogoutStep(w, r.f, F.LogoutStart(h), Plain(r.cfg, r.env));
            var row := LiveSession(w.db, h);
            && View(v) == View(w)
            && At(r, v, if GetSession in r.env.faults || row.None? then F.FAILED
                        else F.OfToken(F.LogoutClock(h, row.value)))
  {
  }

  lemma LogoutRead(r: Trip, h: TokenHash) returns (v: I.World)
    requires Leads(r, 0, r.start) && At(r, r.start, F.OfToken(F.LogoutStart(h)))
    ensures var row := LiveSession(r.start.db, h);
            && Leads(r, 1, v) && View(v) == View(r.start)
            && At(r, v, if GetSession in r.env.faults || row.None? then F.FAILED
                        else F.OfToken(F.LogoutClock(h, row.value)))
  {
    LogoutGoes(r, 0, r.start, F.LogoutStart(h));
    LogoutReadOf(r, r.start, h);
    v := I.LogoutStep(r.start, r.f, F.LogoutStart(h), Plain(r.cfg, r.env));
  }

  lemma LogoutAlone(r: Trip, token: string)
    requires Leads(r, 0, r.start) && At(r, r.start, F.OfToken(F.LogoutStart(HashToken(token, r.cfg.secret))))
    requires token != ""
    ensures var (s, response) := O.Logout(r.cfg, View(r.start), token, r.env); EndsWith(r, s, response)
  {
    var h := HashToken(token, r.cfg.secret);
    var v := LogoutRead(r, h);
    var row := LiveSession(r.start.db, h);
    if GetSession in r.env.faults || row.None? {
      var (s, response) := O.Logout(r.cfg, View(r.start), token, r.env);
      EndIs(r, 1, v, s, response);
    } else {
      LogoutFound(r, v, token, row.value);
    }
  }

  lemma LogoutFound(r: Trip, w: I.World, token: string, row: Session)
    requires token != "" && GetSession !in r.env.faults
    requires var h := HashToken(token, r.cfg.secret);
             && LiveSession(r.start.db, h) == Some(row)
             && Leads(r, 1, w) && View(w) == View(r.start) && At(r, w, F.OfToken(F.LogoutClock(h, row)))
    ensures var (s, response) := O.Logout(r.cfg, View(r.start), token, r.env); EndsWith(r, s, response)
  {
    var (s, response) := O.Logout(r.cfg, View(r.start), token, r.env);
    var n, v := LogoutClockAlone(r, 1, w, HashToken(token, r.cfg.secret), row);
    EndIs(r, n, v, s, response);
  }

  /** What a logout whose token passed the checks comes to. */
  ghost predicate Retired(r: Trip, w: I.World, v: I.World, h: TokenHash, id: int) {
    if SoftDeleteSession in r.env.faults then View(v) == View(w) && At(r, v, F.FAILED)
    else
      && View(v) == O.State(RetireSession(w.db, id, r.env.now, true), Forget(OfMemcached(w.items), h, r.env.faults))
      && At(r, v, F.Finished(F.LoggedOut(h, Dropped(h, 0, r.env.faults))))
  }

  lemma LogoutClockAlone(r: Trip, k: nat, w: I.World, h: TokenHash, row: Session) returns (n: nat, v: I.World)
    requires Leads(r, k, w) && At(r, w, F.OfToken(F.LogoutClock(h, row)))
    ensures Leads(r, n, v)
    ensures if r.env.now > row.expiresAt then View(v) == View(w) && At(r, v, F.FAILED) else Retired(r, w, v, h, row.id)
  {
    LogoutGoes(r, k, w, F.LogoutClock(h, row));
    n, v := k + 1, I.LogoutStep(w, r.f, F.LogoutClock(h, row), Plain(r.cfg, r.env));
    if r.env.now <= row.expiresAt { n, v := RetireAlone(r, n, v, h, row.id); }
  }

  lemma RetireOf(r: Trip, w: I.World, h: TokenHash, id: int)
    requires At(r, w, F.OfToken(F.LogoutRetire(h, id)))
    ensures var v := I.LogoutStep(w, r.f, F.LogoutRetire(h, id), Plain(r.cfg, r.env));
            var ok := SoftDeleteSession !in r.env.faults;
            && v.db == RetireSession(w.db, id, r.env.now, ok) && v.items == w.items
            && At(r, v, if ok then F.OfToken(F.Drop(h, 0, None)) else F.FAILED)
  {
  }

  lemma RetireAlone(r: Trip, k: nat, w: I.World, h: TokenHash, id: int) returns (n: nat, v: I.World)
    requires Leads(r, k, w) && At(r, w, F.OfToken(F.LogoutRetire(h, id)))
    ensures Leads(r, n, v) && Retired(r, w, v, h, id)
  {
    LogoutGoes(r, k, w, F.LogoutRetire(h, id));
    RetireOf(r, w, h, id);
    n, v := k + 1, I.LogoutStep(w, r.f, F.LogoutRetire(h, id), Plain(r.cfg, r.env));
    if SoftDeleteSession !in r.env.faults {
      n, v := DropAlone(r, n, v, h, 0, None);
      DropsForget(w.items, h, r.env.faults);
    }
  }

  lemma AskOf(r: Trip, w: I.World, h: TokenHash)
    requires At(r, w, F.OfToken(F.ValidateStart(h)))
    ensures var v := I.ValidateStep(w, r.f, F.ValidateStart(h), Plain(r.cfg, r.env));
            var verdict := Ask(OfMemcached(w.items), h, r.env.now, r.env.faults);
            && View(v) == View(w)
            && At(r, v, if verdict.Unavailable? then F.OfToken(F.ValidateRow(h))
                        else if verdict.owner.None? then F.Finished(F.Validated(h, None, r.env.now))
                        else F.OfToken(F.ValidateUser(h, verdict.owner.value, r.env.now)))
  {
  }

  lemma AskCache(r: Trip, h: TokenHash) returns (v: I.World)
    requires Leads(r, 0, r.start) && At(r, r.start, F.OfToken(F.ValidateStart(h)))
    ensures var verdict := Ask(OfMemcached(r.start.items), h, r.env.now, r.env.faults);
            && Leads(r, 1, v) && View(v) == View(r.start)
            && At(r, v, if verdict.Unavailable? then F.OfToken(F.ValidateRow(h))
                        else if verdict.owner.None? then F.Finished(F.Validated(h, None, r.env.now))
                        else F.OfToken(F.ValidateUser(h, verdict.owner.value, r.env.now)))
  {
    ValidateGoes(r, 0, r.start, F.ValidateStart(h));
    AskOf(r, r.start, h);
    v := I.ValidateStep(r.start, r.f, F.ValidateStart(h), Plain(r.cfg, r.env));
  }

  /** Where a validation ends. */
  ghost function ValidationEnd(s: O.State, h: TokenHash, env: O.Env): F.Flight {
    var verdict := Ask(s.cache, h, env.now, env.faults);
    if verdict.Unavailable? && CheckSession in env.faults then F.FAILED
    else
      var owner := if verdict.Says? then verdict.owner else TokenOwner(s.db, h, env.now);
      if owner.None? then F.Finished(F.Validated(h, None, env.now)) else UserChecked(s.db, h, owner.value, env)
  }

  lemma ValidationAgrees(cfg: O.Config, v: I.World, f: int, s: O.State, token: string, env: O.Env)
    requires token != "" && f in v.flights && v.flights[f] == ValidationEnd(s, HashToken(token, cfg.secret), env)
    ensures Agree(cfg, v, f, O.Validate(cfg, s, token, env))
  {
  }

  lemma ValidateAlone(r: Trip, token: string)
    requires Leads(r, 0, r.start) && At(r, r.start, F.OfToken(F.ValidateStart(HashToken(token, r.cfg.secret))))
    requires token != ""
    ensures EndsWith(r, View(r.start), O.Validate(r.cfg, View(r.start), token, r.env))
  {
    var n, v := ValidateFlies(r, HashToken(token, r.cfg.secret));
    ValidationAgrees(r.cfg, v, r.f, View(r.start), token, r.env);
    EndIs(r, n, v, View(r.start), O.Validate(r.cfg, View(r.start), token, r.env));
  }

  lemma ValidateFlies(r: Trip, h: TokenHash) returns (n: nat, v: I.World)
    requires Leads(r, 0, r.start) && At(r, r.start, F.OfToken(F.ValidateStart(h)))
    ensures Leads(r, n, v) && View(v) == View(r.start) && At(r, v, ValidationEnd(View(r.start), h, r.env))
  {
    n := 1;
    v := AskCache(r, h);
    var verdict := Ask(OfMemcached(r.start.items), h, r.env.now, r.env.faults);
    if verdict.Unavailable? { n, v := ValidateRowAlone(r, 1, v, h); }
    else if verdict.owner.Some? { n, v := ValidateUserAlone(r, 1, v, h, verdict.owner.value); }
  }

  lemma RowOf(r: Trip, w: I.World, h: TokenHash)
    requires At(r, w, F.OfToken(F.ValidateRow(h)))
    ensures var v := I.ValidateStep(w, r.f, F.ValidateRow(h), Plain(r.cfg, r.env));
            var owner := TokenOwner(w.db, h, r.env.now);
            && View(v) == View(w)
            && At(r, v, if CheckSession in r.env.faults then F.FAILED
                        else if owner.None? then F.Finished(F.Validated(h, None, r.env.now))
                        else F.OfToken(F.ValidateUser(h, owner.value, r.env.now)))
  {
  }

  lemma ValidateRowAlone(r: Trip, k: nat, w: I.World, h: TokenHash) returns (n: nat, v: I.World)
    requires Leads(r, k, w) && At(r, w, F.OfToken(F.ValidateRow(h)))
    ensures Leads(r, n, v) && View(v) == View(w)
    ensures var owner := TokenOwner(w.db, h, r.env.now);
            At(r, v, if CheckSession in r.env.faults then F.FAILED
                     else if owner.None? then F.Finished(F.Validated(h, None, r.env.now))
                     else UserChecked(w.db, h, owner.value, r.env))
  {
    ValidateGoes(r, k, w, F.ValidateRow(h));
    RowOf(r, w, h);
    n, v := k + 1, I.ValidateStep(w, r.f, F.ValidateRow(h), Plain(r.cfg, r.env));
    var owner := TokenOwner(w.db, h, r.env.now);
    if CheckSession !in r.env.faults && owner.Some? { n, v := ValidateUserAlone(r, n, v, h, owner.value); }
  }

  /** Where a validation ends once it knows the owner. */
  function UserChecked(db: Store, h: TokenHash, uid: int, env: O.Env): F.Flight {
    if GetUserByID in env.faults || uid !in db.users then F.FAILED else F.Finished(F.Validated(h, Some(uid), env.now))
  }

  lemma UserOfRow(r: Trip, w: I.World, h: TokenHash, uid: int)
    requires At(r, w, F.OfToken(F.ValidateUser(h, uid, r.env.now)))
    ensures var v := I.ValidateStep(w, r.f, F.ValidateUser(h, uid, r.env.now), Plain(r.cfg, r.env));
            View(v) == View(w) && At(r, v, UserChecked(w.db, h, uid, r.env))
  {
  }

  lemma ValidateUserAlone(r: Trip, k: nat, w: I.World, h: TokenHash, uid: int) returns (n: nat, v: I.World)
    requires Leads(r, k, w) && At(r, w, F.OfToken(F.ValidateUser(h, uid, r.env.now)))
    ensures Leads(r, n, v) && View(v) == View(w) && At(r, v, UserChecked(w.db, h, uid, r.env))
  {
    ValidateGoes(r, k, w, F.ValidateUser(h, uid, r.env.now));
    UserOfRow(r, w, h, uid);
    n, v := k + 1, I.ValidateStep(w, r.f, F.ValidateUser(h, uid, r.env.now), Plain(r.cfg, r.env));
  }

  // ---------------------------------------------------------------- operations on accounts

  /** The trip ends with these tables, the entries it began with, and this response. */
  ghost predicate EndsOnTables(r: Trip, result: (Store, O.Response)) {
    EndsWith(r, View(r.start).(db := result.0), result.1)
  }

  /** After k steps the tables are these, the entries those of the start, and the flight stands here. */
  ghost predicate Stands(r: Trip, k: nat, v: I.World, db: Store, flight: F.Flight) {
    Leads(r, k, v) && SameBesides(r.start, v) && v.db == db && At(r, v, flight)
  }

  lemma TablesAre(r: Trip, k: nat, v: I.World, flight: F.Flight, result: (Store, O.Response))
    requires Stands(r, k, v, result.0, flight) && (flight == F.FAILED || flight == F.Finished(F.Done))
    requires result.1.Rejected? <==> flight == F.FAILED
    requires result.1.Rejected? || result.1.SignedUp? || result.1.ResetSent? || result.1.PasswordReset?
             || result.1.UserDeleted?
    ensures EndsOnTables(r, result)
  {
    EndIs(r, k, v, View(r.start).(db := result.0), result.1);
  }

  lemma SignupAlone(r: Trip, email: string, password: string)
    requires Leads(r, 0, r.start) && At(r, r.start, F.OfAccount(F.SignupStart(email, password)))
    ensures EndsOnTables(r, O.Signup(r.cfg, r.start.db, email, password, r.env))
  {
    var v := SignupGoes(r, 0, r.start, F.SignupStart(email, password));
    if v.flights[r.f].OfAccount? {
      SignupCreateAlone(r, 1, v, email, Bcrypt(password));
    } else {
      TablesAre(r, 1, v, F.FAILED, O.Signup(r.cfg, r.start.db, email, password, r.env));
    }
  }

  lemma SignupCreateAlone(r: Trip, k: nat, w: I.World, email: string, digest: Digest)
    requires Stands(r, k, w, r.start.db, F.OfAccount(F.SignupCreate(email, digest)))
    ensures var (db, uid) := CreateUser(w.db, email, None, false, digest, r.env.now, r.env.faults);
            EndsOnTables(r, O.Welcome(r.cfg, db, uid, r.env))
  {
    var (db, uid) := CreateUser(w.db, email, None, false, digest, r.env.now, r.env.faults);
    var v := SignupGoes(r, k, w, F.SignupCreate(email, digest));
    if v.flights[r.f].OfAccount? {
      SignupOtpAlone(r, k + 1, v, uid.value);
    } else {
      TablesAre(r, k + 1, v, F.FAILED, O.Welcome(r.cfg, db, uid, r.env));
    }
  }

  ghost function Insertion(r: Trip, db: Store, uid: int, purpose: Purpose): (Store, bool) {
    InsertOtp(db, uid, r.env.otpHash, Bcrypt(r.env.code), purpose, r.env.now + r.cfg.otpExpiry, r.env.now,
              CreateOtp !in r.env.faults)
  }

  lemma IssuedAlone(r: Trip, k: nat, v: I.World, inserted: (Store, bool), purpose: Purpose)
    requires Stands(r, k, v, inserted.0, if inserted.1 then F.Finished(F.Done) else F.FAILED)
    ensures EndsOnTables(r, O.Told(inserted, purpose, r.env))
  {
    TablesAre(r, k, v, if inserted.1 then F.Finished(F.Done) else F.FAILED, O.Told(inserted, purpose, r.env));
  }

  lemma SignupInserts(r: Trip, k: nat, w: I.World, uid: int) returns (v: I.World)
    requires Leads(r, k, w) && At(r, w, F.OfAccount(F.SignupClock(uid))) && SameBesides(r.start, w)
    ensures var inserted := Insertion(r, w.db, uid, SignupVerification);
            Stands(r, k + 2, v, inserted.0, if inserted.1 then F.Finished(F.Done) else F.FAILED)
  {
    v := SignupGoes(r, k, w, F.SignupClock(uid));
    v := SignupGoes(r, k + 1, v, F.SignupOtp(uid, r.env.now + r.cfg.otpExpiry));
  }

  lemma SignupOtpAlone(r: Trip, k: nat, w: I.World, uid: int)
    requires Leads(r, k, w) && At(r, w, F.OfAccount(F.SignupClock(uid))) && SameBesides(r.start, w)
    ensures EndsOnTables(r, O.Issue(r.cfg, w.db, uid, SignupVerification, r.env))
  {
    var v := SignupInserts(r, k, w, uid);
    IssuedAlone(r, k + 2, v, Insertion(r, w.db, uid, SignupVerification), SignupVerification);
  }

  lemma ForgotRead(r: Trip, email: string) returns (v: I.World)
    requires Leads(r, 0, r.start) && At(r, r.start, F.OfAccount(F.ForgotStart(email)))
    ensures var u := UserByEmail(r.start.db, email);
            Stands(r, 1, v, r.start.db,
                   if GetUserByEmail in r.env.faults then F.FAILED
                   else if u.None? then F.Finished(F.Done)
                   else if Randomness in r.env.faults || CodeHashing in r.env.faults then F.FAILED
                   else F.OfAccount(F.ForgotRetire(u.value)))
  {
    v := PasswordGoes(r, 0, r.start, F.ForgotStart(email));
  }

  lemma ForgotAlone(r: Trip, email: string)
    requires Leads(r, 0, r.start) && At(r, r.start, F.OfAccount(F.ForgotStart(email)))
    ensures EndsOnTables(r, O.ForgotPassword(r.cfg, r.start.db, email, r.env))
  {
    var result := O.ForgotPassword(r.cfg, r.start.db, email, r.env);
    var v := ForgotRead(r, email);
    if v.flights[r.f].OfAccount? {
      ReissueAlone(r, 1, v, UserByEmail(r.start.db, email).value);
    } else {
      TablesAre(r, 1, v, v.flights[r.f], result);
    }
  }

  lemma ReissueAlone(r: Trip, k: nat, w: I.World, uid: int)
    requires Stands(r, k, w, r.start.db, F.OfAccount(F.ForgotRetire(uid)))
    ensures EndsOnTables(r, O.Reissue(r.cfg, w.db, uid, r.env))
  {
    var v := PasswordGoes(r, k, w, F.ForgotRetire(uid));
    ForgotOtpAlone(r, k + 1, v, uid);
  }

  lemma ForgotInserts(r: Trip, k: nat, w: I.World, uid: int) returns (v: I.World)
    requires Leads(r, k, w) && At(r, w, F.OfAccount(F.ForgotClock(uid))) && SameBesides(r.start, w)
    ensures var inserted := Insertion(r, w.db, uid, ResetPassword);
            Stands(r, k + 2, v, inserted.0, if inserted.1 then F.Finished(F.Done) else F.FAILED)
  {
    v := PasswordGoes(r, k, w, F.ForgotClock(uid));
    v := PasswordGoes(r, k + 1, v, F.ForgotOtp(uid, r.env.now + r.cfg.otpExpiry));
  }

  lemma ForgotOtpAlone(r: Trip, k: nat, w: I.World, uid: int)
    requires Leads(r, k, w) && At(r, w, F.OfAccount(F.ForgotClock(uid))) && SameBesides(r.start, w)
    ensures EndsOnTables(r, O.Issue(r.cfg, w.db, uid, ResetPassword, r.env))
  {
    var v := ForgotInserts(r, k, w, uid);
    IssuedAlone(r, k + 2, v, Insertion(r, w.db, uid, ResetPassword), ResetPassword);
  }

  lemma ResetAlone(r: Trip, otpHash: string, code: string, password: string)
    requires Leads(r, 0, r.start) && At(r, r.start, F.OfAccount(F.ResetStart(otpHash, code, password)))
    ensures EndsOnTables(r, O.Reset(r.start.db, otpHash, code, password, r.env))
  {
    var result := O.Reset(r.start.db, otpHash, code, password, r.env);
    var v := PasswordGoes(r, 0, r.start, F.ResetStart(otpHash, code, password));
    if v.flights[r.f].OfAccount? {
      var otp := LiveOtp(r.start.db, otpHash, ResetPassword).value;
      ResetClockAlone(r, 1, v, otp, code, password);
    } else {
      TablesAre(r, 1, v, F.FAILED, result);
    }
  }

  lemma ResetClockAlone(r: Trip, k: nat, w: I.World, otp: Otp, code: string, password: string)
    requires Stands(r, k, w, r.start.db, F.OfAccount(F.ResetClock(otp, code, password)))
    ensures if r.env.now > otp.expiresAt || !Verify(otp.code, code)
            then EndsOnTables(r, (w.db, O.Rejected(Unauthorized)))
            else EndsOnTables(r, O.StorePassword(w.db, otp.otpHash, otp.userId, password, r.env))
  {
    var v := PasswordGoes(r, k, w, F.ResetClock(otp, code, password));
    if v.flights[r.f].OfAccount? {
      ResetWriteAlone(r, k + 1, v, otp, password);
    } else if r.env.now > otp.expiresAt || !Verify(otp.code, code) {
      TablesAre(r, k + 1, v, F.FAILED, (w.db, O.Rejected(Unauthorized)));
    } else {
      TablesAre(r, k + 1, v, F.FAILED, (w.db, O.Rejected(Internal)));
    }
  }

  lemma ResetWriteAlone(r: Trip, k: nat, w: I.World, otp: Otp, password: string)
    requires Stands(r, k, w, r.start.db, F.OfAccount(F.ResetUpdate(otp, Bcrypt(password)))) && Hashing !in r.env.faults
    ensures EndsOnTables(r, O.StorePassword(w.db, otp.otpHash, otp.userId, password, r.env))
  {
    var result := O.StorePassword(w.db, otp.otpHash, otp.userId, password, r.env);
    var v := PasswordGoes(r, k, w, F.ResetUpdate(otp, Bcrypt(password)));
    if UpdatePassword in r.env.faults {
      TablesAre(r, k + 1, v, F.FAILED, result);
    } else {
      v := PasswordGoes(r, k + 1, v, F.ResetRetire(otp));
      TablesAre(r, k + 2, v, if result.1.Rejected? then F.FAILED else F.Finished(F.Done), result);
    }
  }

  lemma DeleteReads(r: Trip, uid: int) returns (v: I.World)
    requires Leads(r, 0, r.start) && At(r, r.start, F.OfAccount(F.DeleteStart(uid)))
    ensures Stands(r, 1, v, r.start.db, if GetUserByID in r.env.faults || uid !in r.start.db.users then F.FAILED
                                        else F.OfAccount(F.DeleteRow(uid)))
  {
    v := DeleteGoes(r, 0, r.start, F.DeleteStart(uid));
  }

  lemma DeleteWrites(r: Trip, w: I.World, uid: int) returns (v: I.World)
    requires Stands(r, 1, w, r.start.db, F.OfAccount(F.DeleteRow(uid)))
    ensures var ok := DeleteUserRow !in r.env.faults;
            Stands(r, 2, v, RemoveUser(r.start.db, uid, ok), if ok then F.Finished(F.Done) else F.FAILED)
  {
    v := DeleteGoes(r, 1, w, F.DeleteRow(uid));
  }

  lemma DeleteAlone(r: Trip, uid: int)
    requires Leads(r, 0, r.start) && At(r, r.start, F.OfAccount(F.DeleteStart(uid)))
    ensures EndsOnTables(r, O.DeleteUser(r.start.db, uid, r.env))
  {
    var result := O.DeleteUser(r.start.db, uid, r.env);
    var v := DeleteReads(r, uid);
    if v.flights[r.f].OfAccount? {
      v := DeleteWrites(r, v, uid);
      TablesAre(r, 2, v, if result.1.Rejected? then F.FAILED else F.Finished(F.Done), result);
    } else {
      TablesAre(r, 1, v, F.FAILED, result);
    }
  }

  // ---------------------------------------------------------------- the ways to a session

  /** A flight after an admission: about to open the session, or failed. */
  function Admitted(r: Result<int>, origin: F.Origin): F.Flight {
    if r.Ok? then F.OfToken(F.Open(r.value, origin)) else F.FAILED
  }

  /** A flight that opens its session ends as OpenFor does. */
  lemma OpenForAlone(r: Trip, k: nat, w: I.World, admitted: Result<int>, origin: F.Origin)
    requires Leads(r, k, w) && At(r, w, Admitted(admitted, origin)) && SameBesides(r.start, w)
    requires I.Fresh(r.start, HashToken(r.env.token, r.cfg.secret))
    ensures var (s, response) := O.OpenFor(r.cfg, View(r.start), w.db, admitted, r.env); EndsWith(r, s, response)
  {
    var (s, response) := O.OpenFor(r.cfg, View(r.start), w.db, admitted, r.env);
    if admitted.Ok? {
      var n, v := OpenAlone(r, k, w, admitted.value, origin);
      assert View(w) == View(r.start).(db := w.db);
      EndIs(r, n, v, s, response);
    } else {
      EndIs(r, k, w, s, response);
    }
  }

  lemma LoginAlone(r: Trip, email: string, password: string)
    requires Leads(r, 0, r.start) && At(r, r.start, F.OfAccount(F.LoginStart(email, password)))
    requires I.Fresh(r.start, HashToken(r.env.token, r.cfg.secret))
    ensures var (s, response) := O.Login(r.cfg, View(r.start), email, password, r.env); EndsWith(r, s, response)
  {
    var n, v := PasswordAdmits(r, email, password);
    OpenForAlone(r, n, v, O.AdmitByPassword(r.start.db, email, password, r.env).1, F.ByLogin);
  }

  lemma PasswordAdmits(r: Trip, email: string, password: string) returns (n: nat, v: I.World)
    requires Leads(r, 0, r.start) && At(r, r.start, F.OfAccount(F.LoginStart(email, password)))
    ensures var (db, admitted) := O.AdmitByPassword(r.start.db, email, password, r.env);
            Stands(r, n, v, db, Admitted(admitted, F.ByLogin))
  {
    v := LoginGoes(r, 0, r.start, F.LoginStart(email, password));
    n := 1;
    if v.flights[r.f].OfAccount? {
      v := LoginGoes(r, 1, v, F.LoginTouch(UserByEmail(r.start.db, email).value));
      n := 2;
    }
  }

  // ---------------------------------------------------------------- username draws

  function DrawOf(c: F.Choice): O.Draw {
    O.Draw(c.digits, ExistsUsername in c.faults)
  }

  /** The username draws among the choices, from choice k on. */
  function DrawsFrom(cs: seq<F.Choice>, k: nat): (draws: seq<O.Draw>)
    ensures |draws| == if k <= |cs| then |cs| - k else 0
    ensures forall i :: 0 <= i < |draws| ==> draws[i] == DrawOf(cs[k + i])
  {
    if k <= |cs| then seq(|cs| - k, i requires 0 <= i < |cs| - k => DrawOf(cs[k + i])) else []
  }

  lemma DrawsMoveOn(cs: seq<F.Choice>, k: nat)
    requires k < |cs|
    ensures DrawsFrom(cs, k) != [] && DrawsFrom(cs, k)[0] == DrawOf(cs[k])
    ensures DrawsFrom(cs, k)[1..] == DrawsFrom(cs, k + 1)
  {
  }

  lemma DrawOnce(db: Store, email: string, tries: nat, draws: seq<O.Draw>, c: F.Choice)
    requires tries < Usernames.MAX_TRIES && draws != [] && draws[0] == DrawOf(c)
    ensures var picked := O.PickName(db, email, draws, Usernames.MAX_TRIES - tries);
            match F.TryName(db, email, tries, c)
            case Use(name) => picked == Some(name)
            case GiveUp => picked == None
            case Again => && tries + 1 < Usernames.MAX_TRIES
                          && picked == O.PickName(db, email, draws[1..], Usernames.MAX_TRIES - (tries + 1))
  {
  }

  lemma {:induction false} VerifyNames(r: Trip, k: nat, w: I.World, otp: Otp, email: string, tries: nat,
                                       picked: Option<string>)
    returns (n: nat, v: I.World)
    requires Stands(r, k, w, r.start.db, F.OfAccount(F.VerifyName(otp, email, tries))) && tries < Usernames.MAX_TRIES
    requires picked == O.PickName(w.db, email, DrawsFrom(r.cs, k), Usernames.MAX_TRIES - tries)
    ensures Stands(r, n, v, w.db, if picked.Some? then F.OfAccount(F.VerifyUpdate(otp, picked.value)) else F.FAILED)
    decreases Usernames.MAX_TRIES - tries
  {
    n := k + 1;
    v := VerifyNameGoes(r, k, w, otp, email, tries);
    DrawsMoveOn(r.cs, k);
    DrawOnce(w.db, email, tries, DrawsFrom(r.cs, k), r.cs[k]);
    if F.TryName(w.db, email, tries, r.cs[k]).Again? { n, v := VerifyNames(r, n, v, otp, email, tries + 1, picked); }
  }

  lemma {:induction false} ExchangeNames(r: Trip, k: nat, w: I.World, key: LinkKey, email: string, tries: nat,
                                         picked: Option<string>)
    returns (n: nat, v: I.World)
    requires Stands(r, k, w, r.start.db, F.OfAccount(F.ExchangeName(key, email, tries))) && tries < Usernames.MAX_TRIES
    requires picked == O.PickName(w.db, email, DrawsFrom(r.cs, k), Usernames.MAX_TRIES - tries)
    ensures Stands(r, n, v, w.db, if picked.Some? then F.OfAccount(F.ExchangeCreate(key, email, picked.value))
                   else F.FAILED)
    decreases Usernames.MAX_TRIES - tries
  {
    n := k + 1;
    v := ExchangeNameGoes(r, k, w, key, email, tries);
    DrawsMoveOn(r.cs, k);
    DrawOnce(w.db, email, tries, DrawsFrom(r.cs, k), r.cs[k]);
    if F.TryName(w.db, email, tries, r.cs[k]).Again? { n, v := ExchangeNames(r, n, v, key, email, tries + 1, picked); }
  }

  // ---------------------------------------------------------------- VerifyOTP

  /** VerifyOTP draws its first username with the fourth choice, ExchangeOAuthCode with the third. */
  const VERIFY_DRAWS: nat := 3
  const EXCHANGE_DRAWS: nat := 2

  /** VerifyOTP's checks from the code it found on. */
  ghost function UserChecks(db: Store, otp: Otp, code: string, env: O.Env): Result<int> {
    if GetUserByID in env.faults then Err(Internal)
    else if otp.userId !in db.users then Err(NotFound)
    else if db.users[otp.userId].verified then Err(Validation)
    else if env.now > otp.expiresAt || !Verify(otp.code, code) then Err(Unauthorized)
    else Ok(otp.userId)
  }

  lemma ChecksAre(db: Store, otpHash: string, code: string, env: O.Env)
    ensures var (checked, otp) := (O.CheckSignupOtp(db, otpHash, code, env), LiveOtp(db, otpHash, SignupVerification));
            if otpHash == "" || GetOtp in env.faults || otp.None? then checked.Err?
            else checked == UserChecks(db, otp.value, code, env)
  {
  }

  /** VerifyOTP finds this code and its checks pass. */
  ghost predicate Passes(db: Store, otpHash: string, code: string, otp: Option<Otp>, env: O.Env) {
    otpHash != "" && GetOtp !in env.faults && otp.Some? && UserChecks(db, otp.value, code, env).Ok?
  }

  /** Where VerifyOTP's checks end: with a failure, or after exactly three steps. */
  ghost predicate AfterChecks(r: Trip, k: nat, v: I.World, otpHash: string, code: string) {
    var db := r.start.db;
    var otp := LiveOtp(db, otpHash, SignupVerification);
    if !Passes(db, otpHash, code, otp, r.env) then Stands(r, k, v, db, F.FAILED)
    else
      && k == VERIFY_DRAWS
      && Stands(r, k, v, db, F.OfAccount(F.VerifyName(otp.value, db.users[otp.value.userId].email, 0)))
  }

  lemma VerifyChecksAlone(r: Trip, otpHash: string, code: string) returns (n: nat, v: I.World)
    requires Leads(r, 0, r.start) && At(r, r.start, F.OfAccount(F.VerifyStart(otpHash, code)))
    ensures AfterChecks(r, n, v, otpHash, code)
  {
    n := 1;
    v := VerifyGoes(r, 0, r.start, F.VerifyStart(otpHash, code));
    if v.flights[r.f].OfAccount? {
      n, v := VerifyUserAlone(r, v, LiveOtp(r.start.db, otpHash, SignupVerification).value, code);
    }
  }

  lemma VerifyUserOnce(r: Trip, w: I.World, otp: Otp, code: string) returns (v: I.World)
    requires Stands(r, 1, w, r.start.db, F.OfAccount(F.VerifyUser(otp, code)))
    ensures var db := r.start.db;
            Stands(r, 2, v, db,
                   if GetUserByID in r.env.faults || otp.userId !in db.users || db.users[otp.userId].verified
                   then F.FAILED
                   else F.OfAccount(F.VerifyClock(otp, code, db.users[otp.userId])))
  {
    v := VerifyGoes(r, 1, w, F.VerifyUser(otp, code));
  }

  lemma VerifyUserAlone(r: Trip, w: I.World, otp: Otp, code: string) returns (n: nat, v: I.World)
    requires Stands(r, 1, w, r.start.db, F.OfAccount(F.VerifyUser(otp, code)))
    ensures var db := r.start.db;
            if UserChecks(db, otp, code, r.env).Err? then Stands(r, n, v, db, F.FAILED)
            else n == VERIFY_DRAWS && Stands(r, n, v, db, F.OfAccount(F.VerifyName(otp, db.users[otp.userId].email, 0)))
  {
    n := 2;
    v := VerifyUserOnce(r, w, otp, code);
    if v.flights[r.f].OfAccount? {
      n := 3;
      v := VerifyClockAlone(r, 2, v, otp, code, r.start.db.users[otp.userId]);
    }
  }

  lemma VerifyClockAlone(r: Trip, k: nat, w: I.World, otp: Otp, code: string, user: User) returns (v: I.World)
    requires Stands(r, k, w, r.start.db, F.OfAccount(F.VerifyClock(otp, code, user)))
    ensures Stands(r, k + 1, v, r.start.db, if r.env.now > otp.expiresAt || !Verify(otp.code, code) then F.FAILED
                                            else F.OfAccount(F.VerifyName(otp, user.email, 0)))
  {
    v := VerifyGoes(r, k, w, F.VerifyClock(otp, code, user));
  }

  lemma VerifyWritesAlone(r: Trip, k: nat, w: I.World, otp: Otp, name: string) returns (n: nat, v: I.World)
    requires Stands(r, k, w, r.start.db, F.OfAccount(F.VerifyUpdate(otp, name)))
    ensures var (db, ok) := MarkVerified(w.db, otp.userId, name, UpdateVerified !in r.env.faults);
            var retired := ok && SoftDeleteOtp !in r.env.faults;
            Stands(r, n, v, RetireOtp(db, otp.otpHash, SignupVerification, r.env.now, retired),
                   if retired then F.OfToken(F.Open(otp.userId, F.ByVerification)) else F.FAILED)
  {
    n := k + 1;
    v := VerifyGoes(r, k, w, F.VerifyUpdate(otp, name));
    if v.flights[r.f].OfAccount? {
      v := VerifyGoes(r, n, v, F.VerifyRetire(otp));
      n := n + 1;
    }
  }

  /** Only the user of an admission by code, without the name. */
  function UserOf(r: Result<(int, string)>): Result<int> {
    if r.Ok? then Ok(r.value.0) else Err(r.error)
  }

  lemma AdmissionRefused(db: Store, otpHash: string, code: string, env: O.Env)
    requires !Passes(db, otpHash, code, LiveOtp(db, otpHash, SignupVerification), env)
    ensures O.AdmitByOtp(db, otpHash, code, env).0 == db && O.AdmitByOtp(db, otpHash, code, env).1.Err?
  {
    ChecksAre(db, otpHash, code, env);
  }

  lemma AdmissionIs(db: Store, otpHash: string, code: string, env: O.Env)
    requires Passes(db, otpHash, code, LiveOtp(db, otpHash, SignupVerification), env)
    ensures var uid := LiveOtp(db, otpHash, SignupVerification).value.userId;
            var name := O.PickName(db, db.users[uid].email, env.draws, Usernames.MAX_TRIES);
            && O.AdmitByOtp(db, otpHash, code, env).0 == O.AdmitNamed(db, uid, name, otpHash, env).0
            && O.AdmitByOtp(db, otpHash, code, env).1 == O.AdmitNamed(db, uid, name, otpHash, env).1
  {
    ChecksAre(db, otpHash, code, env);
  }

  lemma NamedAlone(r: Trip, w: I.World, otp: Otp, email: string) returns (n: nat, v: I.World)
    requires Stands(r, VERIFY_DRAWS, w, r.start.db, F.OfAccount(F.VerifyName(otp, email, 0)))
    requires r.env.draws == DrawsFrom(r.cs, VERIFY_DRAWS)
    ensures var name := O.PickName(r.start.db, email, r.env.draws, Usernames.MAX_TRIES);
            var (db, admitted) := O.AdmitNamed(r.start.db, otp.userId, name, otp.otpHash, r.env);
            Stands(r, n, v, db, Admitted(UserOf(admitted), F.ByVerification))
  {
    var name := O.PickName(r.start.db, email, r.env.draws, Usernames.MAX_TRIES);
    n, v := VerifyNames(r, VERIFY_DRAWS, w, otp, email, 0, name);
    if name.Some? { n, v := VerifyWritesAlone(r, n, v, otp, name.value); }
  }

  lemma OtpAdmits(r: Trip, otpHash: string, code: string) returns (n: nat, v: I.World)
    requires Leads(r, 0, r.start) && At(r, r.start, F.OfAccount(F.VerifyStart(otpHash, code)))
    requires r.env.draws == DrawsFrom(r.cs, VERIFY_DRAWS)
    ensures var (db, admitted) := O.AdmitByOtp(r.start.db, otpHash, code, r.env);
            Stands(r, n, v, db, Admitted(UserOf(admitted), F.ByVerification))
  {
    n, v := VerifyChecksAlone(r, otpHash, code);
    var otp := LiveOtp(r.start.db, otpHash, SignupVerification);
    if Passes(r.start.db, otpHash, code, otp, r.env) {
      AdmissionIs(r.start.db, otpHash, code, r.env);
      n, v := NamedAlone(r, v, otp.value, r.start.db.users[otp.value.userId].email);
    } else {
      AdmissionRefused(r.start.db, otpHash, code, r.env);
    }
  }

  lemma VerifyAlone(r: Trip, otpHash: string, code: string)
    requires Leads(r, 0, r.start) && At(r, r.start, F.OfAccount(F.VerifyStart(otpHash, code)))
    requires I.Fresh(r.start, HashToken(r.env.token, r.cfg.secret)) && r.env.draws == DrawsFrom(r.cs, VERIFY_DRAWS)
    ensures var (s, response) := O.VerifyOtp(r.cfg, View(r.start), otpHash, code, r.env); EndsWith(r, s, response)
  {
    var (db, admitted) := O.AdmitByOtp(r.start.db, otpHash, code, r.env);
    var n, v := OtpAdmits(r, otpHash, code);
    OpenForAlone(r, n, v, UserOf(admitted), F.ByVerification);
    SameEnding(r, admitted, db);
  }

  /** VerifyOTP ends as the other ways to a session do, but for the username in its answer. */
  lemma SameEnding(r: Trip, admitted: Result<(int, string)>, db: Store)
    requires var (s, response) := O.OpenFor(r.cfg, View(r.start), db, UserOf(admitted), r.env); EndsWith(r, s, response)
    ensures if admitted.Err? then EndsWith(r, View(r.start).(db := db), O.Rejected(admitted.error))
            else var (s, expiresAt) := O.OpenSession(r.cfg, View(r.start).(db := db), admitted.value.0, r.env);
                 EndsWith(r, s, if expiresAt.Some? then O.Verified(admitted.value.1, r.env.token, expiresAt.value)
                                else O.Rejected(Internal))
  {
  }

  // ---------------------------------------------------------------- ExchangeOAuthCode

  lemma CreateOnce(r: Trip, k: nat, w: I.World, key: LinkKey, email: string, name: string) returns (v: I.World)
    requires Stands(r, k, w, r.start.db, F.OfAccount(F.ExchangeCreate(key, email, name)))
    ensures var (db, uid) := CreateUser(w.db, email, Some(name), true, Blank, r.env.now, r.env.faults);
            Stands(r, k + 1, v, db, if uid.Some? then F.OfAccount(F.ExchangeLink(key, uid.value)) else F.FAILED)
  {
    v := ExchangeGoes(r, k, w, F.ExchangeCreate(key, email, name));
  }

  lemma LinkOnce(r: Trip, k: nat, w: I.World, key: LinkKey, uid: int) returns (v: I.World)
    requires Stands(r, k, w, w.db, F.OfAccount(F.ExchangeLink(key, uid)))
    ensures var (db, ok) := InsertLink(w.db, key, uid, r.env.now, CreateLink !in r.env.faults);
            Stands(r, k + 1, v, db, if ok then F.OfToken(F.Open(uid, F.ByProvider(key))) else F.FAILED)
  {
    v := ExchangeGoes(r, k, w, F.ExchangeLink(key, uid));
  }

  lemma EnrolAlone(r: Trip, k: nat, w: I.World, key: LinkKey, email: string, name: string) returns (n: nat, v: I.World)
    requires Stands(r, k, w, r.start.db, F.OfAccount(F.ExchangeCreate(key, email, name)))
    ensures var (db, admitted) := O.Enrol(w.db, key, email, name, r.env);
            Stands(r, n, v, db, Admitted(admitted, F.ByProvider(key)))
  {
    n := k + 1;
    v := CreateOnce(r, k, w, key, email, name);
    if v.flights[r.f].OfAccount? {
      v := LinkOnce(r, n, v, key, v.flights[r.f].account.uid);
      n := n + 1;
    }
  }

  lemma ProviderAdmits(r: Trip, key: LinkKey, email: string) returns (n: nat, v: I.World)
    requires Leads(r, 0, r.start) && At(r, r.start, F.OfAccount(F.ExchangeStart(key, email)))
    requires r.env.draws == DrawsFrom(r.cs, EXCHANGE_DRAWS)
    ensures var (db, admitted) := O.AdmitByProvider(r.start.db, key, email, r.env);
            Stands(r, n, v, db, Admitted(admitted, F.ByProvider(key)))
  {
    n := 1;
    v := ExchangeGoes(r, 0, r.start, F.ExchangeStart(key, email));
    if v.flights[r.f].OfAccount? {
      if key in r.start.db.links {
        n, v := LinkedAlone(r, v, key, email);
      } else {
        n, v := NewcomerAlone(r, v, key, email);
      }
    }
  }

  lemma TouchAlone(r: Trip, w: I.World, key: LinkKey, uid: int) returns (v: I.World)
    requires Stands(r, 1, w, r.start.db, F.OfAccount(F.ExchangeTouch(key, uid)))
    ensures Stands(r, 2, v, TouchLink(r.start.db, key, r.env.now, UpdateLinkLastLogin !in r.env.faults),
                   F.OfToken(F.Open(uid, F.ByProvider(key))))
  {
    v := ExchangeGoes(r, 1, w, F.ExchangeTouch(key, uid));
  }

  lemma LinkedAlone(r: Trip, w: I.World, key: LinkKey, email: string) returns (n: nat, v: I.World)
    requires GetLink !in r.env.faults && key in r.start.db.links
    requires Stands(r, 1, w, r.start.db, F.OfAccount(F.ExchangeTouch(key, r.start.db.links[key].userId)))
    ensures var (db, admitted) := O.AdmitByProvider(r.start.db, key, email, r.env);
            Stands(r, n, v, db, Admitted(admitted, F.ByProvider(key)))
  {
    n := 2;
    v := TouchAlone(r, w, key, r.start.db.links[key].userId);
  }

  lemma EmailAlone(r: Trip, w: I.World, key: LinkKey, email: string) returns (v: I.World)
    requires Stands(r, 1, w, r.start.db, F.OfAccount(F.ExchangeEmail(key, email)))
    ensures Stands(r, 2, v, r.start.db,
                   if GetUserByEmail in r.env.faults || EmailTaken(r.start.db, email) then F.FAILED
                   else F.OfAccount(F.ExchangeName(key, email, 0)))
  {
    v := ExchangeGoes(r, 1, w, F.ExchangeEmail(key, email));
  }

  /** A new identity with a free email, once its name is picked. */
  ghost function Newcomer(db: Store, key: LinkKey, email: string, name: Option<string>, env: O.Env)
      : (Store, Result<int>)
  {
    if name.None? then (db, Err(Internal)) else O.Enrol(db, key, email, name.value, env)
  }

  lemma NewcomerIs(db: Store, key: LinkKey, email: string, env: O.Env)
    requires GetLink !in env.faults && key !in db.links
    ensures var (t, admitted) := O.AdmitByProvider(db, key, email, env);
            if GetUserByEmail in env.faults || EmailTaken(db, email) then t == db && admitted.Err?
            else (t, admitted) == Newcomer(db, key, email, O.PickName(db, email, env.draws, Usernames.MAX_TRIES), env)
  {
  }

  lemma NewcomerNamed(r: Trip, w: I.World, key: LinkKey, email: string) returns (n: nat, v: I.World)
    requires Stands(r, EXCHANGE_DRAWS, w, r.start.db, F.OfAccount(F.ExchangeName(key, email, 0)))
    requires r.env.draws == DrawsFrom(r.cs, EXCHANGE_DRAWS)
    ensures var name := O.PickName(r.start.db, email, r.env.draws, Usernames.MAX_TRIES);
            var (db, admitted) := Newcomer(r.start.db, key, email, name, r.env);
            Stands(r, n, v, db, Admitted(admitted, F.ByProvider(key)))
  {
    var name := O.PickName(r.start.db, email, r.env.draws, Usernames.MAX_TRIES);
    n, v := ExchangeNames(r, EXCHANGE_DRAWS, w, key, email, 0, name);
    if name.Some? { n, v := EnrolAlone(r, n, v, key, email, name.value); }
  }

  lemma NewcomerAlone(r: Trip, w: I.World, key: LinkKey, email: string) returns (n: nat, v: I.World)
    requires Stands(r, 1, w, r.start.db, F.OfAccount(F.ExchangeEmail(key, email)))
    requires GetLink !in r.env.faults && key !in r.start.db.links && r.env.draws == DrawsFrom(r.cs, EXCHANGE_DRAWS)
    ensures var (db, admitted) := O.AdmitByProvider(r.start.db, key, email, r.env);
            Stands(r, n, v, db, Admitted(admitted, F.ByProvider(key)))
  {
    n := 2;
    v := EmailAlone(r, w, key, email);
    NewcomerIs(r.start.db, key, email, r.env);
    if v.flights[r.f].OfAccount? { n, v := NewcomerNamed(r, v, key, email); }
  }

  lemma ExchangeAlone(r: Trip, key: LinkKey, email: string)
    requires Leads(r, 0, r.start) && At(r, r.start, F.OfAccount(F.ExchangeStart(key, email)))
    requires I.Fresh(r.start, HashToken(r.env.token, r.cfg.secret)) && r.env.draws == DrawsFrom(r.cs, EXCHANGE_DRAWS)
    ensures var (s, response) := O.Exchange(r.cfg, View(r.start), key, email, r.env); EndsWith(r, s, response)
  {
    var n, v := ProviderAdmits(r, key, email);
    OpenForAlone(r, n, v, O.AdmitByProvider(r.start.db, key, email, r.env).1, F.ByProvider(key));
  }
}
