/** The whole service at the granularity of one repository or cache call per step. A run is any
    sequence of actions: clients beginning operations, flights advancing in any order, entries
    evicted, the cleanup worker, and the clock. */
module Interleaving {
  import opened Domain
  import opened Tables
  import opened CacheStates
  import opened Flights

  datatype Config = Config(ttl: Time, otpExpiry: Time)

  /** What was decided when a token hash was generated: its owner, its expiry and the clock. */
  datatype Birth = Birth(userId: int, expiresAt: Time, at: Time)

  /** `began`, `birth`, `presented`, `disclosed` and `setAt` only record history: what each flight
      was begun with, the hashes generated so far, those a client has presented, those returned to
      a client, and when a validity entry was stored. */
  datatype World = World(
    db: Store,
    items: Items,
    now: Time,
    flights: map<int, Flight>,
    nextFlight: int,
    began: map<int, Flight>,
    birth: map<TokenHash, Birth>,
    presented: set<TokenHash>,
    disclosed: set<TokenHash>,
    setAt: map<TokenHash, Time>)

  /** Empty tables and cache, and the clock at some instant not before the Unix epoch. */
  function Start(now: nat): World {
    World(EMPTY, map[], now, map[], 0, map[], map[], {}, {}, map[])
  }

  datatype Action =
    | Begin(op: Flight)
    | Advance(f: int, c: Choice)
    | Evict(key: CacheKey)
    | Tick(elapsed: nat)
    | CleanSessions(ok: bool)
    | CleanOtps(ok: bool)

  /** The hash a client presents with an operation. */
  function Presents(op: Flight): Option<TokenHash> {
    if op.OfToken? && (op.token.ValidateStart? || op.token.RefreshStart? || op.token.LogoutStart?)
    then Some(op.token.hash) else None
  }

  predicate IsStart(op: Flight) {
    || (op.OfAccount? && var a := op.account;
          a.SignupStart? || a.VerifyStart? || a.LoginStart? || a.ExchangeStart?
          || a.ForgotStart? || a.ResetStart? || a.DeleteStart?)
    || (op.OfToken? && var t := op.token; t.ValidateStart? || t.RefreshStart? || t.LogoutStart?)
  }

  /** Tokens cannot be guessed: a hash already generated is presented only after its token was
      returned to a client. */
  predicate MayBegin(w: World, op: Flight) {
    IsStart(op) && (Presents(op).Some? ==> Presents(op).value in w.birth ==> Presents(op).value in w.disclosed)
  }

  predicate Fresh(w: World, h: TokenHash) {
    h !in w.birth && h !in w.presented
  }

  function Move(w: World, f: int, flight: Flight): World {
    w.(flights := w.flights[f := flight])
  }

  function Finish(w: World, f: int, answer: Answer): World {
    var w' := Move(w, f, Finished(answer));
    if answer.Opened? || answer.Refreshed? then w'.(disclosed := w.disclosed + {answer.hash}) else w'
  }

  /** A step of flight f moves no other flight, takes no time, and of the tables changes sessions at most. */
  ghost predicate OneMoves(w: World, v: World, f: int) {
    && v.now == w.now && v.began == w.began
    && v.db == w.db.(sessions := v.db.sessions, nextSession := v.db.nextSession) && v.nextFlight == w.nextFlight
    && (v.flights == w.flights || (f in v.flights && v.flights == w.flights[f := v.flights[f]]))
  }

  // ---------------------------------------------------------------- createSession

  ghost function OpenStep(cfg: Config, w: World, f: int, t: Token, c: Choice): (r: World)
    requires InOpen(t)
    ensures OneMoves(w, r, f)
  {
    match t
    case Open(uid, origin) =>
      if Fails(c, Randomness) then Move(w, f, FAILED)
      else if !Fresh(w, c.hash) then w
      else
        var expiresAt := w.now + cfg.ttl;
        Move(w, f, OfToken(OpenInsert(uid, origin, c.hash, expiresAt)))
          .(birth := w.birth[c.hash := Birth(uid, expiresAt, w.now)])
    case OpenInsert(uid, origin, hash, expiresAt) =>
      var (db', s) := InsertSession(w.db, uid, hash, expiresAt, w.now, !Fails(c, CreateSession));
      if s.None? then Move(w, f, FAILED).(db := db')
      else Move(w, f, OfToken(SetFirst(s.value, Opened(hash, uid, origin)))).(db := db')
  }

  /** SetSession, whose error the service ignores. */
  function SetStep(cfg: Config, w: World, f: int, t: Token, c: Choice): (r: World)
    requires InSet(t)
    ensures OneMoves(w, r, f)
    ensures r.db == w.db
  {
    match t
    case SetFirst(s, answer) =>
      if Fails(c, CacheSetSession) then Finish(w, f, answer)
      else
        Move(w, f, OfToken(SetSecond(s, answer)))
          .(items := w.items[SessionKey(s.tokenHash) := Item(SessionJson(s), EntryExpiry(w.now, cfg.ttl))])
    case SetSecond(s, answer) =>
      if Fails(c, CacheSetValidity) then Finish(w, f, answer)
      else
        Finish(w, f, answer)
          .(items := w.items[ValidityKey(s.tokenHash) := Item(Validity(s.userId), EntryExpiry(w.now, cfg.ttl))],
            setAt := w.setAt[s.tokenHash := w.now])
  }

  // ---------------------------------------------------------------- ValidateSession

  ghost function ValidateStep(w: World, f: int, t: Token, c: Choice): (r: World)
    requires InValidate(t)
    ensures OneMoves(w, r, f)
    ensures r.db == w.db
  {
    match t
    case ValidateStart(hash) =>
      (match Ask(OfMemcached(w.items), hash, w.now, c.faults)
       case Says(Some(uid)) => Move(w, f, OfToken(ValidateUser(hash, uid, w.now)))
       case Says(None) => Move(w, f, Finished(Validated(hash, None, w.now)))
       case Unavailable => Move(w, f, OfToken(ValidateRow(hash))))
    case ValidateRow(hash) =>
      var owner := TokenOwner(w.db, hash, w.now);
      if Fails(c, CheckSession) then Move(w, f, FAILED)
      else if owner.None? then Move(w, f, Finished(Validated(hash, None, w.now)))
      else Move(w, f, OfToken(ValidateUser(hash, owner.value, w.now)))
    case ValidateUser(hash, uid, readAt) =>
      if Fails(c, GetUserByID) || uid !in w.db.users then Move(w, f, FAILED)
      else Move(w, f, Finished(Validated(hash, Some(uid), readAt)))
  }

  // ---------------------------------------------------------------- RefreshSession and Logout

  ghost function RefreshStep(cfg: Config, w: World, f: int, t: Token, c: Choice): (r: World)
    requires InRefresh(t)
    ensures OneMoves(w, r, f)
  {
    match t
    case RefreshStart(hash) =>
      var s := LiveSession(w.db, hash);
      if Fails(c, GetSession) || s.None? then Move(w, f, FAILED)
      else Move(w, f, OfToken(RefreshClock(hash, s.value)))
    case RefreshClock(hash, s) =>
      if w.now > s.expiresAt then Move(w, f, FAILED) else Move(w, f, OfToken(RefreshRenew(hash, s)))
    case RefreshRenew(hash, s) =>
      if Fails(c, Randomness) then Move(w, f, FAILED)
      else if !Fresh(w, c.hash) then w
      else
        var expiresAt := w.now + cfg.ttl;
        Move(w, f, OfToken(RefreshUpdate(hash, s.(tokenHash := c.hash, expiresAt := expiresAt))))
          .(birth := w.birth[c.hash := Birth(s.userId, expiresAt, w.now)])
    case RefreshUpdate(hash, s) =>
      var (db', ok) := UpdateSessionRow(w.db, s, !Fails(c, UpdateSession));
      if !ok then Move(w, f, FAILED).(db := db')
      else Move(w, f, OfToken(Drop(hash, 0, Some(s)))).(db := db')
  }

  ghost function LogoutStep(w: World, f: int, t: Token, c: Choice): (r: World)
    requires InLogout(t)
    ensures OneMoves(w, r, f)
  {
    match t
    case LogoutStart(hash) =>
      var s := LiveSession(w.db, hash);
      if Fails(c, GetSession) || s.None? then Move(w, f, FAILED)
      else Move(w, f, OfToken(LogoutClock(hash, s.value)))
    case LogoutClock(hash, s) =>
      if w.now > s.expiresAt then Move(w, f, FAILED) else Move(w, f, OfToken(LogoutRetire(hash, s.id)))
    case LogoutRetire(hash, id) =>
      var ok := !Fails(c, SoftDeleteSession);
      Move(w, f, if ok then OfToken(Drop(hash, 0, None)) else FAILED).(db := RetireSession(w.db, id, w.now, ok))
  }

  /** The four deletes of InvalidateSessionToken. */
  function DropTarget(hash: TokenHash, pass: nat): (CacheKey, CallSite) {
    match pass
    case 0 => (SessionKey(hash), CacheDeleteSession)
    case 1 => (ValidityKey(hash), CacheDeleteValidity)
    case 2 => (SessionKey(hash), CacheDeleteSessionAgain)
    case _ => (ValidityKey(hash), CacheDeleteValidityAgain)
  }

  function AfterDrop(w: World, f: int, hash: TokenHash, renewed: Option<Session>, dropped: bool): World {
    match renewed
    case Some(s) => Move(w, f, OfToken(SetFirst(s, Refreshed(hash, s.tokenHash, dropped))))
    case None => Finish(w, f, LoggedOut(hash, dropped))
  }

  function DropStep(w: World, f: int, t: Token, c: Choice): (r: World)
    requires t.Drop?
    ensures OneMoves(w, r, f)
    ensures r.db == w.db
  {
    var (key, site) := DropTarget(t.hash, t.pass);
    if Fails(c, site) then AfterDrop(w, f, t.hash, t.renewed, false)
    else
      var w' := w.(items := w.items - {key});
      if t.pass < 3 then Move(w', f, OfToken(t.(pass := t.pass + 1)))
      else AfterDrop(w', f, t.hash, t.renewed, true)
  }

  // ---------------------------------------------------------------- one step, and runs

  ghost function TokenStep(cfg: Config, w: World, f: int, t: Token, c: Choice): (r: World)
    ensures OneMoves(w, r, f)
  {
    if InOpen(t) then OpenStep(cfg, w, f, t, c)
    else if InSet(t) then SetStep(cfg, w, f, t, c)
    else if InValidate(t) then ValidateStep(w, f, t, c)
    else if InRefresh(t) then RefreshStep(cfg, w, f, t, c)
    else if InLogout(t) then LogoutStep(w, f, t, c)
    else DropStep(w, f, t, c)
  }

  /** Which of the step functions a token step is. */
  lemma StepOf(cfg: Config, w: World, f: int, t: Token, c: Choice)
    ensures InOpen(t) ==> TokenStep(cfg, w, f, t, c) == OpenStep(cfg, w, f, t, c)
    ensures InSet(t) ==> TokenStep(cfg, w, f, t, c) == SetStep(cfg, w, f, t, c)
    ensures InValidate(t) ==> TokenStep(cfg, w, f, t, c) == ValidateStep(w, f, t, c)
    ensures InRefresh(t) ==> TokenStep(cfg, w, f, t, c) == RefreshStep(cfg, w, f, t, c)
    ensures InLogout(t) ==> TokenStep(cfg, w, f, t, c) == LogoutStep(w, f, t, c)
    ensures t.Drop? ==> TokenStep(cfg, w, f, t, c) == DropStep(w, f, t, c)
  {
  }

  function BeginStep(w: World, op: Flight): World {
    if !MayBegin(w, op) then w
    else
      var w' := w.(flights := w.flights[w.nextFlight := op], nextFlight := w.nextFlight + 1,
                   began := w.began[w.nextFlight := op]);
      if Presents(op).Some? then w'.(presented := w.presented + {Presents(op).value}) else w'
  }

  ghost function AdvanceStep(cfg: Config, w: World, f: int, c: Choice): World {
    if f !in w.flights then w
    else match w.flights[f]
      case OfAccount(a) =>
        var (db', flight) := AccountStep(w.db, a, w.now, cfg.otpExpiry, c);
        Move(w, f, flight).(db := db')
      case OfToken(t) => TokenStep(cfg, w, f, t, c)
      case Finished(_) => w
  }

  /** An action that is not enabled leaves the world as it is. */
  ghost function Step(cfg: Config, w: World, a: Action): World {
    match a
    case Begin(op) => BeginStep(w, op)
    case Advance(f, c) => AdvanceStep(cfg, w, f, c)
    case Evict(key) => w.(items := w.items - {key})
    case Tick(elapsed) => w.(now := w.now + elapsed)
    case CleanSessions(ok) => w.(db := SweepSessionRows(w.db, w.now, ok))
    case CleanOtps(ok) => w.(db := SweepOtpRows(w.db, w.now, ok))
  }

  ghost function Run(cfg: Config, w: World, actions: seq<Action>): World {
    if actions == [] then w else Step(cfg, Run(cfg, w, actions[..|actions| - 1]), actions[|actions| - 1])
  }

  lemma {:induction false} RunConcat(cfg: Config, w: World, xs: seq<Action>, ys: seq<Action>)
    ensures Run(cfg, w, xs + ys) == Run(cfg, Run(cfg, w, xs), ys)
  {
    if ys == [] {
      assert xs + ys == xs;
    } else {
      var n := |ys| - 1;
      assert (xs + ys)[..|xs + ys| - 1] == xs + ys[..n];
      RunConcat(cfg, w, xs, ys[..n]);
    }
  }

  // ---------------------------------------------------------------- where a step leads

  predicate LogoutNext(fl: Flight) {
    fl == FAILED || (fl.OfToken? && (fl.token.LogoutClock? || fl.token.LogoutRetire? || fl.token.Drop?))
  }

  predicate RefreshNext(fl: Flight) {
    fl == FAILED || (fl.OfToken? && (InRefresh(fl.token) || fl.token.Drop?))
  }

  predicate OpenNext(fl: Flight) {
    fl == FAILED || (fl.OfToken? && (InOpen(fl.token) || (fl.token.SetFirst? && fl.token.answer.Opened?)))
  }

  predicate ValidateNext(fl: Flight) {
    fl == FAILED || (fl.Finished? && fl.answer.Validated?)
    || (fl.OfToken? && (fl.token.ValidateRow? || fl.token.ValidateUser?))
  }

  lemma LogoutStartLeads(w: World, f: int, h: TokenHash, c: Choice)
    ensures var v := LogoutStep(w, f, LogoutStart(h), c);
            f in v.flights && LogoutNext(v.flights[f]) && v.birth == w.birth
  {
  }

  lemma LogoutClockLeads(w: World, f: int, h: TokenHash, s: Session, c: Choice)
    ensures var v := LogoutStep(w, f, LogoutClock(h, s), c);
            f in v.flights && LogoutNext(v.flights[f]) && v.birth == w.birth
  {
  }

  lemma LogoutRetireLeads(w: World, f: int, h: TokenHash, id: int, c: Choice)
    ensures var v := LogoutStep(w, f, LogoutRetire(h, id), c);
            f in v.flights && LogoutNext(v.flights[f]) && v.birth == w.birth
  {
  }

  lemma LogoutLeads(w: World, f: int, t: Token, c: Choice)
    requires InLogout(t)
    ensures var v := LogoutStep(w, f, t, c); f in v.flights && LogoutNext(v.flights[f]) && v.birth == w.birth
  {
    if t.LogoutStart? { LogoutStartLeads(w, f, t.hash, c); }
    else if t.LogoutClock? { LogoutClockLeads(w, f, t.hash, t.s, c); }
    else { LogoutRetireLeads(w, f, t.hash, t.id, c); }
  }

  lemma RefreshStartLeads(cfg: Config, w: World, f: int, h: TokenHash, c: Choice)
    ensures RefreshNext(RefreshStep(cfg, w, f, RefreshStart(h), c).flights[f])
  {
  }

  lemma RefreshClockLeads(cfg: Config, w: World, f: int, h: TokenHash, s: Session, c: Choice)
    ensures RefreshNext(RefreshStep(cfg, w, f, RefreshClock(h, s), c).flights[f])
  {
  }

  lemma RefreshRenewLeads(cfg: Config, w: World, f: int, h: TokenHash, s: Session, c: Choice)
    requires f in w.flights && w.flights[f] == OfToken(RefreshRenew(h, s))
    ensures RefreshNext(RefreshStep(cfg, w, f, RefreshRenew(h, s), c).flights[f])
  {
  }

  lemma RefreshUpdateLeads(cfg: Config, w: World, f: int, h: TokenHash, s: Session, c: Choice)
    ensures RefreshNext(RefreshStep(cfg, w, f, RefreshUpdate(h, s), c).flights[f])
  {
  }

  lemma RefreshLeads(cfg: Config, w: World, f: int, t: Token, c: Choice)
    requires InRefresh(t) && f in w.flights && w.flights[f] == OfToken(t)
    ensures RefreshNext(RefreshStep(cfg, w, f, t, c).flights[f])
  {
    if t.RefreshStart? { RefreshStartLeads(cfg, w, f, t.hash, c); }
    else if t.RefreshClock? { RefreshClockLeads(cfg, w, f, t.hash, t.s, c); }
    else if t.RefreshRenew? { RefreshRenewLeads(cfg, w, f, t.hash, t.s, c); }
    else { RefreshUpdateLeads(cfg, w, f, t.hash, t.s, c); }
  }

  lemma GenerationLeads(cfg: Config, w: World, f: int, uid: int, origin: Origin, c: Choice)
    requires f in w.flights && w.flights[f] == OfToken(Open(uid, origin))
    ensures OpenNext(OpenStep(cfg, w, f, Open(uid, origin), c).flights[f])
  {
  }

  lemma InsertionLeads(cfg: Config, w: World, f: int, uid: int, origin: Origin, h: TokenHash, expiresAt: Time,
                       c: Choice)
    ensures OpenNext(OpenStep(cfg, w, f, OpenInsert(uid, origin, h, expiresAt), c).flights[f])
  {
  }

  lemma OpenLeads(cfg: Config, w: World, f: int, t: Token, c: Choice)
    requires InOpen(t) && f in w.flights && w.flights[f] == OfToken(t)
    ensures OpenNext(OpenStep(cfg, w, f, t, c).flights[f])
  {
    if t.Open? { GenerationLeads(cfg, w, f, t.uid, t.origin, c); }
    else { InsertionLeads(cfg, w, f, t.uid, t.origin, t.hash, t.expiresAt, c); }
  }

  lemma ValidateStartLeads(w: World, f: int, h: TokenHash, c: Choice)
    ensures var v := ValidateStep(w, f, ValidateStart(h), c);
            f in v.flights && ValidateNext(v.flights[f]) && v.birth == w.birth
  {
  }

  lemma ValidateRowLeads(w: World, f: int, h: TokenHash, c: Choice)
    ensures var v := ValidateStep(w, f, ValidateRow(h), c);
            f in v.flights && ValidateNext(v.flights[f]) && v.birth == w.birth
  {
    RowRead(w, f, h, c);
  }

  lemma ValidateUserLeads(w: World, f: int, h: TokenHash, uid: int, at: Time, c: Choice)
    ensures var v := ValidateStep(w, f, ValidateUser(h, uid, at), c);
            f in v.flights && ValidateNext(v.flights[f]) && v.birth == w.birth
  {
  }

  lemma ValidateLeads(w: World, f: int, t: Token, c: Choice)
    requires InValidate(t)
    ensures var v := ValidateStep(w, f, t, c); f in v.flights && ValidateNext(v.flights[f]) && v.birth == w.birth
  {
    if t.ValidateStart? { ValidateStartLeads(w, f, t.hash, c); }
    else if t.ValidateRow? { ValidateRowLeads(w, f, t.hash, c); }
    else { ValidateUserLeads(w, f, t.hash, t.uid, t.readAt, c); }
  }

  lemma FinishLeads(w: World, f: int, answer: Answer)
    ensures var v := Finish(w, f, answer);
            v.flights == w.flights[f := Finished(answer)] && v.birth == w.birth && v.presented == w.presented
  {
  }

  /** Where a SetSession step leads: on to its second entry, or to the answer. */
  predicate SetNext(t: Token, fl: Flight)
    requires InSet(t)
  {
    fl == Finished(t.answer) || (t.SetFirst? && fl == OfToken(SetSecond(t.s, t.answer)))
  }

  lemma SetFirstLeads(cfg: Config, w: World, f: int, s: Session, answer: Answer, c: Choice)
    ensures var v := SetStep(cfg, w, f, SetFirst(s, answer), c);
            && f in v.flights && SetNext(SetFirst(s, answer), v.flights[f])
            && v.birth == w.birth && v.presented == w.presented
  {
    FinishLeads(w, f, answer);
  }

  lemma SetSecondLeads(cfg: Config, w: World, f: int, s: Session, answer: Answer, c: Choice)
    ensures var v := SetStep(cfg, w, f, SetSecond(s, answer), c);
            && f in v.flights && SetNext(SetSecond(s, answer), v.flights[f])
            && v.birth == w.birth && v.presented == w.presented
  {
    FinishLeads(w, f, answer);
  }

  lemma SetLeads(cfg: Config, w: World, f: int, t: Token, c: Choice)
    requires InSet(t)
    ensures var v := SetStep(cfg, w, f, t, c);
            f in v.flights && SetNext(t, v.flights[f]) && v.birth == w.birth && v.presented == w.presented
  {
    if t.SetFirst? { SetFirstLeads(cfg, w, f, t.s, t.answer, c); } else { SetSecondLeads(cfg, w, f, t.s, t.answer, c); }
  }

  /** Where the deletes leave a flight. */
  function Cleared(h: TokenHash, renewed: Option<Session>, dropped: bool): Flight {
    if renewed.Some? then OfToken(SetFirst(renewed.value, Refreshed(h, renewed.value.tokenHash, dropped)))
    else Finished(LoggedOut(h, dropped))
  }

  predicate DropNext(t: Token, fl: Flight)
    requires t.Drop?
  {
    || (t.pass < 3 && fl == OfToken(Drop(t.hash, t.pass + 1, t.renewed)))
    || fl == Cleared(t.hash, t.renewed, true) || fl == Cleared(t.hash, t.renewed, false)
  }

  lemma AfterDropLeads(w: World, f: int, h: TokenHash, renewed: Option<Session>, dropped: bool)
    ensures var v := AfterDrop(w, f, h, renewed, dropped);
            && v.flights == w.flights[f := Cleared(h, renewed, dropped)] && v.birth == w.birth
               && v.presented == w.presented
            && v == w.(flights := v.flights)
  {
  }

  lemma DropLeads(w: World, f: int, t: Token, c: Choice)
    requires t.Drop?
    ensures var v := DropStep(w, f, t, c);
            f in v.flights && DropNext(t, v.flights[f]) && v.birth == w.birth && v.presented == w.presented
  {
    var (key, site) := DropTarget(t.hash, t.pass);
    if Fails(c, site) { AfterDropLeads(w, f, t.hash, t.renewed, false); }
    else if t.pass >= 3 { AfterDropLeads(w.(items := w.items - {key}), f, t.hash, t.renewed, true); }
  }

  // ---------------------------------------------------------------- who moves in a step

  /** A flight stands still unless the step advances it, and for good once it has finished. */
  lemma OthersStand(cfg: Config, w: World, a: Action, g: int)
    requires g in w.flights && g < w.nextFlight
    requires a.Advance? && a.f == g ==> w.flights[g].Finished?
    ensures g in Step(cfg, w, a).flights && Step(cfg, w, a).flights[g] == w.flights[g]
    ensures w.nextFlight <= Step(cfg, w, a).nextFlight
  {
  }

  /** Where a flight that stood at `t` can have its positive verdict from: it had it before, or reads
      it now in the cache or in a live row; and it answers it only when the user is found. */
  ghost predicate VerdictFrom(w: World, t: Token, fl: Flight) {
    && (fl.OfToken? && fl.token.ValidateUser? ==>
          var (h, uid, at) := (fl.token.hash, fl.token.uid, fl.token.readAt);
          || t == fl.token
          || (t == ValidateStart(h) && at == w.now && Lookup(w.items, ValidityKey(h), at) == Some(Validity(uid)))
          || (t == ValidateRow(h) && at == w.now && TokenOwner(w.db, h, at) == Some(uid)))
    && (fl.Finished? && fl.answer.Validated? && fl.answer.owner.Some? ==>
          t == ValidateUser(fl.answer.hash, fl.answer.owner.value, fl.answer.readAt)
          && fl.answer.owner.value in w.db.users)
  }

  /** Neither a verdict nor on the way to one. */
  predicate Verdictless(fl: Flight) {
    && (fl.Finished? ==> !fl.answer.Validated?)
    && (fl.OfToken? ==> !fl.token.ValidateUser?)
  }

  lemma VerdictlessIsFine(w: World, t: Token, fl: Flight)
    requires Verdictless(fl)
    ensures VerdictFrom(w, t, fl)
  {
  }

  lemma ValidateStartVerdict(w: World, f: int, h: TokenHash, c: Choice)
    ensures VerdictFrom(w, ValidateStart(h), ValidateStep(w, f, ValidateStart(h), c).flights[f])
  {
  }

  lemma ValidateRowVerdict(w: World, f: int, h: TokenHash, c: Choice)
    ensures VerdictFrom(w, ValidateRow(h), ValidateStep(w, f, ValidateRow(h), c).flights[f])
  {
    RowRead(w, f, h, c);
    RowVerdict(w, h, ValidateStep(w, f, ValidateRow(h), c).flights[f]);
  }

  /** What the lookup in the table comes to. */
  ghost predicate RowNext(w: World, h: TokenHash, fl: Flight) {
    || fl == FAILED || fl == Finished(Validated(h, None, w.now))
    || (TokenOwner(w.db, h, w.now).Some? && fl == OfToken(ValidateUser(h, TokenOwner(w.db, h, w.now).value, w.now)))
  }

  lemma RowRead(w: World, f: int, h: TokenHash, c: Choice)
    ensures var v := ValidateStep(w, f, ValidateRow(h), c);
            f in v.flights && v == Move(w, f, v.flights[f]) && RowNext(w, h, v.flights[f])
  {
  }

  lemma RowVerdict(w: World, h: TokenHash, fl: Flight)
    requires RowNext(w, h, fl)
    ensures VerdictFrom(w, ValidateRow(h), fl)
  {
  }

  lemma ValidateUserVerdict(w: World, f: int, h: TokenHash, uid: int, at: Time, c: Choice)
    ensures VerdictFrom(w, ValidateUser(h, uid, at), ValidateStep(w, f, ValidateUser(h, uid, at), c).flights[f])
  {
  }

  lemma OpenVerdictless(cfg: Config, w: World, f: int, t: Token, c: Choice)
    requires InOpen(t) && f in w.flights && w.flights[f] == OfToken(t)
    ensures Verdictless(OpenStep(cfg, w, f, t, c).flights[f])
  {
    OpenLeads(cfg, w, f, t, c);
    OnTheWayIsVerdictless(OpenStep(cfg, w, f, t, c).flights[f]);
  }

  lemma OnTheWayIsVerdictless(fl: Flight)
    requires OpenNext(fl) || RefreshNext(fl) || LogoutNext(fl)
    ensures Verdictless(fl)
  {
  }

  lemma RefreshVerdictless(cfg: Config, w: World, f: int, t: Token, c: Choice)
    requires InRefresh(t) && f in w.flights && w.flights[f] == OfToken(t)
    ensures Verdictless(RefreshStep(cfg, w, f, t, c).flights[f])
  {
    RefreshLeads(cfg, w, f, t, c);
    OnTheWayIsVerdictless(RefreshStep(cfg, w, f, t, c).flights[f]);
  }

  lemma LogoutVerdictless(w: World, f: int, t: Token, c: Choice)
    requires InLogout(t)
    ensures Verdictless(LogoutStep(w, f, t, c).flights[f])
  {
    LogoutLeads(w, f, t, c);
    OnTheWayIsVerdictless(LogoutStep(w, f, t, c).flights[f]);
  }

  lemma DropVerdictless(w: World, f: int, t: Token, c: Choice)
    requires t.Drop?
    ensures Verdictless(DropStep(w, f, t, c).flights[f])
  {
    DropLeads(w, f, t, c);
  }

  lemma SetVerdictless(cfg: Config, w: World, f: int, t: Token, c: Choice)
    requires InSet(t) && !t.answer.Validated?
    ensures Verdictless(SetStep(cfg, w, f, t, c).flights[f])
  {
    SetLeads(cfg, w, f, t, c);
  }

  /** A positive verdict enters a flight from the cache or from a live row, and leaves it only
      when its user is found. */
  lemma WhereVerdictsComeFrom(cfg: Config, w: World, f: int, t: Token, c: Choice)
    requires f in w.flights && w.flights[f] == OfToken(t)
    requires InSet(t) ==> !t.answer.Validated?
    ensures VerdictFrom(w, t, TokenStep(cfg, w, f, t, c).flights[f])
  {
    StepOf(cfg, w, f, t, c);
    if t.ValidateStart? { ValidateStartVerdict(w, f, t.hash, c); }
    else if t.ValidateRow? { ValidateRowVerdict(w, f, t.hash, c); }
    else if t.ValidateUser? { ValidateUserVerdict(w, f, t.hash, t.uid, t.readAt, c); }
    else { OthersVerdictless(cfg, w, f, t, c); }
  }

  lemma OthersVerdictless(cfg: Config, w: World, f: int, t: Token, c: Choice)
    requires f in w.flights && w.flights[f] == OfToken(t) && !t.ValidateStart? && !t.ValidateRow? && !t.ValidateUser?
    requires InSet(t) ==> !t.answer.Validated?
    ensures VerdictFrom(w, t, TokenStep(cfg, w, f, t, c).flights[f])
  {
    StepOf(cfg, w, f, t, c);
    if InOpen(t) { OpenVerdictless(cfg, w, f, t, c); }
    else if InSet(t) { SetVerdictless(cfg, w, f, t, c); }
    else if t.Drop? { DropVerdictless(w, f, t, c); }
    else if InLogout(t) { LogoutVerdictless(w, f, t, c); }
    else { RefreshVerdictless(cfg, w, f, t, c); }
    VerdictlessIsFine(w, t, TokenStep(cfg, w, f, t, c).flights[f]);
  }
}
