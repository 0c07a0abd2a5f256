/** The singleflight group shared by ValidateSession and GetUser: callers join the flight of their
    key or start one, and a validating flight in its turn calls GetUser. */
module Singleflight {
  import opened Domain

  // ---------------------------------------------------------------- keys

  /** What a flight computes: the validity of a token hash, or the data of a user. */
  datatype Key = ValidateOf(hash: string) | UserOf(uid: int)

  function Digits(n: nat): (r: string)
    ensures |r| > 0 && forall i :: 0 <= i < |r| ==> '0' <= r[i] <= '9'
  {
    if n < 10 then ["0123456789"[n]] else Digits(n / 10) + ["0123456789"[n % 10]]
  }

  function Decimal(n: int): string {
    if n < 0 then "-" + Digits(-n) else Digits(n)
  }

  function Parse(s: string): int {
    if s == "" then 0 else 10 * Parse(s[..|s| - 1]) + (s[|s| - 1] as int - '0' as int)
  }

  lemma {:induction false} DigitsParse(n: nat)
    ensures Parse(Digits(n)) == n
  {
    DigitValue(n % 10);
    if n < 10 {
      ParseLast("", "0123456789"[n]);
      assert Digits(n) == "" + ["0123456789"[n]];
    } else {
      DigitsParse(n / 10);
      ParseLast(Digits(n / 10), "0123456789"[n % 10]);
      assert Digits(n) == Digits(n / 10) + ["0123456789"[n % 10]];
    }
  }

  lemma DigitValue(d: nat)
    requires d < 10
    ensures "0123456789"[d] as int - '0' as int == d
  {
  }

  lemma ParseLast(s: string, c: char)
    ensures Parse(s + [c]) == 10 * Parse(s) + (c as int - '0' as int)
  {
    assert (s + [c])[..|s + [c]| - 1] == s;
  }

  lemma DecimalInjective(a: int, b: int)
    requires Decimal(a) == Decimal(b)
    ensures a == b
  {
    assert Decimal(a)[0] == '-' <==> a < 0;
    assert Decimal(b)[0] == '-' <==> b < 0;
    DigitsParse(if a < 0 then -a else a);
    DigitsParse(if b < 0 then -b else b);
    if a < 0 { assert Decimal(a)[1..] == Digits(-a) && Decimal(b)[1..] == Digits(-b); }
  }

  const VALIDATE := "auth:session:validate:"
  const GET := "auth:user:get:"

  function Render(k: Key): string {
    match k
    case ValidateOf(hash) => VALIDATE + hash
    case UserOf(uid) => GET + Decimal(uid)
  }

  /** The group is keyed by strings, and these strings never collide. */
  lemma RenderInjective(a: Key, b: Key)
    requires Render(a) == Render(b)
    ensures a == b
  {
    SameKind(a, b);
    if a.ValidateOf? {
      assert Render(a)[|VALIDATE|..] == a.hash && Render(b)[|VALIDATE|..] == b.hash;
    } else {
      assert Render(a)[|GET|..] == Decimal(a.uid) && Render(b)[|GET|..] == Decimal(b.uid);
      DecimalInjective(a.uid, b.uid);
    }
  }

  /** The sixth character tells the kind. */
  lemma SameKind(a: Key, b: Key)
    requires Render(a) == Render(b)
    ensures a.ValidateOf? <==> b.ValidateOf?
  {
    SixthCharacter(a);
    SixthCharacter(b);
  }

  lemma SixthCharacter(k: Key)
    ensures |Render(k)| > 5 && Render(k)[5] == if k.ValidateOf? then 's' else 'u'
  {
    if k.ValidateOf? { assert Render(k)[5] == VALIDATE[5]; } else { assert Render(k)[5] == GET[5]; }
  }

  // ---------------------------------------------------------------- the group

  /** A result: an error, or a value of the type its flight produces. A valid session comes with the
      owner of the token and the id in the user data. */
  datatype Answer = Failed | OfSession(owner: Option<(int, int)>) | OfUser(uid: int)

  /** The type assertion that a caller makes on the value it receives. */
  predicate Fits(k: Key, a: Answer) {
    match a
    case Failed => true
    case OfSession(owner) => k.ValidateOf? && (owner.Some? ==> owner.value.0 == owner.value.1)
    case OfUser(uid) => k == UserOf(uid)
  }

  /** Awaiting: the token is valid for `uid`, and the nested call waits for the user's data. */
  datatype Phase = Running | Awaiting(call: int, uid: int) | Done(answer: Answer, at: nat)

  datatype Flight = Flight(key: Key, startedAt: nat, phase: Phase)

  datatype Status = Waiting | GaveUp | Got(answer: Answer)

  /** Nested calls run on a context that is never cancelled. */
  datatype Caller = Caller(key: Key, begunAt: nat, flight: int, status: Status, nested: bool)

  datatype World = World(group: map<string, int>, flights: map<int, Flight>, callers: map<int, Caller>,
                         nextFlight: int, nextCaller: int, clock: nat)

  const START: World := World(map[], map[], map[], 0, 0, 0)

  /** DoChan: joins the flight of the key, or starts one; the caller is `w.nextCaller`. */
  function Join(w: World, k: Key, nested: bool): World {
    var joins := Render(k) in w.group;
    var f := if joins then w.group[Render(k)] else w.nextFlight;
    w.(group := if joins then w.group else w.group[Render(k) := f],
       flights := if joins then w.flights else w.flights[f := Flight(k, w.clock, Running)],
       nextFlight := if joins then w.nextFlight else w.nextFlight + 1,
       callers := w.callers[w.nextCaller := Caller(k, w.clock, f, Waiting, nested)],
       nextCaller := w.nextCaller + 1)
  }

  function Deliver(callers: map<int, Caller>, f: int, a: Answer): (r: map<int, Caller>)
    ensures r.Keys == callers.Keys
  {
    map c | c in callers ::
      if callers[c].flight == f && callers[c].status.Waiting? then callers[c].(status := Got(a)) else callers[c]
  }

  /** The end of a flight: it leaves the group, and everyone waiting for it is answered. */
  function Finish(w: World, f: int, a: Answer): World
    requires f in w.flights
  {
    var k := Render(w.flights[f].key);
    w.(group := if k in w.group && w.group[k] == f then w.group - {k} else w.group,
       flights := w.flights[f := w.flights[f].(phase := Done(a, w.clock))],
       callers := Deliver(w.callers, f, a))
  }

  /** What the cache and the database say of a token. */
  datatype Verdict = Broken | Invalid | ValidFor(uid: int)

  datatype Action =
    | Begin(key: Key)
    | GiveUp(c: int)
    | FetchUser(f: int, found: bool)
    | CheckToken(f: int, verdict: Verdict)
    | TakeUser(f: int)

  /** A step of the flights, as opposed to one of the outside world. */
  predicate Enabled(w: World, a: Action) {
    match a
    case Begin(_) => false
    case GiveUp(_) => false
    case FetchUser(f, _) => f in w.flights && w.flights[f].phase == Running && w.flights[f].key.UserOf?
    case CheckToken(f, _) => f in w.flights && w.flights[f].phase == Running && w.flights[f].key.ValidateOf?
    case TakeUser(f) => f in w.flights && w.flights[f].phase.Awaiting?
                        && w.flights[f].phase.call in w.callers && w.callers[w.flights[f].phase.call].status.Got?
  }

  function Act(w: World, a: Action): World {
    match a
    case Begin(k) => Join(w, k, false)
    case GiveUp(c) =>
      if c in w.callers && w.callers[c].status.Waiting? && !w.callers[c].nested
      then w.(callers := w.callers[c := w.callers[c].(status := GaveUp)]) else w
    case FetchUser(f, found) =>
      if !Enabled(w, a) then w else Finish(w, f, if found then OfUser(w.flights[f].key.uid) else Failed)
    case CheckToken(f, verdict) =>
      if !Enabled(w, a) then w
      else (match verdict
            case Broken => Finish(w, f, Failed)
            case Invalid => Finish(w, f, OfSession(None))
            case ValidFor(uid) =>
              var v := Join(w, UserOf(uid), true);
              v.(flights := v.flights[f := w.flights[f].(phase := Awaiting(w.nextCaller, uid))]))
    case TakeUser(f) =>
      if !Enabled(w, a) then w
      else
        var phase := w.flights[f].phase;
        var got := w.callers[phase.call].status.answer;
        Finish(w, f, if got.OfUser? then OfSession(Some((phase.uid, got.uid))) else Failed)
  }

  function Step(w: World, a: Action): World {
    Act(w, a).(clock := w.clock + 1)
  }

  function Run(w: World, actions: seq<Action>): World {
    if actions == [] then w else Step(Run(w, actions[..|actions| - 1]), actions[|actions| - 1])
  }

  // ---------------------------------------------------------------- the invariant

  predicate Open(f: Flight) {
    !f.phase.Done?
  }

  /** The group leads from each key in flight to its open flight, and to nothing else. */
  ghost predicate GroupInv(group: map<string, int>, flights: map<int, Flight>) {
    && (forall k :: k in group ==> group[k] in flights && Open(flights[group[k]]) && Render(flights[group[k]].key) == k)
    && (forall f :: f in flights && Open(flights[f]) ==>
        Render(flights[f].key) in group && group[Render(flights[f].key)] == f)
  }

  ghost predicate FlightInv(w: World, f: Flight) {
    && f.startedAt < w.clock
    && match f.phase
       case Running => true
       case Awaiting(c, uid) => f.key.ValidateOf? && c in w.callers && w.callers[c].nested
                                && w.callers[c].key == UserOf(uid) && !w.callers[c].status.GaveUp?
       case Done(a, at) => Fits(f.key, a) && f.startedAt < at < w.clock
  }

  /** A caller is with a flight of its own key that was running when the call began, and has exactly
      what the flight produced. */
  ghost predicate CallerInv(w: World, c: Caller) {
    && c.begunAt < w.clock && c.flight in w.flights
    && var f := w.flights[c.flight];
       && f.key == c.key && f.startedAt <= c.begunAt
       && (f.phase.Done? ==> c.begunAt < f.phase.at)
       && match c.status
          case Waiting => Open(f)
          case GaveUp => !c.nested
          case Got(a) => f.phase.Done? && f.phase.answer == a
  }

  ghost predicate Inv(w: World) {
    && GroupInv(w.group, w.flights)
    && (forall f :: f in w.flights ==> f < w.nextFlight && FlightInv(w, w.flights[f]))
    && (forall c :: c in w.callers ==> c < w.nextCaller && CallerInv(w, w.callers[c]))
  }

  lemma JoinKeeps(w: World, k: Key, nested: bool)
    requires Inv(w)
    ensures Inv(Join(w, k, nested).(clock := w.clock + 1))
  {
    var v := Join(w, k, nested).(clock := w.clock + 1);
    if Render(k) in w.group { RenderInjective(w.flights[w.group[Render(k)]].key, k); }
    JoinGroup(w, k, nested);
    forall c | c in v.callers ensures c < v.nextCaller && CallerInv(v, v.callers[c]) {
      if c != w.nextCaller { assert CallerInv(w, w.callers[c]); }
    }
    forall f | f in v.flights ensures f < v.nextFlight && FlightInv(v, v.flights[f]) {
      if f in w.flights { assert FlightInv(w, w.flights[f]); }
    }
  }

  lemma JoinGroup(w: World, k: Key, nested: bool)
    requires Inv(w)
    ensures GroupInv(Join(w, k, nested).group, Join(w, k, nested).flights)
  {
  }

  lemma FinishGroup(w: World, f: int, a: Answer)
    requires Inv(w) && f in w.flights && Open(w.flights[f])
    ensures GroupInv(Finish(w, f, a).group, Finish(w, f, a).flights)
  {
  }

  lemma FinishCallers(w: World, f: int, a: Answer)
    requires Inv(w) && f in w.flights && Open(w.flights[f])
    ensures var v := Finish(w, f, a).(clock := w.clock + 1);
            forall c :: c in v.callers ==> CallerInv(v, v.callers[c])
  {
    var v := Finish(w, f, a).(clock := w.clock + 1);
    forall c | c in v.callers ensures CallerInv(v, v.callers[c]) {
      assert CallerInv(w, w.callers[c]);
    }
  }

  lemma FinishKeeps(w: World, f: int, a: Answer)
    requires Inv(w) && f in w.flights && Open(w.flights[f]) && Fits(w.flights[f].key, a)
    ensures Inv(Finish(w, f, a).(clock := w.clock + 1))
  {
    var v := Finish(w, f, a).(clock := w.clock + 1);
    FinishGroup(w, f, a);
    FinishCallers(w, f, a);
    forall g | g in v.flights ensures g < v.nextFlight && FlightInv(v, v.flights[g]) {
      assert FlightInv(w, w.flights[g]);
    }
  }

  lemma AwaitKeeps(w: World, f: int, uid: int)
    requires Inv(w) && f in w.flights && w.flights[f].phase == Running && w.flights[f].key.ValidateOf?
    ensures Inv(Step(w, CheckToken(f, ValidFor(uid))))
  {
    JoinKeeps(w, UserOf(uid), true);
    var u := Join(w, UserOf(uid), true).(clock := w.clock + 1);
    var v := Step(w, CheckToken(f, ValidFor(uid)));
    assert v == u.(flights := u.flights[f := w.flights[f].(phase := Awaiting(w.nextCaller, uid))]);
    assert GroupInv(v.group, v.flights);
    forall c | c in v.callers ensures c < v.nextCaller && CallerInv(v, v.callers[c]) {
      assert CallerInv(u, u.callers[c]);
    }
    forall g | g in v.flights ensures g < v.nextFlight && FlightInv(v, v.flights[g]) {
      assert FlightInv(u, u.flights[g]);
    }
  }

  lemma GiveUpKeeps(w: World, c: int)
    requires Inv(w)
    ensures Inv(Step(w, GiveUp(c)))
  {
    var v := Step(w, GiveUp(c));
    forall d | d in v.callers ensures d < v.nextCaller && CallerInv(v, v.callers[d]) {
      assert CallerInv(w, w.callers[d]);
    }
    forall g | g in v.flights ensures g < v.nextFlight && FlightInv(v, v.flights[g]) {
      assert FlightInv(w, w.flights[g]);
    }
  }

  lemma StepKeeps(w: World, a: Action)
    requires Inv(w)
    ensures Inv(Step(w, a))
  {
    if a.Begin? { JoinKeeps(w, a.key, false); }
    else if a.GiveUp? { GiveUpKeeps(w, a.c); }
    else if !Enabled(w, a) { GiveUpKeeps(w, w.nextCaller); }
    else { FlightStepKeeps(w, a); }
  }

  lemma FlightStepKeeps(w: World, a: Action)
    requires Inv(w) && Enabled(w, a) && !a.Begin? && !a.GiveUp?
    ensures Inv(Step(w, a))
  {
    if a.FetchUser? { FetchUserKeeps(w, a.f, a.found); }
    else if a.CheckToken? { CheckTokenKeeps(w, a.f, a.verdict); }
    else { TakeUserKeeps(w, a.f); }
  }

  lemma FetchUserKeeps(w: World, f: int, found: bool)
    requires Inv(w) && Enabled(w, FetchUser(f, found))
    ensures Inv(Step(w, FetchUser(f, found)))
  {
    FinishKeeps(w, f, if found then OfUser(w.flights[f].key.uid) else Failed);
  }

  lemma CheckTokenKeeps(w: World, f: int, verdict: Verdict)
    requires Inv(w) && Enabled(w, CheckToken(f, verdict))
    ensures Inv(Step(w, CheckToken(f, verdict)))
  {
    if verdict.ValidFor? { AwaitKeeps(w, f, verdict.uid); }
    else { FinishKeeps(w, f, if verdict.Broken? then Failed else OfSession(None)); }
  }

  lemma TakeUserKeeps(w: World, f: int)
    requires Inv(w) && Enabled(w, TakeUser(f))
    ensures Inv(Step(w, TakeUser(f)))
  {
    TakenFits(w, f);
    FinishKeeps(w, f, Taken(w, f));
    assert Step(w, TakeUser(f)) == Finish(w, f, Taken(w, f)).(clock := w.clock + 1);
  }

  /** What a validation makes of the answer of its nested call. */
  function Taken(w: World, f: int): Answer
    requires Enabled(w, TakeUser(f))
  {
    var phase := w.flights[f].phase;
    var got := w.callers[phase.call].status.answer;
    if got.OfUser? then OfSession(Some((phase.uid, got.uid))) else Failed
  }

  /** What the nested call brings is the data of the user the token is valid for. */
  lemma TakenFits(w: World, f: int)
    requires Inv(w) && Enabled(w, TakeUser(f))
    ensures Fits(w.flights[f].key, Taken(w, f)) && Open(w.flights[f])
  {
    var call := w.callers[w.flights[f].phase.call];
    assert FlightInv(w, w.flights[f]) && CallerInv(w, call);
    assert FlightInv(w, w.flights[call.flight]);
  }

  lemma {:induction false} Reachable(actions: seq<Action>)
    ensures Inv(Run(START, actions))
  {
    if actions != [] {
      Reachable(actions[..|actions| - 1]);
      StepKeeps(Run(START, actions[..|actions| - 1]), actions[|actions| - 1]);
    }
  }

  // ---------------------------------------------------------------- theorems

  /** At most one flight of a key is open at a time. */
  lemma OneFlightPerKey(actions: seq<Action>, f: int, g: int)
    requires var w := Run(START, actions);
             f in w.flights && g in w.flights && Open(w.flights[f]) && Open(w.flights[g])
             && Render(w.flights[f].key) == Render(w.flights[g].key)
    ensures f == g
  {
    Reachable(actions);
  }

  /** Whoever is answered gets the answer of a flight of the very key asked for, which was running
      when the call began; and the type assertion on it holds. */
  lemma AnswersFit(actions: seq<Action>, c: int)
    requires var w := Run(START, actions); c in w.callers && w.callers[c].status.Got?
    ensures var w := Run(START, actions);
            var call := w.callers[c];
            && Fits(call.key, call.status.answer)
            && call.flight in w.flights
            && var f := w.flights[call.flight];
               f.key == call.key && f.phase.Done? && f.phase.answer == call.status.answer
               && f.startedAt <= call.begunAt < f.phase.at
  {
    Reachable(actions);
    var w := Run(START, actions);
    assert CallerInv(w, w.callers[c]);
    assert FlightInv(w, w.flights[w.callers[c].flight]);
  }

  /** Flight f cannot go on before flight g ends. */
  ghost predicate WaitsFor(w: World, f: int, g: int) {
    && f in w.flights && w.flights[f].phase.Awaiting?
    && var c := w.flights[f].phase.call;
       c in w.callers && w.callers[c].status.Waiting? && w.callers[c].flight == g
  }

  /** Only validations wait, and only for user lookups, which wait for nothing. */
  lemma WaitingIsShallow(actions: seq<Action>, f: int, g: int, h: int)
    requires WaitsFor(Run(START, actions), f, g)
    ensures var w := Run(START, actions);
            && g in w.flights && w.flights[f].key.ValidateOf? && w.flights[g].key.UserOf? && !WaitsFor(w, g, h)
  {
    Reachable(actions);
    var w := Run(START, actions);
    assert FlightInv(w, w.flights[f]);
    assert CallerInv(w, w.callers[w.flights[f].phase.call]);
    assert FlightInv(w, w.flights[g]);
  }

  /** While a flight is open, some flight can take a step. */
  lemma Progress(w: World, f: int) returns (a: Action)
    requires Inv(w) && f in w.flights && Open(w.flights[f])
    ensures Enabled(w, a)
  {
    var flight := w.flights[f];
    assert FlightInv(w, flight);
    if flight.phase.Running? {
      a := if flight.key.UserOf? then FetchUser(f, true) else CheckToken(f, Invalid);
    } else {
      var call := w.callers[flight.phase.call];
      assert CallerInv(w, call) && FlightInv(w, w.flights[call.flight]);
      a := if call.status.Got? then TakeUser(f) else FetchUser(call.flight, true);
    }
  }

  ghost function OpenFlights(w: World): set<int> {
    set f | f in w.flights && Open(w.flights[f])
  }

  ghost function Validating(w: World): set<int> {
    set f | f in w.flights && w.flights[f].phase.Running? && w.flights[f].key.ValidateOf?
  }

  /** Steps the flights can still take: a validation that has not asked for its user may add a flight. */
  ghost function Remaining(w: World): nat {
    |OpenFlights(w)| + 2 * |Validating(w)|
  }

  lemma FinishRemains(w: World, f: int, a: Answer)
    requires f in w.flights && Open(w.flights[f])
    ensures var v := Finish(w, f, a);
            OpenFlights(v) == OpenFlights(w) - {f} && Validating(v) == Validating(w) - {f}
  {
  }

  lemma AwaitRemains(w: World, f: int, uid: int)
    requires Inv(w) && Enabled(w, CheckToken(f, ValidFor(uid)))
    ensures var v := Step(w, CheckToken(f, ValidFor(uid)));
            OpenFlights(v) <= OpenFlights(w) + {w.nextFlight} && Validating(v) == Validating(w) - {f}
  {
  }

  lemma AtMostOneMore(after: set<int>, before: set<int>, x: int)
    requires after <= before + {x}
    ensures |after| <= |before| + 1
  {
    assert before + {x} == after + (before + {x} - after);
  }

  lemma OneFewer(s: set<int>, x: int)
    requires x in s
    ensures |s - {x}| == |s| - 1
  {
  }

  /** Every step of the flights leaves fewer of them to take. */
  lemma StepsRunOut(w: World, a: Action)
    requires Inv(w) && Enabled(w, a)
    ensures Remaining(Step(w, a)) < Remaining(w)
  {
    if a.CheckToken? && a.verdict.ValidFor? {
      var v := Step(w, a);
      AwaitRemains(w, a.f, a.verdict.uid);
      AtMostOneMore(OpenFlights(v), OpenFlights(w), w.nextFlight);
      OneFewer(Validating(w), a.f);
    } else {
      EndingRunsOut(w, a);
    }
  }

  lemma EndingRunsOut(w: World, a: Action)
    requires Enabled(w, a) && !(a.CheckToken? && a.verdict.ValidFor?)
    ensures Remaining(Step(w, a)) < Remaining(w)
  {
    var v := Step(w, a);
    FinishRemains(w, a.f, Failed);
    assert OpenFlights(v) == OpenFlights(w) - {a.f} && Validating(v) == Validating(w) - {a.f};
    assert a.f in OpenFlights(w);
  }

  /** No deadlock: from every state of the invariant the flights alone, in at most `Remaining` steps,
      reach one in which nobody waits. */
  lemma {:induction false} EveryoneIsAnswered(w: World) returns (schedule: seq<Action>)
    requires Inv(w)
    ensures |schedule| <= Remaining(w) && EachEnabled(w, schedule)
    ensures var v := Run(w, schedule); Inv(v) && forall c :: c in v.callers ==> !v.callers[c].status.Waiting?
    decreases Remaining(w)
  {
    schedule := [];
    if f :| f in w.flights && Open(w.flights[f]) {
      var a := Progress(w, f);
      StepsRunOut(w, a);
      StepKeeps(w, a);
      var rest := EveryoneIsAnswered(Step(w, a));
      schedule := [a] + rest;
      EnabledFrom(w, a, rest);
      RunFrom(w, a, rest);
    } else {
      forall c | c in w.callers ensures !w.callers[c].status.Waiting? { assert CallerInv(w, w.callers[c]); }
    }
  }

  /** Each action of the schedule is enabled where its turn comes. */
  ghost predicate EachEnabled(w: World, schedule: seq<Action>) {
    forall i :: 0 <= i < |schedule| ==> Enabled(Run(w, schedule[..i]), schedule[i])
  }

  lemma EnabledFrom(w: World, a: Action, rest: seq<Action>)
    requires Enabled(w, a) && EachEnabled(Step(w, a), rest)
    ensures EachEnabled(w, [a] + rest)
  {
    forall i | 0 <= i < |[a] + rest| ensures Enabled(Run(w, ([a] + rest)[..i]), ([a] + rest)[i]) {
      RunBefore(w, a, rest, i);
    }
  }

  /** Where action i of a schedule begins. */
  lemma RunBefore(w: World, a: Action, rest: seq<Action>, i: nat)
    requires i <= |rest|
    ensures Run(w, ([a] + rest)[..i]) == if i == 0 then w else Run(Step(w, a), rest[..i - 1])
  {
    if i > 0 {
      RunFrom(w, a, rest[..i - 1]);
      assert ([a] + rest)[..i] == [a] + rest[..i - 1];
    }
  }

  lemma {:induction false} RunFrom(w: World, a: Action, rest: seq<Action>)
    ensures Run(w, [a] + rest) == Run(Step(w, a), rest)
  {
    var all := [a] + rest;
    if rest == [] {
      assert all[..0] == [];
    } else {
      RunFrom(w, a, rest[..|rest| - 1]);
      assert all[..|all| - 1] == [a] + rest[..|rest| - 1];
    }
  }

  // ---------------------------------------------------------------- what is answered

  /** Action i of the schedule was this step, and it could be taken. */
  ghost predicate Took(actions: seq<Action>, i: nat, a: Action) {
    i < |actions| && actions[i] == a && Enabled(Run(START, actions[..i]), a)
  }

  /** Flight g looked up this user, and found it or not. */
  ghost predicate Fetched(actions: seq<Action>, g: int, uid: int, found: bool) {
    exists i: nat :: Took(actions, i, FetchUser(g, found)) && Run(START, actions[..i]).flights[g].key == UserOf(uid)
  }

  /** Flight f was told this of its token. */
  ghost predicate Checked(actions: seq<Action>, f: int, verdict: Verdict) {
    exists i: nat :: Took(actions, i, CheckToken(f, verdict))
  }

  /** The answer for a user: its data when the lookup found it, else a failure. */
  ghost predicate UserAnswer(actions: seq<Action>, g: int, uid: int, a: Answer) {
    exists found: bool :: Fetched(actions, g, uid, found) && a == if found then OfUser(uid) else Failed
  }

  /** The answer for a valid token: its owner with the data that some flight for that user found. */
  ghost predicate OwnerAnswer(actions: seq<Action>, uid: int, a: Answer) {
    exists g: int, found: bool ::
      Fetched(actions, g, uid, found) && a == if found then OfSession(Some((uid, uid))) else Failed
  }

  ghost predicate VerdictAnswer(actions: seq<Action>, verdict: Verdict, a: Answer) {
    match verdict
    case Broken => a == Failed
    case Invalid => a == OfSession(None)
    case ValidFor(uid) => OwnerAnswer(actions, uid, a)
  }

  ghost predicate Answers(actions: seq<Action>, f: int, key: Key, a: Answer) {
    match key
    case UserOf(uid) => UserAnswer(actions, f, uid, a)
    case ValidateOf(_) => exists verdict :: Checked(actions, f, verdict) && VerdictAnswer(actions, verdict, a)
  }

  ghost predicate Explained(actions: seq<Action>, f: int, flight: Flight) {
    match flight.phase
    case Running => true
    case Awaiting(c, uid) => flight.key.ValidateOf? && Checked(actions, f, ValidFor(uid))
    case Done(a, at) => Answers(actions, f, flight.key, a)
  }

  lemma TookStays(before: seq<Action>, a: Action, i: nat, b: Action)
    requires Took(before, i, b)
    ensures Took(before + [a], i, b) && (before + [a])[..i] == before[..i]
  {
    assert (before + [a])[..i] == before[..i];
  }

  lemma FetchedStays(before: seq<Action>, a: Action, g: int, uid: int, found: bool)
    requires Fetched(before, g, uid, found)
    ensures Fetched(before + [a], g, uid, found)
  {
    var i: nat :| Took(before, i, FetchUser(g, found)) && Run(START, before[..i]).flights[g].key == UserOf(uid);
    TookStays(before, a, i, FetchUser(g, found));
  }

  lemma CheckedStays(before: seq<Action>, a: Action, f: int, verdict: Verdict)
    requires Checked(before, f, verdict)
    ensures Checked(before + [a], f, verdict)
  {
    var i: nat :| Took(before, i, CheckToken(f, verdict));
    TookStays(before, a, i, CheckToken(f, verdict));
  }

  lemma VerdictAnswerStays(before: seq<Action>, a: Action, verdict: Verdict, answer: Answer)
    requires VerdictAnswer(before, verdict, answer)
    ensures VerdictAnswer(before + [a], verdict, answer)
  {
    if verdict.ValidFor? {
      var g: int, found: bool :| Fetched(before, g, verdict.uid, found)
                                 && answer == if found then OfSession(Some((verdict.uid, verdict.uid))) else Failed;
      FetchedStays(before, a, g, verdict.uid, found);
    }
  }

  lemma ExplainedStays(before: seq<Action>, a: Action, f: int, flight: Flight)
    requires Explained(before, f, flight)
    ensures Explained(before + [a], f, flight)
  {
    if flight.phase.Awaiting? {
      CheckedStays(before, a, f, ValidFor(flight.phase.uid));
    } else if flight.phase.Done? && flight.key.UserOf? {
      var found: bool :| Fetched(before, f, flight.key.uid, found)
                         && flight.phase.answer == if found then OfUser(flight.key.uid) else Failed;
      FetchedStays(before, a, f, flight.key.uid, found);
    } else if flight.phase.Done? {
      var verdict :| Checked(before, f, verdict) && VerdictAnswer(before, verdict, flight.phase.answer);
      CheckedStays(before, a, f, verdict);
      VerdictAnswerStays(before, a, verdict, flight.phase.answer);
    }
  }

  lemma TookLast(before: seq<Action>, a: Action)
    requires Enabled(Run(START, before), a)
    ensures Took(before + [a], |before|, a) && (before + [a])[..|before|] == before
  {
    assert (before + [a])[..|before|] == before;
  }

  /** A validation that takes what its nested call brought. */
  lemma TakingIsExplained(before: seq<Action>, f: int)
    requires var w := Run(START, before);
             Inv(w) && Enabled(w, TakeUser(f)) && forall g :: g in w.flights ==> Explained(before, g, w.flights[g])
    ensures var w := Run(START, before); Answers(before + [TakeUser(f)], f, w.flights[f].key, Taken(w, f))
  {
    var w := Run(START, before);
    var phase := w.flights[f].phase;
    var call := w.callers[phase.call];
    assert FlightInv(w, w.flights[f]) && CallerInv(w, call);
    assert Explained(before, call.flight, w.flights[call.flight]);
    var found: bool :| Fetched(before, call.flight, phase.uid, found)
                       && call.status.answer == if found then OfUser(phase.uid) else Failed;
    FetchedStays(before, TakeUser(f), call.flight, phase.uid, found);
    assert Explained(before, f, w.flights[f]);
    CheckedStays(before, TakeUser(f), f, ValidFor(phase.uid));
    assert OwnerAnswer(before + [TakeUser(f)], phase.uid, Taken(w, f));
    assert VerdictAnswer(before + [TakeUser(f)], ValidFor(phase.uid), Taken(w, f));
  }

  /** The answer that a step gives to the flight it ends. */
  function EndingAnswer(w: World, a: Action): Answer
    requires Enabled(w, a) && !(a.CheckToken? && a.verdict.ValidFor?)
  {
    if a.FetchUser? then (if a.found then OfUser(w.flights[a.f].key.uid) else Failed)
    else if a.CheckToken? then (if a.verdict.Broken? then Failed else OfSession(None))
    else Taken(w, a.f)
  }

  /** The step ended flight f with this answer. */
  predicate Ended(w: World, a: Action, f: int, answer: Answer)
    requires f in w.flights
  {
    f in Step(w, a).flights && Step(w, a).flights[f] == Flight(w.flights[f].key, w.flights[f].startedAt,
                                                               Done(answer, w.clock))
  }

  lemma OutsideStep(w: World, a: Action, f: int)
    requires (a.Begin? || a.GiveUp?) && f in Step(w, a).flights && (forall g :: g in w.flights ==> g < w.nextFlight)
    ensures Step(w, a).flights[f].phase.Running? || (f in w.flights && Step(w, a).flights[f] == w.flights[f])
    ensures f in w.flights ==> Step(w, a).flights[f] == w.flights[f]
  {
  }

  lemma EndingStep(w: World, a: Action)
    requires Enabled(w, a) && !(a.CheckToken? && a.verdict.ValidFor?)
    ensures Ended(w, a, a.f, EndingAnswer(w, a))
    ensures Step(w, a).flights.Keys == w.flights.Keys
    ensures forall f :: f in w.flights && f != a.f ==> Step(w, a).flights[f] == w.flights[f]
  {
  }

  lemma AwaitingStep(w: World, f: int, uid: int)
    requires Inv(w) && Enabled(w, CheckToken(f, ValidFor(uid)))
    ensures var v := Step(w, CheckToken(f, ValidFor(uid)));
            && f in v.flights && v.flights[f] == w.flights[f].(phase := Awaiting(w.nextCaller, uid))
            && (forall g :: g in w.flights && g != f ==> g in v.flights && v.flights[g] == w.flights[g])
            && (forall g :: g in v.flights && g !in w.flights ==> v.flights[g].phase.Running?)
  {
  }

  lemma EndingIsExplained(before: seq<Action>, a: Action)
    requires var w := Run(START, before);
             Inv(w) && Enabled(w, a) && forall g :: g in w.flights ==> Explained(before, g, w.flights[g])
    requires !(a.CheckToken? && a.verdict.ValidFor?)
    ensures Explained(before + [a], a.f, Step(Run(START, before), a).flights[a.f])
  {
    var w := Run(START, before);
    TookLast(before, a);
    if a.FetchUser? {
      EndingStep(w, a);
      assert Fetched(before + [a], a.f, w.flights[a.f].key.uid, a.found);
    } else if a.CheckToken? {
      EndingStep(w, a);
      assert Checked(before + [a], a.f, a.verdict);
    } else {
      EndingStep(w, a);
      TakingIsExplained(before, a.f);
    }
  }

  lemma AwaitingIsExplained(before: seq<Action>, f: int, uid: int)
    requires Inv(Run(START, before)) && Enabled(Run(START, before), CheckToken(f, ValidFor(uid)))
    ensures var a := CheckToken(f, ValidFor(uid)); Explained(before + [a], f, Step(Run(START, before), a).flights[f])
  {
    TookLast(before, CheckToken(f, ValidFor(uid)));
    AwaitingStep(Run(START, before), f, uid);
    assert Checked(before + [CheckToken(f, ValidFor(uid))], f, ValidFor(uid));
  }

  /** A step touches no flight but its own; a flight that it adds is running. */
  lemma OtherFlights(w: World, a: Action, f: int)
    requires Inv(w) && f in Step(w, a).flights && (Enabled(w, a) ==> a.f != f)
    ensures Step(w, a).flights[f].phase.Running? || (f in w.flights && Step(w, a).flights[f] == w.flights[f])
    ensures f in w.flights ==> Step(w, a).flights[f] == w.flights[f]
  {
    if a.Begin? || a.GiveUp? { OutsideStep(w, a, f); }
    else if Enabled(w, a) {
      if a.CheckToken? && a.verdict.ValidFor? { AwaitingStep(w, a.f, a.verdict.uid); }
      else { EndingStep(w, a); }
    } else {
      assert Step(w, a).flights == w.flights;
    }
  }

  lemma StepIsExplained(before: seq<Action>, a: Action, f: int)
    requires var w := Run(START, before);
             Inv(w) && forall g :: g in w.flights ==> Explained(before, g, w.flights[g])
    requires f in Step(Run(START, before), a).flights
    ensures Explained(before + [a], f, Step(Run(START, before), a).flights[f])
  {
    var w := Run(START, before);
    if Enabled(w, a) && a.f == f {
      if a.CheckToken? && a.verdict.ValidFor? { AwaitingIsExplained(before, f, a.verdict.uid); }
      else { EndingIsExplained(before, a); }
    } else {
      OtherFlights(w, a, f);
      if f in w.flights { ExplainedStays(before, a, f, w.flights[f]); }
    }
  }

  lemma {:induction false} AllExplained(actions: seq<Action>)
    ensures forall f :: f in Run(START, actions).flights ==> Explained(actions, f, Run(START, actions).flights[f])
  {
    if actions != [] {
      var n := |actions| - 1;
      AllExplained(actions[..n]);
      Reachable(actions[..n]);
      forall f | f in Run(START, actions).flights ensures Explained(actions, f, Run(START, actions).flights[f]) {
        StepIsExplained(actions[..n], actions[n], f);
        assert actions[..n] + [actions[n]] == actions;
      }
    }
  }

  /** What a caller gets is decided by what its flight was told: of a user, the data if the lookup of the
      flight found it, else a failure; of a token, a failure when the check failed, no owner when it is
      invalid, and when it is valid the owner with the data of that very user, if a lookup of it found
      it, else a failure. */
  lemma AnswersAreTold(actions: seq<Action>, c: int)
    requires var w := Run(START, actions); c in w.callers && w.callers[c].status.Got?
    ensures var call := Run(START, actions).callers[c]; Answers(actions, call.flight, call.key, call.status.answer)
  {
    Reachable(actions);
    AllExplained(actions);
    var w := Run(START, actions);
    assert CallerInv(w, w.callers[c]);
    assert Explained(actions, w.callers[c].flight, w.flights[w.callers[c].flight]);
  }

  /** The flight has been told something. */
  predicate IsTold(w: World, f: int) {
    f in w.flights && !w.flights[f].phase.Running?
  }

  lemma FlightAdvances(w: World, a: Action, f: int)
    requires Inv(w) && IsTold(w, f)
    ensures IsTold(Step(w, a), f)
  {
    FlightsStay(w, a, f);
    if Enabled(w, a) && a.f == f {
      EndingStep(w, a);
    } else {
      OtherFlights(w, a, f);
    }
  }

  lemma FlightsStay(w: World, a: Action, f: int)
    requires f in w.flights
    ensures f in Step(w, a).flights
  {
  }

  lemma RunNext(actions: seq<Action>, n: nat)
    requires n < |actions|
    ensures Run(START, actions[..n + 1]) == Step(Run(START, actions[..n]), actions[n])
  {
    assert actions[..n + 1][..n] == actions[..n];
  }

  lemma {:induction false} PhasesAdvance(actions: seq<Action>, m: nat, n: nat, f: int)
    requires m <= n <= |actions| && IsTold(Run(START, actions[..m]), f)
    ensures IsTold(Run(START, actions[..n]), f)
  {
    if m < n {
      PhasesAdvance(actions, m, n - 1, f);
      Reachable(actions[..n - 1]);
      RunNext(actions, n - 1);
      FlightAdvances(Run(START, actions[..n - 1]), actions[n - 1], f);
    }
  }

  /** A flight is told once, so these answers are the only ones. */
  lemma ToldOnce(actions: seq<Action>, i: nat, j: nat, a: Action, b: Action)
    requires Took(actions, i, a) && Took(actions, j, b) && !a.TakeUser? && !b.TakeUser? && a.f == b.f
    ensures i == j
  {
    if i < j { ToldBefore(actions, i, j, a, b); }
    if j < i { ToldBefore(actions, j, i, b, a); }
  }

  lemma ToldBefore(actions: seq<Action>, i: nat, j: nat, a: Action, b: Action)
    requires Took(actions, i, a) && !a.TakeUser? && i < j <= |actions|
    requires (b.FetchUser? || b.CheckToken?) && b.f == a.f
    ensures !Enabled(Run(START, actions[..j]), b)
  {
    Reachable(actions[..i]);
    RunNext(actions, i);
    var w := Run(START, actions[..i]);
    if a.CheckToken? && a.verdict.ValidFor? { AwaitingStep(w, a.f, a.verdict.uid); }
    else { EndingStep(w, a); }
    PhasesAdvance(actions, i + 1, j, a.f);
  }

  /** A caller from outside that is waiting can always leave, which changes nothing for anyone else. */
  lemma LeavingIsFree(w: World, c: int)
    requires c in w.callers && w.callers[c].status.Waiting? && !w.callers[c].nested
    ensures var v := Step(w, GiveUp(c));
            && v.callers == w.callers[c := w.callers[c].(status := GaveUp)]
            && v.group == w.group && v.flights == w.flights
  {
  }
}
