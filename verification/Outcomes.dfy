/** When a call succeeds and what it has done then, for every environment: whatever the clock shows,
    the random source draws and fails. Said of the tables alone, row by row. */
module Outcomes {
  import opened Domain
  import opened Tables
  import opened CacheStates
  import opened Runs
  import O = Operations
  import Usernames
  import UsernameChoice

  // ---------------------------------------------------------------- words for the tables

  ghost predicate EmailFree(users: map<int, User>, email: string) {
    forall u :: u in users ==> users[u].email != email
  }

  ghost predicate NameFree(users: map<int, User>, name: string) {
    forall u :: u in users ==> users[u].username != Some(name)
  }

  function Spelled(email: string, digits: string): string {
    Usernames.EmailPrefix(email) + "_" + digits
  }

  /** Draw k is one of the first ten and gives this name, which nobody holds; the names of the draws
      before it are held; nothing failed up to it, and the name fits into 100 bytes. */
  ghost predicate ChosenAt(users: map<int, User>, email: string, draws: seq<O.Draw>, k: nat, name: string) {
    && k < 10 && k < |draws| && |Usernames.EmailPrefix(email)| <= 93
    && (forall j :: 0 <= j <= k ==> draws[j].digits.Some? && !draws[j].lookupFails)
    && (forall j :: 0 <= j < k ==> !NameFree(users, Spelled(email, draws[j].digits.value)))
    && name == Spelled(email, draws[k].digits.value) && NameFree(users, name)
  }

  ghost predicate Chosen(users: map<int, User>, email: string, draws: seq<O.Draw>, name: string) {
    exists k: nat :: ChosenAt(users, email, draws, k, name)
  }

  lemma ChosenIsPicked(db: Store, email: string, draws: seq<O.Draw>, name: string)
    requires Chosen(db.users, email, draws, name)
    ensures O.PickName(db, email, draws, Usernames.MAX_TRIES) == Some(name)
  {
    var k: nat :| ChosenAt(db.users, email, draws, k, name);
    assert forall j :: 0 <= j <= k ==>
             UsernameChoice.NameOf(email, draws, j) == Spelled(email, draws[j].digits.value);
    UsernameChoice.PickNameFinds(db, email, draws, Usernames.MAX_TRIES, k);
  }

  lemma PickedIsChosen(db: Store, email: string, draws: seq<O.Draw>)
    requires O.PickName(db, email, draws, Usernames.MAX_TRIES).Some?
    ensures Chosen(db.users, email, draws, O.PickName(db, email, draws, Usernames.MAX_TRIES).value)
  {
    var k := UsernameChoice.PickedIsFirstFree(db, email, draws, Usernames.MAX_TRIES);
    UsernameChoice.PickNameFinds(db, email, draws, Usernames.MAX_TRIES, k);
    assert forall j :: 0 <= j <= k ==>
             UsernameChoice.NameOf(email, draws, j) == Spelled(email, draws[j].digits.value);
    assert ChosenAt(db.users, email, draws, k, UsernameChoice.NameOf(email, draws, k));
  }

  /** The row a call that lets user u in adds for the token it drew. */
  function Fresh(cfg: O.Config, id: int, u: int, env: O.Env): Session {
    Session(id, u, HashToken(env.token, cfg.secret), env.now + cfg.ttl, None, env.now)
  }

  const OPENING: set<CallSite> := {Randomness, Domain.CreateSession}

  /** One more session, of user u, and nothing else. */
  ghost predicate Opens(cfg: O.Config, u: int, env: O.Env, a: Store, b: Store) {
    && b.sessions == a.sessions[a.nextSession := Fresh(cfg, a.nextSession, u, env)]
    && b.users == a.users && b.credentials == a.credentials && b.otps == a.otps && b.links == a.links
  }

  /** A session is opened exactly when the random source and the INSERT work, and it lives for the TTL. */
  lemma OpeningOutcome(cfg: O.Config, s: O.State, u: int, env: O.Env)
    requires Wf(s.db) && u in s.db.users && !TokenHashTaken(s.db, HashToken(env.token, cfg.secret))
    ensures var (t, expiresAt) := O.OpenSession(cfg, s, u, env);
            && (expiresAt.Some? <==> env.faults !! OPENING)
            && (expiresAt.Some? ==> expiresAt.value == env.now + cfg.ttl && Opens(cfg, u, env, s.db, t.db))
  {
  }

  // ---------------------------------------------------------------- a call inside a run

  /** The tables before call k of a run, and after it. */
  ghost function Before(sys: Service, cache: CacheState, calls: seq<Call>, k: nat): Store
    requires k < |calls|
  {
    After(sys, Empty(cache), calls[..k]).db
  }

  ghost function Behind(sys: Service, cache: CacheState, calls: seq<Call>, k: nat): Store
    requires k < |calls|
  {
    After(sys, Empty(cache), calls[..k + 1]).db
  }

  /** In a lawful run the constraints hold before every call, and what the call draws is new. */
  lemma CallIsSound(sys: Service, cache: CacheState, calls: seq<Call>, k: nat)
    requires Lawful(calls) && k < |calls|
    ensures var db := Before(sys, cache, calls, k);
            && Wf(db) && !TokenHashTaken(db, HashToken(calls[k].env.token, sys.config.secret))
            && !OtpHashTaken(db, calls[k].env.otpHash)
    ensures var s := After(sys, Empty(cache), calls[..k]);
            sys.step(s, calls[k]) == (After(sys, Empty(cache), calls[..k + 1]), Answer(sys, Empty(cache), calls, k))
  {
    AfterIsSound(sys, cache, calls[..k]);
    AfterNext(sys, Empty(cache), calls, k);
    assert calls[..k] + [calls[k]] == calls[..k + 1];
    NextIsFresh(sys, cache, calls[..k], calls[k]);
  }
}
