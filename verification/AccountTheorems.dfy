/** Verified owners, stable provider identities and referential closure, over every interleaving. */
module AccountTheorems {
  import opened Domain
  import opened Tables
  import opened Flights
  import opened Interleaving
  import opened TokenInvariant
  import opened AccountInvariant
  import TokenSteps
  import O = Operations

  lemma ReachableAccounts(cfg: Config, now: nat, actions: seq<Action>)
    ensures TokenInv(cfg, Run(cfg, Start(now), actions)) && AccountInv(Run(cfg, Start(now), actions))
  {
    TokenSteps.RunKeeps(cfg, Start(now), actions);
    RunKeepsAccounts(cfg, Start(now), actions);
  }

  /** Only verified users hold sessions, every provider link leads to a verified user, and a user
      is verified exactly when it has a username. */
  lemma OnlyVerifiedUsersHoldSessions(cfg: Config, now: nat, actions: seq<Action>, u: int)
    requires u in Run(cfg, Start(now), actions).db.users
    ensures var db := Run(cfg, Start(now), actions).db;
            && (db.users[u].verified <==> db.users[u].username.Some?)
            && ((exists i :: i in db.sessions && db.sessions[i].userId == u) ==> db.users[u].verified)
            && ((exists k :: k in db.links && db.links[k].userId == u) ==> db.users[u].verified)
  {
    ReachableAccounts(cfg, now, actions);
  }

  /** No step brings back a user, renames one or withdraws a verification. */
  lemma StepEvolvesUsers(cfg: Config, w: World, a: Action)
    requires Wf(w.db)
    ensures var b := Step(cfg, w, a).db;
            w.db.nextUser <= b.nextUser && UsersEvolve(w.db.users, w.db.nextUser, b.users)
  {
    if a.Advance? && a.f in w.flights && w.flights[a.f].OfAccount? {
      AccountStepKeeps(w.db, w.flights[a.f].account, w.now, cfg.otpExpiry, a.c);
    } else {
      OtherStepsKeepUsers(cfg, w, a);
    }
  }

  lemma OtherStepsKeepUsers(cfg: Config, w: World, a: Action)
    requires !(a.Advance? && a.f in w.flights && w.flights[a.f].OfAccount?)
    ensures Step(cfg, w, a).db.users == w.db.users && Step(cfg, w, a).db.nextUser == w.db.nextUser
  {
  }

  lemma StepKeepsTrusted(cfg: Config, w: World, a: Action, u: int)
    requires Wf(w.db) && Trusted(w.db, u)
    ensures Trusted(Step(cfg, w, a).db, u)
  {
    StepEvolvesUsers(cfg, w, a);
  }

  lemma {:induction false} RunKeepsTrusted(cfg: Config, w: World, actions: seq<Action>, u: int)
    requires TokenInv(cfg, w) && Trusted(w.db, u)
    ensures Trusted(Run(cfg, w, actions).db, u)
  {
    if actions != [] {
      var n := |actions| - 1;
      RunKeepsTrusted(cfg, w, actions[..n], u);
      TokenSteps.RunKeeps(cfg, w, actions[..n]);
      StepKeepsTrusted(cfg, Run(cfg, w, actions[..n]), actions[n], u);
    }
  }

  /** Once verified, a user stays verified for as long as it exists. */
  lemma VerificationIsFinal(cfg: Config, now: nat, first: seq<Action>, second: seq<Action>, u: int)
    requires var users := Run(cfg, Start(now), first).db.users; u in users && users[u].verified
    requires u in Run(cfg, Start(now), first + second).db.users
    ensures Run(cfg, Start(now), first + second).db.users[u].verified
  {
    TokenSteps.Reachable(cfg, now, first);
    RunConcat(cfg, Start(now), first, second);
    RunKeepsTrusted(cfg, Run(cfg, Start(now), first), second, u);
  }

  /** The exchange flight ended with a session for this user through this provider identity. */
  ghost predicate Exchanged(w: World, f: int, key: LinkKey, uid: int) {
    f in w.flights && exists h :: w.flights[f] == Finished(Opened(h, uid, ByProvider(key)))
  }

  /** While the users exist, two successful exchanges lead to the same user exactly when they
      presented the same provider identity, whatever e-mail claims came along. */
  lemma ProviderIdentityIsStable(cfg: Config, now: nat, actions: seq<Action>,
                                 f: int, k: LinkKey, u: int, g: int, l: LinkKey, v: int)
    requires var w := Run(cfg, Start(now), actions);
             && Exchanged(w, f, k, u) && Exchanged(w, g, l, v)
             && u in w.db.users && v in w.db.users
    ensures k == l <==> u == v
    ensures var db := Run(cfg, Start(now), actions).db; k in db.links && db.links[k].userId == u
  {
    ReachableAccounts(cfg, now, actions);
    var w := Run(cfg, Start(now), actions);
    assert UserFacts(w.db, w.flights[f]) && UserFacts(w.db, w.flights[g]);
  }

  /** A provider login is turned away for a conflict exactly when its identity is not linked and the
      email belongs to someone, and then nothing at all has changed. */
  lemma ConflictChangesNothing(cfg: O.Config, s: O.State, key: LinkKey, email: string, env: O.Env)
    ensures var (t, answer) := O.Exchange(cfg, s, key, email, env);
            && (answer == O.Rejected(Conflict) ==> t == s)
            && (answer == O.Rejected(Conflict)
                <==> key !in s.db.links && EmailTaken(s.db, email) && env.faults !! {GetLink, GetUserByEmail})
  {
  }

  // ---------------------------------------------------------------- referential closure

  lemma StepNeverReusesIds(cfg: Config, w: World, a: Action, uid: int)
    requires Wf(w.db) && uid < w.db.nextUser && uid !in w.db.users
    ensures var b := Step(cfg, w, a).db; uid < b.nextUser && uid !in b.users
  {
    StepEvolvesUsers(cfg, w, a);
  }

  lemma {:induction false} RunNeverReusesIds(cfg: Config, w: World, actions: seq<Action>, uid: int)
    requires TokenInv(cfg, w) && uid < w.db.nextUser && uid !in w.db.users
    ensures var b := Run(cfg, w, actions).db; uid < b.nextUser && uid !in b.users
  {
    if actions != [] {
      var n := |actions| - 1;
      RunNeverReusesIds(cfg, w, actions[..n], uid);
      TokenSteps.RunKeeps(cfg, w, actions[..n]);
      StepNeverReusesIds(cfg, Run(cfg, w, actions[..n]), actions[n], uid);
    }
  }

  /** In every reachable state the tables are closed under their foreign keys, and a user id that
      existed and was deleted is in no table ever after. */
  lemma ReferentialClosure(cfg: Config, now: nat, first: seq<Action>, second: seq<Action>, third: seq<Action>, uid: int)
    requires uid in Run(cfg, Start(now), first).db.users
    requires uid !in Run(cfg, Start(now), first + second).db.users
    ensures var db := Run(cfg, Start(now), first + second + third).db; Wf(db) && Absent(db, uid)
  {
    TokenSteps.Reachable(cfg, now, first);
    TokenSteps.Reachable(cfg, now, first + second);
    TokenSteps.Reachable(cfg, now, first + second + third);
    RunConcat(cfg, Start(now), first, second);
    RunConcat(cfg, Start(now), first + second, third);
    RunAdvancesUsers(cfg, Run(cfg, Start(now), first), second);
    RunNeverReusesIds(cfg, Run(cfg, Start(now), first + second), third, uid);
    AbsentFromClosure(Run(cfg, Start(now), first + second + third).db, uid);
  }

  lemma {:induction false} RunAdvancesUsers(cfg: Config, w: World, actions: seq<Action>)
    requires TokenInv(cfg, w)
    ensures w.db.nextUser <= Run(cfg, w, actions).db.nextUser
  {
    if actions != [] {
      var n := |actions| - 1;
      RunAdvancesUsers(cfg, w, actions[..n]);
      TokenSteps.RunKeeps(cfg, w, actions[..n]);
      StepAdvancesUsers(cfg, Run(cfg, w, actions[..n]), actions[n]);
    }
  }

  lemma StepAdvancesUsers(cfg: Config, w: World, a: Action)
    requires Wf(w.db)
    ensures w.db.nextUser <= Step(cfg, w, a).db.nextUser
  {
    StepEvolvesUsers(cfg, w, a);
  }
}
