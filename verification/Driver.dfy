/** A service object that serves a sequence of calls is at every point the run of the specification. */
module Driver {
  import opened CacheStates
  import opened Repositories
  import opened SessionCaches
  import opened AuthService
  import M = MemoryAgreement
  import O = Operations
  import R = Runs

  // ---------------------------------------------------------------- the transition of each call

  lemma SignupIs(sys: R.Service, s: O.State, email: string, password: string, env: O.Env)
    ensures sys.step(s, R.Call(R.Signup(email, password), env))
            == R.OnTables(s, O.Signup(sys.config, s.db, email, password, env))
  {
    R.StepIs(sys, s, R.Call(R.Signup(email, password), env));
  }

  lemma ForgotIs(sys: R.Service, s: O.State, email: string, env: O.Env)
    ensures sys.step(s, R.Call(R.Forgot(email), env)) == R.OnTables(s, O.ForgotPassword(sys.config, s.db, email, env))
  {
    R.StepIs(sys, s, R.Call(R.Forgot(email), env));
  }

  lemma ResetIs(sys: R.Service, s: O.State, otpHash: string, code: string, password: string, env: O.Env)
    ensures sys.step(s, R.Call(R.Reset(otpHash, code, password), env))
            == R.OnTables(s, O.Reset(s.db, otpHash, code, password, env))
  {
    R.StepIs(sys, s, R.Call(R.Reset(otpHash, code, password), env));
  }

  lemma GetUserIs(sys: R.Service, s: O.State, uid: int, env: O.Env)
    ensures sys.step(s, R.Call(R.GetUser(uid), env)) == (s, O.GetUser(s.db, uid, env))
  {
    R.StepIs(sys, s, R.Call(R.GetUser(uid), env));
  }

  lemma DeleteIs(sys: R.Service, s: O.State, uid: int, env: O.Env)
    ensures sys.step(s, R.Call(R.Delete(uid), env)) == R.OnTables(s, O.DeleteUser(s.db, uid, env))
  {
    R.StepIs(sys, s, R.Call(R.Delete(uid), env));
  }

  lemma CleanupIs(sys: R.Service, s: O.State, env: O.Env)
    ensures sys.step(s, R.Call(R.Cleanup, env)) == (s.(db := O.Cleanup(s.db, env)), O.Silent)
  {
    R.StepIs(sys, s, R.Call(R.Cleanup, env));
  }

  // ---------------------------------------------------------------- serving

  /** A call that opens, reads or changes sessions, handed to the method for it. */
  method ServeSession(service: Service, call: R.Call, ghost sys: R.Service) returns (r: O.Response)
    requires service.Valid() && sys.config == service.config && (R.OnSessions(call.op) || call.op.Validate?)
    modifies service.db, service.cache.Changes()
    ensures service.Valid()
    ensures (service.View(), r) == sys.step(old(service.View()), call)
  {
    R.StepIs(sys, service.View(), call);
    match call.op
    case VerifyOtp(otpHash, code) => r := service.VerifyOTP(otpHash, code, call.env);
    case Login(email, password) => r := service.Login(email, password, call.env);
    case Exchange(key, email) => r := service.ExchangeOAuthCode(key, email, call.env);
    case Validate(token) => r := service.ValidateSession(token, call.env);
    case Refresh(token) => r := service.RefreshSession(token, call.env);
    case Logout(token) => r := service.Logout(token, call.env);
  }

  predicate OnCodes(op: R.Op) {
    op.Signup? || op.Forgot? || op.Reset?
  }

  /** A call that stores a one-time code, or uses one up for a new password. */
  method ServeCodes(service: Service, call: R.Call, ghost sys: R.Service) returns (r: O.Response)
    requires service.Valid() && sys.config == service.config && OnCodes(call.op)
    modifies service.db
    ensures service.Valid()
    ensures (service.View(), r) == sys.step(old(service.View()), call)
  {
    match call.op
    case Signup(email, password) =>
      SignupIs(sys, service.View(), email, password, call.env);
      r := service.Signup(email, password, call.env);
    case Forgot(email) =>
      ForgotIs(sys, service.View(), email, call.env);
      r := service.ForgotPassword(email, call.env);
    case Reset(otpHash, code, password) =>
      ResetIs(sys, service.View(), otpHash, code, password, call.env);
      r := service.ResetPassword(otpHash, code, password, call.env);
  }

  predicate OnUsers(op: R.Op) {
    op.GetUser? || op.Delete? || op.Cleanup?
  }

  /** A call that reads or removes a user, or a round of the cleanup worker. */
  method ServeUsers(service: Service, call: R.Call, ghost sys: R.Service) returns (r: O.Response)
    requires service.Valid() && sys.config == service.config && OnUsers(call.op)
    modifies service.db
    ensures service.Valid()
    ensures (service.View(), r) == sys.step(old(service.View()), call)
  {
    match call.op
    case GetUser(uid) =>
      GetUserIs(sys, service.View(), uid, call.env);
      r := service.GetUser(uid, call.env);
    case Delete(uid) =>
      DeleteIs(sys, service.View(), uid, call.env);
      r := service.DeleteUser(uid, call.env);
    case Cleanup =>
      CleanupIs(sys, service.View(), call.env);
      service.Cleanup(call.env);
      r := O.Silent;
  }

  /** The memcached server forgets an entry. */
  method Evict(service: Service, k: CacheKey, env: O.Env, ghost sys: R.Service)
    requires service.Valid() && sys.config == service.config
    modifies service.cache.Changes()
    ensures service.Valid()
    ensures (service.View(), O.Silent) == sys.step(old(service.View()), R.Call(R.Evict(k), env))
  {
    R.StepIs(sys, service.View(), R.Call(R.Evict(k), env));
    if service.cache.Memcached? && service.cache.server.client != null {
      service.cache.server.client.Evict(k);
    }
  }

  method Serve(service: Service, call: R.Call, ghost sys: R.Service) returns (r: O.Response)
    requires service.Valid() && sys.config == service.config
    modifies service.db, service.cache.Changes()
    ensures service.Valid()
    ensures (service.View(), r) == sys.step(old(service.View()), call)
  {
    if call.op.Evict? {
      Evict(service, call.op.cacheKey, call.env, sys);
      r := O.Silent;
    } else if OnCodes(call.op) {
      r := ServeCodes(service, call, sys);
    } else if OnUsers(call.op) {
      r := ServeUsers(service, call, sys);
    } else {
      r := ServeSession(service, call, sys);
    }
  }

  /** One call after the other: the object stands where the run stands, and answers as it answers. */
  method ServeAll(service: Service, calls: seq<R.Call>, ghost sys: R.Service) returns (answers: seq<O.Response>)
    requires service.Valid() && sys.config == service.config
    modifies service.db, service.cache.Changes()
    ensures service.Valid() && service.View() == R.After(sys, old(service.View()), calls)
    ensures |answers| == |calls|
    ensures forall k :: 0 <= k < |calls| ==> answers[k] == R.Answer(sys, old(service.View()), calls, k)
  {
    answers := [];
    ghost var start := service.View();
    for i := 0 to |calls|
      invariant service.Valid() && |answers| == i
      invariant service.View() == R.After(sys, start, calls[..i])
      invariant forall k :: 0 <= k < i ==> answers[k] == R.Answer(sys, start, calls, k)
    {
      R.AfterNext(sys, start, calls, i);
      var r := Serve(service, calls[i], sys);
      answers := answers + [r];
    }
    assert calls[..|calls|] == calls;
  }

  /** A process with the in-memory cache, from its start: whatever calls it serves, the session objects
      its cache holds then mirror the rows of the sessions table. */
  method RunInMemory(config: O.Config, calls: seq<R.Call>, ghost sys: R.Service)
    returns (service: Service, answers: seq<O.Response>)
    requires sys.config == config && R.Lawful(calls)
    ensures service.Valid() && service.cache.InMemory? && |answers| == |calls|
    ensures forall k :: 0 <= k < |calls| ==> answers[k] == R.Answer(sys, R.Empty(OfMemory(map[])), calls, k)
    ensures M.Mirrors(service.db.View(), service.cache.memory.Entries(), R.LastTime(calls))
  {
    var db := new Database();
    var memory := new InMemorySessionCache();
    service := new Service(db, InMemory(memory), config);
    assert memory.Entries() == map[];
    M.AfterMirrors(sys, calls);
    answers := ServeAll(service, calls, sys);
  }
}
