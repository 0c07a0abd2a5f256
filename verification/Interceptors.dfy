/** Chains of gRPC interceptors and the one that demands a token. */
module Interceptors {
  import opened Domain

  /** Incoming metadata, if any, and the token that authorization put into the context. */
  datatype Context = Context(metadata: Option<map<string, seq<string>>>, token: Option<string>)

  datatype Reply = Body(text: string) | Failed(error: Error)

  /** What happens on the way: an interceptor is entered, or the final handler is reached. */
  datatype Event = Entered(name: string) | Reached(ctx: Context, req: string)

  datatype Outcome = Outcome(reply: Reply, trace: seq<Event>)

  type Handler = (Context, string) -> Outcome

  /** Context, request, full method name, next handler. */
  type Interceptor = (Context, string, string, Handler) -> Outcome

  // ---------------------------------------------------------------- chaining

  /** The handler that hands the request to an interceptor in front of another handler. */
  function Before(i: Interceptor, info: string, next: Handler): Handler {
    (ctx, req) => i(ctx, req, info, next)
  }

  /** The right fold: the reference for the chaining loop. */
  function Around(interceptors: seq<Interceptor>, info: string, handler: Handler): Handler {
    if interceptors == [] then handler
    else Before(interceptors[0], info, Around(interceptors[1..], info, handler))
  }

  /** The loop of ChainUnaryInterceptors, from the last interceptor to the first. */
  method Chain(interceptors: seq<Interceptor>, ctx: Context, req: string, info: string, handler: Handler)
    returns (r: Outcome)
    ensures r == Around(interceptors, info, handler)(ctx, req)
  {
    var wrapped := handler;
    for i := |interceptors| downto 0
      invariant wrapped == Around(interceptors[i..], info, handler)
    {
      var next := wrapped;
      var current := interceptors[i];
      wrapped := Before(current, info, next);
      assert interceptors[i..][1..] == interceptors[i + 1..];
    }
    assert interceptors[0..] == interceptors;
    r := wrapped(ctx, req);
  }

  /** Chaining two lists is chaining the first around the chain of the second. */
  lemma {:induction false} ChainsCompose(xs: seq<Interceptor>, ys: seq<Interceptor>, info: string, handler: Handler)
    ensures Around(xs + ys, info, handler) == Around(xs, info, Around(ys, info, handler))
  {
    if xs == [] {
      assert xs + ys == ys;
    } else {
      assert (xs + ys)[1..] == xs[1..] + ys;
      ChainsCompose(xs[1..], ys, info, handler);
    }
  }

  /** An interceptor that records its name and passes the request on. */
  function Marker(name: string): Interceptor {
    (ctx, req, info, next: Handler) => var o: Outcome := next(ctx, req); o.(trace := [Entered(name)] + o.trace)
  }

  function Markers(names: seq<string>): (r: seq<Interceptor>)
    ensures |r| == |names|
  {
    if names == [] then [] else [Marker(names[0])] + Markers(names[1..])
  }

  function Entries(names: seq<string>): (r: seq<Event>)
    ensures |r| == |names| && forall i :: 0 <= i < |names| ==> r[i] == Entered(names[i])
  {
    if names == [] then [] else [Entered(names[0])] + Entries(names[1..])
  }

  lemma MarkerAround(names: seq<string>, ctx: Context, req: string, info: string, handler: Handler)
    requires names != []
    ensures var inner := Around(Markers(names[1..]), info, handler)(ctx, req);
            Around(Markers(names), info, handler)(ctx, req) == inner.(trace := [Entered(names[0])] + inner.trace)
  {
    assert Markers(names)[0] == Marker(names[0]) && Markers(names)[1..] == Markers(names[1..]);
  }

  /** The first interceptor of a chain is the outermost: they are entered in the order given, and
      then the handler. */
  lemma {:induction false} FirstIsOutermost(names: seq<string>, ctx: Context, req: string, info: string,
                                            handler: Handler)
    ensures Around(Markers(names), info, handler)(ctx, req)
            == handler(ctx, req).(trace := Entries(names) + handler(ctx, req).trace)
  {
    if names == [] {
      assert Entries(names) + handler(ctx, req).trace == handler(ctx, req).trace;
    } else {
      FirstIsOutermost(names[1..], ctx, req, info, handler);
      MarkerAround(names, ctx, req, info, handler);
      assert Entries(names) + handler(ctx, req).trace
             == [Entered(names[0])] + (Entries(names[1..]) + handler(ctx, req).trace);
    }
  }

  // ---------------------------------------------------------------- authorization

  const PUBLIC: set<string> := {
    "/proto.AuthService/Signup",
    "/proto.AuthService/Login",
    "/proto.AuthService/VerifyOTP",
    "/proto.AuthService/ForgotPassword",
    "/proto.AuthService/ResetPassword",
    "/proto.AuthService/LiveZ"
  }

  const BEARER := "Bearer "

  function ExtractToken(ctx: Context): string {
    if ctx.metadata.None? || "authorization" !in ctx.metadata.value || ctx.metadata.value["authorization"] == [] then ""
    else
      var header := ctx.metadata.value["authorization"][0];
      if BEARER <= header then header[|BEARER|..] else header
  }

  /** AuthorizationInterceptor. */
  function Authorization(ctx: Context, req: string, info: string, next: Handler): Outcome {
    if info in PUBLIC then next(ctx, req)
    else
      var token := ExtractToken(ctx);
      if token == "" then Outcome(Failed(Unauthorized), [])
      else next(ctx.(token := Some(token)), req)
  }

  /** A token comes through with and without the "Bearer " in front of it; it is missing exactly when
      there is no header or nothing in it. */
  lemma TokenExtraction(md: map<string, seq<string>>, token: Option<string>, header: string, more: seq<string>)
    ensures ExtractToken(Context(Some(md["authorization" := [BEARER + header] + more]), token)) == header
    ensures !(BEARER <= header) ==> ExtractToken(Context(Some(md["authorization" := [header] + more]), token)) == header
    ensures ExtractToken(Context(Some(md), token)) == ""
            <==> "authorization" !in md || md["authorization"] == [] || md["authorization"][0] in {"", BEARER}
  {
    assert BEARER <= BEARER + header && (BEARER + header)[|BEARER|..] == header;
    if "authorization" in md && md["authorization"] != [] && BEARER <= md["authorization"][0] {
      var h := md["authorization"][0];
      assert h == BEARER + h[|BEARER|..];
      assert h[|BEARER|..] == "" ==> h == BEARER;
    }
  }

  /** What an interceptor may make of the context before it hands the request on. */
  type Alteration = (Context, Context) -> bool

  ghost predicate Preorder(may: Alteration) {
    && (forall a :: may(a, a))
    && (forall a, b, c {:trigger may(a, b), may(b, c)} :: may(a, b) && may(b, c) ==> may(a, c))
  }

  /** The handler, on a context this one may be altered to, gets to the event. */
  ghost predicate ReachedFrom(h: Handler, may: Alteration, ctx: Context, e: Event) {
    exists altered: Context, req: string :: may(ctx, altered) && e in h(altered, req).trace
  }

  /** The interceptor gets to the final handler only by calling the one it was given, on a context
      that it may make of its own. */
  ghost predicate Honest(i: Interceptor, info: string, next: Handler, may: Alteration) {
    forall ctx: Context, req: string, e: Event {:trigger e in i(ctx, req, info, next).trace} ::
      e.Reached? && e in i(ctx, req, info, next).trace ==> ReachedFrom(next, may, ctx, e)
  }

  /** On a context this one may be altered to, which carries a token, the handler was entered with
      that token and got to the event. */
  ghost predicate ReachedWithToken(h: Handler, may: Alteration, ctx: Context, e: Event) {
    exists altered: Context, req: string ::
      && may(ctx, altered) && ExtractToken(altered) != ""
      && e in h(altered.(token := Some(ExtractToken(altered))), req).trace
  }

  lemma AuthorizationGuards(info: string, next: Handler, may: Alteration, ctx: Context, e: Event)
    requires info !in PUBLIC && ReachedFrom(Before(Authorization, info, next), may, ctx, e)
    ensures ReachedWithToken(next, may, ctx, e)
  {
    var altered, req :| may(ctx, altered) && e in Before(Authorization, info, next)(altered, req).trace;
    assert Before(Authorization, info, next)(altered, req) == Authorization(altered, req, info, next);
    assert e in next(altered.(token := Some(ExtractToken(altered))), req).trace;
  }

  lemma HonestyPasses(i: Interceptor, info: string, next: Handler, may: Alteration, ctx: Context, e: Event)
    requires Preorder(may) && Honest(i, info, next, may) && e.Reached?
    requires ReachedFrom(Before(i, info, next), may, ctx, e)
    ensures ReachedFrom(next, may, ctx, e)
  {
    var altered, req :| may(ctx, altered) && e in Before(i, info, next)(altered, req).trace;
    assert e in i(altered, req, info, next).trace;
    var further, q :| may(altered, further) && e in next(further, q).trace;
    assert may(ctx, further);
  }

  /** Authorization stands behind interceptors that are honest up to these alterations. */
  ghost predicate Guarded(xs: seq<Interceptor>, ys: seq<Interceptor>, info: string, handler: Handler, may: Alteration) {
    forall k {:trigger xs[k]} :: 0 <= k < |xs| ==>
      Honest(xs[k], info, Around(xs[k + 1..] + [Authorization] + ys, info, handler), may)
  }

  /** Wherever authorization stands in a chain, behind honest interceptors and in front of any: a request
      for a method that is not public gets to its handler only by way of a non-empty token, of a
      context that those interceptors may have made of the one the request came with. */
  lemma {:induction false} NoHandlerWithoutToken(xs: seq<Interceptor>, ys: seq<Interceptor>, info: string,
                                                 handler: Handler, may: Alteration, ctx: Context, e: Event)
    requires info !in PUBLIC && e.Reached? && Preorder(may) && Guarded(xs, ys, info, handler, may)
    requires ReachedFrom(Around(xs + [Authorization] + ys, info, handler), may, ctx, e)
    ensures ReachedWithToken(Around(ys, info, handler), may, ctx, e)
  {
    var all := xs + [Authorization] + ys;
    if xs == [] {
      assert all[0] == Authorization && all[1..] == ys;
      AuthorizationGuards(info, Around(ys, info, handler), may, ctx, e);
    } else {
      var rest := xs[1..] + [Authorization] + ys;
      assert all[1..] == rest && all[0] == xs[0];
      assert xs[0 + 1..] + [Authorization] + ys == rest;
      HonestyPasses(xs[0], info, Around(rest, info, handler), may, ctx, e);
      GuardedTail(xs, ys, info, handler, may);
      NoHandlerWithoutToken(xs[1..], ys, info, handler, may, ctx, e);
    }
  }

  lemma GuardedTail(xs: seq<Interceptor>, ys: seq<Interceptor>, info: string, handler: Handler, may: Alteration)
    requires xs != [] && Guarded(xs, ys, info, handler, may)
    ensures Guarded(xs[1..], ys, info, handler, may)
  {
    forall k | 0 <= k < |xs[1..]|
      ensures Honest(xs[1..][k], info, Around(xs[1..][k + 1..] + [Authorization] + ys, info, handler), may)
    {
      assert xs[1..][k] == xs[k + 1] && xs[1..][k + 1..] == xs[k + 1 + 1..];
    }
  }

  function KeepingMetadata(): Alteration {
    (a: Context, b: Context) => a.metadata == b.metadata
  }

  /** Interceptors that only record and pass the request on are honest in this sense. */
  lemma MarkersKeepMetadata(name: string, info: string, next: Handler)
    ensures Honest(Marker(name), info, next, KeepingMetadata())
  {
    forall ctx: Context, req: string, e: Event | e.Reached? && e in Marker(name)(ctx, req, info, next).trace
      ensures ReachedFrom(next, KeepingMetadata(), ctx, e)
    {
      assert KeepingMetadata()(ctx, ctx) && e in next(ctx, req).trace;
    }
  }

  /** Behind interceptors that leave the metadata alone, a request gets to the handler of a method that
      is not public only with a token of its own, and that token is in the context behind authorization. */
  lemma TokenOfTheRequest(xs: seq<Interceptor>, ys: seq<Interceptor>, info: string, handler: Handler, ctx: Context,
                          req: string, e: Event)
    requires info !in PUBLIC && e.Reached? && Guarded(xs, ys, info, handler, KeepingMetadata())
    requires e in Around(xs + [Authorization] + ys, info, handler)(ctx, req).trace
    ensures ExtractToken(ctx) != ""
    ensures exists q: string :: e in Around(ys, info, handler)(ctx.(token := Some(ExtractToken(ctx))), q).trace
  {
    assert KeepingMetadata()(ctx, ctx);
    NoHandlerWithoutToken(xs, ys, info, handler, KeepingMetadata(), ctx, e);
    var altered: Context, q: string :| altered.metadata == ctx.metadata && ExtractToken(altered) != ""
                      && e in Around(ys, info, handler)(altered.(token := Some(ExtractToken(altered))), q).trace;
    assert altered.(token := Some(ExtractToken(altered))) == ctx.(token := Some(ExtractToken(ctx)));
  }

  // ---------------------------------------------------------------- who gets through

  const SERVICE := "/proto.AuthService/"

  /** The methods that can be called without a token. */
  const OPEN: set<string> := {"Signup", "Login", "VerifyOTP", "ForgotPassword", "ResetPassword", "LiveZ"}

  lemma FullName(rpc: string, other: string, full: string)
    requires full == SERVICE + other
    ensures SERVICE + rpc == full <==> rpc == other
  {
    assert (SERVICE + rpc)[|SERVICE|..] == rpc && (SERVICE + other)[|SERVICE|..] == other;
  }

  lemma OpenIsPublic(rpc: string)
    ensures SERVICE + rpc in PUBLIC <==> rpc in OPEN
  {
    FullName(rpc, "Signup", "/proto.AuthService/Signup");
    FullName(rpc, "Login", "/proto.AuthService/Login");
    FullName(rpc, "VerifyOTP", "/proto.AuthService/VerifyOTP");
    FullName(rpc, "ForgotPassword", "/proto.AuthService/ForgotPassword");
    FullName(rpc, "ResetPassword", "/proto.AuthService/ResetPassword");
    FullName(rpc, "LiveZ", "/proto.AuthService/LiveZ");
  }

  /** What the handler and the interceptors behind authorization are entered with, if they are. */
  function Admitted(rpc: string, ctx: Context): Option<Context> {
    if rpc in OPEN then Some(ctx)
    else if ExtractToken(ctx) != "" then Some(ctx.(token := Some(ExtractToken(ctx))))
    else None
  }

  lemma AuthorizationAdmits(rpc: string, ctx: Context, req: string, next: Handler)
    ensures var admitted := Admitted(rpc, ctx);
            Authorization(ctx, req, SERVICE + rpc, next)
            == if admitted.Some? then next(admitted.value, req) else Outcome(Failed(Unauthorized), [])
  {
    OpenIsPublic(rpc);
  }

  /** The whole chain, with recording interceptors on both sides of authorization. A method of the six
      reaches its handler with the context as it came; any other does with a token, which is then in
      the context, and is turned away without one, where nothing behind authorization is entered. */
  lemma WhoGetsThrough(xs: seq<string>, ys: seq<string>, rpc: string, handler: Handler, ctx: Context, req: string)
    ensures var admitted := Admitted(rpc, ctx);
            Around(Markers(xs) + ([Authorization] + Markers(ys)), SERVICE + rpc, handler)(ctx, req)
            == if admitted.None? then Outcome(Failed(Unauthorized), Entries(xs))
               else var o := handler(admitted.value, req); o.(trace := Entries(xs) + (Entries(ys) + o.trace))
  {
    var info := SERVICE + rpc;
    var behind := Around([Authorization] + Markers(ys), info, handler);
    ChainsCompose(Markers(xs), [Authorization] + Markers(ys), info, handler);
    FirstIsOutermost(xs, ctx, req, info, behind);
    assert ([Authorization] + Markers(ys))[1..] == Markers(ys);
    assert behind == Before(Authorization, info, Around(Markers(ys), info, handler));
    AuthorizationAdmits(rpc, ctx, req, Around(Markers(ys), info, handler));
    if Admitted(rpc, ctx).Some? {
      FirstIsOutermost(ys, Admitted(rpc, ctx).value, req, info, handler);
    } else {
      assert Entries(xs) + [] == Entries(xs);
    }
  }
}
