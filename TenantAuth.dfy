/**
 * Tenant-aware authentication middleware: one stage of an HTTP request pipeline.
 * For every request it records the original path in an authentication feature, lets the
 * request-handler authentication schemes claim the request in registry order (the first
 * one that handles it ends the request), and otherwise authenticates with the default
 * scheme, sets the request's user when that yields a principal, and calls the next stage.
 *
 * The collaborators the middleware asks (scheme registry, handler provider, authentication
 * service) are values given to it; every call it makes on them, every write it makes to the
 * context and the call of the next stage are recorded, in order, in a ghost log on the
 * context, so that the properties below can speak of which calls happened and how often.
 */
module TenantAuth {
  import opened Wrappers

  type SchemeName = string
  type PathString = string

  /** An authenticated identity. The middleware never looks inside one: two principals are
      the same object exactly when their tokens are equal. */
  datatype Principal = Principal(token: nat)

  /** The next stage of the pipeline, identified by a token. */
  datatype RequestDelegate = RequestDelegate(token: nat)

  /** A registered authentication scheme; only its name matters here. */
  datatype AuthenticationScheme = AuthenticationScheme(name: SchemeName)

  /** The snapshot stored in the request's feature collection. */
  datatype AuthenticationFeature = AuthenticationFeature(originalPath: PathString, originalPathBase: PathString)

  /** The answers of the scheme registry: the request-handler schemes, in its order, and the
      default authenticate scheme, if one is configured. */
  datatype SchemeProvider = SchemeProvider(
    requestHandlerSchemes: seq<AuthenticationScheme>,
    defaultAuthenticate: Option<AuthenticationScheme>)

  /** What the handler provider returns for a scheme: a handler that is not a request
      handler (or none at all), or a request handler together with what its HandleRequest
      answers (true: it has handled the request and the pipeline must stop). */
  datatype Lookup = NotRequestHandler | RequestHandler(handles: bool)

  /** The handler provider, as a function of the scheme name. */
  type HandlerProvider = SchemeName -> Lookup

  /** What authenticating with a scheme returns: a null result, or a result whose principal
      may be null. */
  datatype AuthenticateResult = NullResult | Returned(principal: Option<Principal>)

  /** The authentication service, as a function of the scheme name. */
  type AuthenticationService = SchemeName -> AuthenticateResult

  /** The request's service container: where the middleware finds the handler provider and
      the authentication service. */
  datatype RequestServices = RequestServices(handlers: HandlerProvider, authentication: AuthenticationService)

  /** The context of a request as the middleware finds it on entry. */
  datatype Request = Request(path: PathString, pathBase: PathString, user: Principal, services: RequestServices)

  datatype Error = ArgumentNull(paramName: string)

  /** How a call of Invoke ends: a request handler claimed the request, or the next stage ran. */
  datatype Outcome = Terminated | Continued

  /** One call or write made by the middleware, in the order it makes them. */
  datatype Event =
    | FeatureSet(feature: AuthenticationFeature)
    | SchemesListed
    | HandlerLookedUp(scheme: SchemeName)
    | RequestHandled(scheme: SchemeName)
    | DefaultSchemeRequested
    | Authenticated(scheme: SchemeName)
    | UserAssigned(principal: Principal)
    | NextInvoked(next: RequestDelegate)

  datatype Kind =
    | FeatureWrite | SchemesQuery | HandlerLookup | HandleRequestCall
    | DefaultSchemeQuery | AuthenticateCall | UserWrite | NextCall

  function KindOf(e: Event): Kind {
    match e
    case FeatureSet(_) => FeatureWrite
    case SchemesListed => SchemesQuery
    case HandlerLookedUp(_) => HandlerLookup
    case RequestHandled(_) => HandleRequestCall
    case DefaultSchemeRequested => DefaultSchemeQuery
    case Authenticated(_) => AuthenticateCall
    case UserAssigned(_) => UserWrite
    case NextInvoked(_) => NextCall
  }

  /** The events of kind `k` in `t`, in order. */
  function OfKind(t: seq<Event>, k: Kind): (r: seq<Event>)
    ensures |r| <= |t|
  {
    if t == [] then [] else (if KindOf(t[0]) == k then [t[0]] else []) + OfKind(t[1..], k)
  }

  /** What one call of Invoke does: the calls and writes in order, the user it leaves on
      the context, and how it ends. */
  datatype Run = Run(trace: seq<Event>, user: Principal, outcome: Outcome)

  // ---------------------------------------------------------------------------------------
  // The specification of Invoke

  /** The handler for a scheme claims the request: it is a request handler and its
      HandleRequest answers true. */
  predicate Claims(l: Lookup) {
    l.RequestHandler? && l.handles
  }

  /** No request-handler scheme claims the request. */
  predicate Unclaimed(schemes: seq<AuthenticationScheme>, handlers: HandlerProvider) {
    forall j :: 0 <= j < |schemes| ==> !Claims(handlers(schemes[j].name))
  }

  /** The position of the first scheme whose handler claims the request, if any. */
  function Claimant(schemes: seq<AuthenticationScheme>, handlers: HandlerProvider): (r: Option<nat>)
    ensures r.Some? ==> r.value < |schemes| && Claims(handlers(schemes[r.value].name))
    ensures r.Some? ==> forall j :: 0 <= j < r.value ==> !Claims(handlers(schemes[j].name))
    ensures r.None? <==> Unclaimed(schemes, handlers)
  {
    if schemes == [] then None
    else if Claims(handlers(schemes[0].name)) then Some(0)
    else match Claimant(schemes[1..], handlers)
      case None => None
      case Some(k) => Some(k + 1)
  }

  /** The schemes the loop gets to: up to and including the claimant, or all of them. */
  function Visited(schemes: seq<AuthenticationScheme>, handlers: HandlerProvider): seq<AuthenticationScheme> {
    match Claimant(schemes, handlers)
    case Some(i) => schemes[..i + 1]
    case None => schemes
  }

  /** The calls the loop makes for one scheme: the handler lookup, then HandleRequest when
      the handler is a request handler. */
  function Visit(scheme: AuthenticationScheme, handlers: HandlerProvider): seq<Event> {
    [HandlerLookedUp(scheme.name)] +
    if handlers(scheme.name).RequestHandler? then [RequestHandled(scheme.name)] else []
  }

  function VisitAll(schemes: seq<AuthenticationScheme>, handlers: HandlerProvider): seq<Event> {
    if schemes == [] then [] else Visit(schemes[0], handlers) + VisitAll(schemes[1..], handlers)
  }

  /** Authentication with the default scheme: its calls and the user it leaves. */
  function DefaultAuthentication(
    user: Principal, defaultAuthenticate: Option<AuthenticationScheme>, authentication: AuthenticationService)
    : (seq<Event>, Principal)
  {
    match defaultAuthenticate
    case None => ([], user)
    case Some(scheme) =>
      match authentication(scheme.name)
      case Returned(Some(p)) => ([Authenticated(scheme.name), UserAssigned(p)], p)
      case _ => ([Authenticated(scheme.name)], user)
  }

  function Prologue(path: PathString, pathBase: PathString): seq<Event> {
    [FeatureSet(AuthenticationFeature(path, pathBase)), SchemesListed]
  }

  /** The reference definition of one call of Invoke on a request `req`, with next stage
      `next` and scheme registry `schemes`. */
  function Invocation(req: Request, next: RequestDelegate, schemes: SchemeProvider): (r: Run)
    ensures r.outcome == Terminated <==> !Unclaimed(schemes.requestHandlerSchemes, req.services.handlers)
  {
    var handlers := req.services.handlers;
    var loop := Prologue(req.path, req.pathBase) + VisitAll(Visited(schemes.requestHandlerSchemes, handlers), handlers);
    if Claimant(schemes.requestHandlerSchemes, handlers).Some? then
      Run(loop, req.user, Terminated)
    else
      Run(loop + Epilogue(req, next, schemes),
          DefaultAuthentication(req.user, schemes.defaultAuthenticate, req.services.authentication).1,
          Continued)
  }

  /** The calls after the loop when no scheme claims the request: the default scheme is
      asked for, authentication runs with it, and the next stage is called. */
  function Epilogue(req: Request, next: RequestDelegate, schemes: SchemeProvider): seq<Event> {
    [DefaultSchemeRequested]
    + DefaultAuthentication(req.user, schemes.defaultAuthenticate, req.services.authentication).0
    + [NextInvoked(next)]
  }

  /** One HandlerLookedUp event per scheme, in order. */
  function LookupsOf(schemes: seq<AuthenticationScheme>): (r: seq<Event>)
    ensures |r| == |schemes|
    ensures forall j :: 0 <= j < |schemes| ==> r[j] == HandlerLookedUp(schemes[j].name)
  {
    if schemes == [] then [] else [HandlerLookedUp(schemes[0].name)] + LookupsOf(schemes[1..])
  }

  /** One RequestHandled event per scheme whose handler is a request handler, in order. */
  function HandlesOf(schemes: seq<AuthenticationScheme>, handlers: HandlerProvider): (r: seq<Event>)
    ensures |r| <= |schemes|
  {
    if schemes == [] then []
    else (if handlers(schemes[0].name).RequestHandler? then [RequestHandled(schemes[0].name)] else [])
         + HandlesOf(schemes[1..], handlers)
  }

  // ---------------------------------------------------------------------------------------
  // The middleware and the request context

  /** The request context: its path, the feature collection's authentication feature, the
      user, the request's services, and the ghost log of what the middleware did. */
  class HttpContext {
    var path: PathString
    var pathBase: PathString
    var feature: Option<AuthenticationFeature>
    var user: Principal
    const requestServices: RequestServices
    ghost var log: seq<Event>

    constructor (path: PathString, pathBase: PathString, user: Principal, requestServices: RequestServices)
      ensures this.path == path && this.pathBase == pathBase && this.user == user
      ensures this.requestServices == requestServices
      ensures feature == None && log == []
    {
      this.path := path;
      this.pathBase := pathBase;
      this.user := user;
      this.requestServices := requestServices;
      feature := None;
      log := [];
    }

    /** The context as Invocation sees it. */
    function Snapshot(): Request
      reads this
    {
      Request(path, pathBase, user, requestServices)
    }
  }

  class TenantAuthMiddleware {
    const next: RequestDelegate

    constructor (next: RequestDelegate)
      ensures this.next == next
    {
      this.next := next;
    }

    /** Construction with a null next stage fails with an argument-null error. */
    static method New(next: Option<RequestDelegate>) returns (r: Result<TenantAuthMiddleware, Error>)
      ensures next.None? <==> r.Failure?
      ensures r.Failure? ==> r.error == ArgumentNull("next")
      ensures r.Success? ==> fresh(r.value) && r.value.next == next.value
    {
      if next.None? {
        return Failure(ArgumentNull("next"));
      }
      var m := new TenantAuthMiddleware(next.value);
      return Success(m);
    }

    method Invoke(context: HttpContext, schemes: SchemeProvider) returns (outcome: Outcome)
      modifies context
      ensures context.path == old(context.path) && context.pathBase == old(context.pathBase)
      ensures context.feature == Some(AuthenticationFeature(old(context.path), old(context.pathBase)))
      ensures var run := Invocation(old(context.Snapshot()), next, schemes);
        context.log == old(context.log) + run.trace && context.user == run.user && outcome == run.outcome
    {
      ghost var entry := context.Snapshot();
      ghost var log0 := context.log;
      ghost var handlers := entry.services.handlers;
      ghost var loop := Prologue(entry.path, entry.pathBase) + VisitAll(Visited(schemes.requestHandlerSchemes, handlers), handlers);
      context.feature := Some(AuthenticationFeature(context.path, context.pathBase));
      context.log := context.log + [FeatureSet(AuthenticationFeature(context.path, context.pathBase))];

      var list := schemes.requestHandlerSchemes;
      context.log := context.log + [SchemesListed];
      assert context.log == log0 + Prologue(entry.path, entry.pathBase);
      outcome := HandleRequestSchemes(context, list);
      assert context.log == log0 + loop;
      if outcome == Terminated {
        assert Invocation(entry, next, schemes) == Run(loop, entry.user, Terminated);
        return;
      }

      var defaultAuthenticate := schemes.defaultAuthenticate;
      context.log := context.log + [DefaultSchemeRequested];
      AuthenticateWithDefault(context, defaultAuthenticate);

      context.log := context.log + [NextInvoked(next)];
      ghost var auth := DefaultAuthentication(entry.user, defaultAuthenticate, entry.services.authentication);
      assert context.log == log0 + loop + [DefaultSchemeRequested] + auth.0 + [NextInvoked(next)];
      assert context.log == log0 + (loop + Epilogue(entry, next, schemes));
    }

    /** Gives the request-handler schemes, in order, a chance to handle the request; the
        first whose handler does ends the loop with Terminated. */
    static method HandleRequestSchemes(context: HttpContext, list: seq<AuthenticationScheme>) returns (outcome: Outcome)
      modifies context`log
      ensures var handlers := context.requestServices.handlers;
        context.log == old(context.log) + VisitAll(Visited(list, handlers), handlers)
        && (outcome == Terminated <==> !Unclaimed(list, handlers))
    {
      var handlers := context.requestServices.handlers;
      var i := 0;
      while i < |list|
        invariant 0 <= i <= |list|
        invariant forall j :: 0 <= j < i ==> !Claims(handlers(list[j].name))
        invariant context.log == old(context.log) + VisitAll(list[..i], handlers)
      {
        var scheme := list[i];
        var handler := handlers(scheme.name);
        context.log := context.log + [HandlerLookedUp(scheme.name)];
        if handler.RequestHandler? {
          context.log := context.log + [RequestHandled(scheme.name)];
        }
        assert context.log == old(context.log) + VisitAll(list[..i], handlers) + Visit(scheme, handlers);
        VisitOne(list, i, handlers);
        if handler.RequestHandler? && handler.handles {
          ClaimantAt(list, handlers, i);
          assert Visited(list, handlers) == list[..i + 1];
          return Terminated;
        }
        i := i + 1;
      }
      assert list[..i] == list;
      assert Unclaimed(list, handlers);
      return Continued;
    }

    /** Authenticates with the default scheme, if there is one, and sets the user when the
        result carries a principal. */
    static method AuthenticateWithDefault(context: HttpContext, defaultAuthenticate: Option<AuthenticationScheme>)
      modifies context`log, context`user
      ensures var auth := DefaultAuthentication(old(context.user), defaultAuthenticate, context.requestServices.authentication);
        context.log == old(context.log) + auth.0 && context.user == auth.1
    {
      if defaultAuthenticate.Some? {
        var name := defaultAuthenticate.value.name;
        var result := context.requestServices.authentication(name);
        context.log := context.log + [Authenticated(name)];
        if result.Returned? && result.principal.Some? {
          context.user := result.principal.value;
          context.log := context.log + [UserAssigned(result.principal.value)];
        }
      }
    }
  }

  // ---------------------------------------------------------------------------------------
  // Lemmas used by Invoke

  lemma {:induction false} VisitAllAppend(a: seq<AuthenticationScheme>, b: seq<AuthenticationScheme>, handlers: HandlerProvider)
    ensures VisitAll(a + b, handlers) == VisitAll(a, handlers) + VisitAll(b, handlers)
  {
    if a == [] {
      assert a + b == b;
    } else {
      assert (a + b)[0] == a[0];
      assert (a + b)[1..] == a[1..] + b;
      VisitAllAppend(a[1..], b, handlers);
    }
  }

  /** The loop's log after one more scheme. */
  lemma VisitOne(schemes: seq<AuthenticationScheme>, i: nat, handlers: HandlerProvider)
    requires i < |schemes|
    ensures VisitAll(schemes[..i + 1], handlers) == VisitAll(schemes[..i], handlers) + Visit(schemes[i], handlers)
  {
    assert schemes[..i + 1] == schemes[..i] + [schemes[i]];
    VisitAllAppend(schemes[..i], [schemes[i]], handlers);
    assert [schemes[i]][1..] == [];
  }

  /** A claim at position `i` with none before it makes `i` the claimant. */
  lemma ClaimantAt(schemes: seq<AuthenticationScheme>, handlers: HandlerProvider, i: nat)
    requires i < |schemes|
    requires forall j :: 0 <= j < i ==> !Claims(handlers(schemes[j].name))
    requires Claims(handlers(schemes[i].name))
    ensures Claimant(schemes, handlers) == Some(i)
  {
  }

}
