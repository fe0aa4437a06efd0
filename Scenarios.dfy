/**
 * The middleware's unit-test scenarios, written as clients that call the model and check,
 * from the specifications alone, what the tests check of the real middleware.
 */
module TenantAuthScenarios {
  import opened Wrappers
  import opened TenantAuth
  import opened TenantAuthProperties

  /** The empty identity a fresh request context starts with. */
  const Anonymous := Principal(0)

  /** No authentication service answer matters in these scenarios. */
  function NoAuthentication(name: SchemeName): AuthenticateResult {
    NullResult
  }

  function NoHandlers(name: SchemeName): Lookup {
    NotRequestHandler
  }

  /** The handlers of the first scenario: "myHandlerFail" declines the request,
      "myHandler" handles it. */
  function CallbackHandlers(name: SchemeName): Lookup {
    if name == "myHandlerFail" then RequestHandler(false)
    else if name == "myHandler" then RequestHandler(true)
    else NotRequestHandler
  }

  /** Both callback schemes have request handlers. */
  lemma CallbackSchemesAreBothAsked()
    ensures HandlesOf([AuthenticationScheme("myHandlerFail"), AuthenticationScheme("myHandler")], CallbackHandlers)
            == [RequestHandled("myHandlerFail"), RequestHandled("myHandler")]
  {
    var schemes := [AuthenticationScheme("myHandlerFail"), AuthenticationScheme("myHandler")];
    assert schemes[1..] == [AuthenticationScheme("myHandler")];
    assert schemes[1..][1..] == [];
  }

  method NullNextDelegateIsRejected() {
    var r := TenantAuthMiddleware.New(None);
    assert r == Failure(ArgumentNull("next"));
  }

  /** Two request-handler schemes; the first handler declines, the second handles the
      request: both are looked up and asked, and nothing else happens. */
  method RegisteredHandlersAreUsed() {
    var middleware := new TenantAuthMiddleware(RequestDelegate(1));
    var handlers := CallbackHandlers;
    var context := new HttpContext("/signin-callback", "", Anonymous, RequestServices(handlers, NoAuthentication));
    var schemes := SchemeProvider([AuthenticationScheme("myHandlerFail"), AuthenticationScheme("myHandler")], None);
    ghost var entry := context.Snapshot();
    var outcome := middleware.Invoke(context, schemes);
    assert context.log == Invocation(entry, middleware.next, schemes).trace;
    var visited := schemes.requestHandlerSchemes;
    assert handlers("myHandlerFail") == RequestHandler(false) && handlers("myHandler") == RequestHandler(true);
    assert visited[..2] == visited;
    FirstClaimantWins(entry, middleware.next, schemes, 1);
    assert outcome == Terminated && context.user == Anonymous;
    ghost var t := context.log;
    assert |OfKind(t, HandlerLookup)| == 2;
    CallbackSchemesAreBothAsked();
    assert OfKind(t, HandleRequestCall) == [RequestHandled("myHandlerFail"), RequestHandled("myHandler")];
    assert OfKind(t, AuthenticateCall) == [] && OfKind(t, NextCall) == [];
  }

  /** No request-handler schemes; the default scheme authenticates a principal: no handler
      is looked up, the user becomes that principal and the next stage runs once. */
  method MiddlewareAuthenticatesUser() {
    var middleware := new TenantAuthMiddleware(RequestDelegate(1));
    var admin := Principal(7);
    var authentication := (name: SchemeName) => if name == "myHandler" then Returned(Some(admin)) else NullResult;
    var context := new HttpContext("/", "", Anonymous, RequestServices(NoHandlers, authentication));
    var schemes := SchemeProvider([], Some(AuthenticationScheme("myHandler")));
    ghost var entry := context.Snapshot();
    var outcome := middleware.Invoke(context, schemes);
    assert context.log == Invocation(entry, middleware.next, schemes).trace;
    NoClaimantVisitsAll(entry, middleware.next, schemes);
    AuthenticationSetsUser(entry, middleware.next, schemes, AuthenticationScheme("myHandler"), admin);
    NextRunsOnceOtherwise(entry, middleware.next, schemes);
    assert OfKind(context.log, HandlerLookup) == [];
    assert context.user == admin;
    assert OfKind(context.log, NextCall) == [NextInvoked(RequestDelegate(1))];
  }

  /** No request-handler schemes; authentication with the default scheme returns a null
      result: the user stays anonymous and the next stage runs once. */
  method MiddlewareDoesNotAuthenticateUser() {
    var middleware := new TenantAuthMiddleware(RequestDelegate(1));
    var context := new HttpContext("/", "", Anonymous, RequestServices(NoHandlers, NoAuthentication));
    var schemes := SchemeProvider([], Some(AuthenticationScheme("myHandler")));
    ghost var entry := context.Snapshot();
    var outcome := middleware.Invoke(context, schemes);
    assert context.log == Invocation(entry, middleware.next, schemes).trace;
    NoClaimantVisitsAll(entry, middleware.next, schemes);
    NoPrincipalLeavesUser(entry, middleware.next, schemes);
    NextRunsOnceOtherwise(entry, middleware.next, schemes);
    assert OfKind(context.log, HandlerLookup) == [];
    assert context.user == Anonymous;
    assert OfKind(context.log, AuthenticateCall) == [Authenticated("myHandler")];
    assert OfKind(context.log, NextCall) == [NextInvoked(RequestDelegate(1))];
  }

  /** No request-handler schemes and no default scheme: the authentication service is never
      called and the next stage runs once. */
  method NoDefaultSchemeSkipsAuthentication() {
    var middleware := new TenantAuthMiddleware(RequestDelegate(1));
    var context := new HttpContext("/app", "/tenant", Anonymous, RequestServices(NoHandlers, NoAuthentication));
    var schemes := SchemeProvider([], None);
    ghost var entry := context.Snapshot();
    var outcome := middleware.Invoke(context, schemes);
    assert context.log == Invocation(entry, middleware.next, schemes).trace;
    NoPrincipalLeavesUser(entry, middleware.next, schemes);
    NextRunsOnceOtherwise(entry, middleware.next, schemes);
    assert context.feature == Some(AuthenticationFeature("/app", "/tenant"));
    assert context.user == Anonymous;
    assert OfKind(context.log, AuthenticateCall) == [];
    assert OfKind(context.log, NextCall) == [NextInvoked(RequestDelegate(1))];
  }
}
