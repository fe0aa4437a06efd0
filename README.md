# Tenant authentication middleware, modelled in Dafny

`TenantAuthMiddleware` is an ASP.NET Core pipeline stage. It is the framework's own
authentication middleware, changed so that the scheme provider is passed to each call
instead of being injected once. Its constructor rejects a null next stage. Each call of
`Invoke` does four things in order:

1. It stores an authentication feature that records the request's path and path base as
   they were on entry.
2. It offers the request to every request-handler scheme, in registry order. The first
   scheme whose handler is a request handler and answers "handled" ends the call.
3. Otherwise it authenticates with the default authenticate scheme, if there is one. It
   sets the user when the result carries a principal.
4. It then calls the next stage.

The model has three modules:

- `TenantAuth` (TenantAuth.dfy) holds the data model and the implementation.
  - `HttpContext` is a class whose fields `Invoke` updates in place: path, path base,
    feature and user.
  - It also has a ghost `log` of the calls the middleware makes on its collaborators.
  - `TenantAuthMiddleware` is a class holding the next delegate.
  - `TenantAuthMiddleware.Invoke` is imperative. It has the source's loop with an early
    return.
  - `Invoke` is proved against `Invocation`, a pure reference definition of one call.
    `Invocation` returns the trace of calls, the resulting user and whether the pipeline
    was cut short.
- `TenantAuthProperties` (Properties.dfy) proves what one call does, stated over
  `Invocation`:
  - which collaborator calls are made, how often and in which order;
  - what happens to the user;
  - when the next stage runs.
- `TenantAuthScenarios` (Scenarios.dfy) restates the repository's unit tests as client
  methods. Each one checks the outcome the test checks, using only the contracts.

The collaborators are values passed in:

- The scheme provider is a `SchemeProvider`. It holds the request-handler schemes and
  the optional default authenticate scheme.
- The request services hold two things:
  - the handler provider, a function from scheme name to `Lookup`;
  - the authentication service, a function from scheme name to `AuthenticateResult`.
- A `Lookup` is `NotRequestHandler` (a null handler, or one that is not a request
  handler) or `RequestHandler(handles)`, where `handles` is its answer to HandleRequest.
- An `AuthenticateResult` is `NullResult` (a null result) or `Returned(principal)`,
  where the principal may be absent.
- Principals and delegates are identity tokens. Reference identity is equality of tokens.
- A thrown `ArgumentNullException` is the `Failure(ArgumentNull("next"))` of `Result`.

## Model

| member | source | states |
|---|---|---|
| TenantAuth.TenantAuthMiddleware.New | src/QuokkaDev.Saas.Authentication/TenantAuthMiddleware.cs:14-17 | Construction fails with an argument-null error naming `next` exactly when the next delegate is null. Otherwise it yields a fresh middleware holding that delegate. |
| TenantAuth.Claimant | src/QuokkaDev.Saas.Authentication/TenantAuthMiddleware.cs:29-34 | The scheme that ends the loop is the first one, in registry order, whose handler is a request handler that handles the request. No scheme before it claims. There is none exactly when no scheme claims. |
| TenantAuth.Invocation | src/QuokkaDev.Saas.Authentication/TenantAuthMiddleware.cs:19-48 | One call is cut short exactly when some request-handler scheme claims the request. |
| TenantAuth.TenantAuthMiddleware.Invoke | src/QuokkaDev.Saas.Authentication/TenantAuthMiddleware.cs:19-48 | Path and path base are unchanged. The feature holds the entry path and path base. The calls made, the new user and whether the pipeline is cut short are those of `Invocation` applied to the context as it was on entry. |
| TenantAuth.TenantAuthMiddleware.HandleRequestSchemes | src/QuokkaDev.Saas.Authentication/TenantAuthMiddleware.cs:28-35 | The loop looks up each scheme's handler in order. It calls HandleRequest right after each lookup that yields a request handler. It stops after the first claim. It reports a claim exactly when some scheme claims. |
| TenantAuth.TenantAuthMiddleware.AuthenticateWithDefault | src/QuokkaDev.Saas.Authentication/TenantAuthMiddleware.cs:37-45 | It authenticates with the default scheme only if there is one. It sets the user only to a returned principal. |
| TenantAuthProperties.FeatureSnapshot | src/QuokkaDev.Saas.Authentication/TenantAuthMiddleware.cs:21-25 | The first thing a call does is store the feature with the entry path and path base. It stores the feature exactly once. |
| TenantAuthProperties.VisitAllCalls | src/QuokkaDev.Saas.Authentication/TenantAuthMiddleware.cs:29-35 | Looping over a list of schemes looks up each handler once, in order. It calls HandleRequest on exactly the request handlers. It makes no other call. |
| TenantAuthProperties.FirstClaimantWins | src/QuokkaDev.Saas.Authentication/TenantAuthMiddleware.cs:29-34 | When scheme `i` is the first claimant, exactly schemes 0..i are looked up and HandleRequest goes to exactly the request handlers among them. The last call is HandleRequest on scheme `i`. The default scheme is never asked for, and neither authentication nor the next stage runs. The user is unchanged. |
| TenantAuthProperties.NoClaimantVisitsAll | src/QuokkaDev.Saas.Authentication/TenantAuthMiddleware.cs:29-37 | When no scheme claims, every scheme is looked up once, in order, and HandleRequest goes to exactly the request handlers. The default scheme is asked for once and the call continues. |
| TenantAuthProperties.HandleRequestOnlyOnRequestHandlers | src/QuokkaDev.Saas.Authentication/TenantAuthMiddleware.cs:31 | Every HandleRequest call immediately follows the lookup of the same scheme, and that lookup yielded a request handler. A lookup is followed by HandleRequest exactly when it yielded a request handler. |
| TenantAuthProperties.AuthenticationCalls | src/QuokkaDev.Saas.Authentication/TenantAuthMiddleware.cs:37-45 | Default authentication calls the service once, with the default scheme's name, and only when there is a default scheme. It assigns the user at most once. It makes no other call. |
| TenantAuthProperties.AuthenticationSetsUser | src/QuokkaDev.Saas.Authentication/TenantAuthMiddleware.cs:37-44 | When no scheme claims and the default scheme's result carries a principal, the service is called once with that scheme's name. The user is assigned once, to that principal. |
| TenantAuthProperties.NoPrincipalLeavesUser | src/QuokkaDev.Saas.Authentication/TenantAuthMiddleware.cs:38-44 | With no default scheme, a null result or a result without a principal, the user is unchanged and never assigned. The service is called once if there is a default scheme and never otherwise. |
| TenantAuthProperties.NextRunsOnceOtherwise | src/QuokkaDev.Saas.Authentication/TenantAuthMiddleware.cs:37-47 | When no scheme claims, the next stage is called exactly once, as the last call, after any assignment of the user. |
| TenantAuthProperties.AtMostOneUserAssignment | src/QuokkaDev.Saas.Authentication/TenantAuthMiddleware.cs:41-44 | Every call assigns the user at most once. The user it leaves differs from the one it found only through that assignment. |
| TenantAuthProperties.DefaultSchemeQueries | src/QuokkaDev.Saas.Authentication/TenantAuthMiddleware.cs:33-37 | The default scheme is asked for once when the call continues and never when a handler claimed the request. |
| TenantAuthProperties.NextCalls | src/QuokkaDev.Saas.Authentication/TenantAuthMiddleware.cs:33-47 | The next stage is called once when the call continues and never after a claim. |
| TenantAuthScenarios.CallbackSchemesAreBothAsked | test/QuokkaDev.Saas.Authentication.Tests/TenantAuthMiddlewareUnitTest.cs:35-62 | With the failing handler registered before the succeeding one, HandleRequest is asked of both, in that order. |

## Left out

- Asynchrony: each awaited call is modelled as one synchronous step. Task scheduling and
  cancellation are not modelled.
- Exceptions from collaborators are not modelled. These include a missing
  `IAuthenticationHandlerProvider` service (`GetRequiredService` throws) and a throwing
  handler, authentication service or next stage. Such an exception would propagate
  unchanged out of `Invoke`.
- The next stage's own effects on the context are not modelled. The model records only
  that the next stage is called and with which delegate.
- The handler provider answers from the scheme name alone, and each request handler
  gives one fixed answer to HandleRequest. Handler state and side effects of
  HandleRequest are not modelled.
- The registration extension (src/QuokkaDev.Saas.Authentication/IApplicationBuilderExtensions.cs)
  is not modelled. It only adds the middleware to the pipeline.
- The internals of the framework types (`HttpContext`, `AuthenticationScheme`,
  `ClaimsPrincipal`, the features collection) are not modelled. Only the members the
  middleware reads or writes are kept.
- TenantAuth.TenantAuthMiddleware.Invoke returns an `Outcome` (cut short or continued)
  that the source's `Task` does not carry. It is there so the early return can be stated.
