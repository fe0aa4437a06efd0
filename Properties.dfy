/**
 * What one call of the middleware's Invoke does, stated over its reference definition
 * Invocation (which TenantAuthMiddleware.Invoke is proved to follow): which calls it makes
 * on its collaborators, in which order and how often, what it does to the user, and when
 * the next stage runs.
 */
module TenantAuthProperties {
  import opened Wrappers
  import opened TenantAuth

  // ---------------------------------------------------------------------------------------
  // Selecting the events of one kind

  lemma {:induction false} OfKindAppend(a: seq<Event>, b: seq<Event>, k: Kind)
    ensures OfKind(a + b, k) == OfKind(a, k) + OfKind(b, k)
  {
    if a == [] {
      assert a + b == b;
    } else {
      assert (a + b)[0] == a[0];
      assert (a + b)[1..] == a[1..] + b;
      OfKindAppend(a[1..], b, k);
    }
  }

  lemma OfKindSingle(e: Event, k: Kind)
    ensures OfKind([e], k) == if KindOf(e) == k then [e] else []
  {
    assert [e][1..] == [];
  }

  lemma OfKindPrologue(path: PathString, pathBase: PathString, k: Kind)
    ensures OfKind(Prologue(path, pathBase), k) ==
      if k == FeatureWrite then [FeatureSet(AuthenticationFeature(path, pathBase))]
      else if k == SchemesQuery then [SchemesListed]
      else []
  {
    var f := FeatureSet(AuthenticationFeature(path, pathBase));
    assert Prologue(path, pathBase) == [f] + [SchemesListed];
    OfKindAppend([f], [SchemesListed], k);
    OfKindSingle(f, k);
    OfKindSingle(SchemesListed, k);
  }

  // ---------------------------------------------------------------------------------------
  // The scheme loop

  /** The loop over `schemes` looks up every handler in order, calls HandleRequest exactly
      on the request handlers, and makes no other call. */
  lemma {:induction false} VisitAllCalls(schemes: seq<AuthenticationScheme>, handlers: HandlerProvider, k: Kind)
    ensures OfKind(VisitAll(schemes, handlers), k) ==
      if k == HandlerLookup then LookupsOf(schemes)
      else if k == HandleRequestCall then HandlesOf(schemes, handlers)
      else []
  {
    if schemes != [] {
      var s := schemes[0];
      var handled := if handlers(s.name).RequestHandler? then [RequestHandled(s.name)] else [];
      var rest := VisitAll(schemes[1..], handlers);
      assert VisitAll(schemes, handlers) == [HandlerLookedUp(s.name)] + handled + rest;
      OfKindAppend([HandlerLookedUp(s.name)] + handled, rest, k);
      OfKindAppend([HandlerLookedUp(s.name)], handled, k);
      OfKindSingle(HandlerLookedUp(s.name), k);
      assert OfKind(handled, k) == if k == HandleRequestCall then handled else [] by {
        if handled != [] {
          OfKindSingle(RequestHandled(s.name), k);
        }
      }
      VisitAllCalls(schemes[1..], handlers, k);
    }
  }

  /** HandleRequest is called right after the lookup of the same scheme's handler and only
      when that handler is a request handler; a lookup is followed by HandleRequest exactly
      when it yielded a request handler. */
  predicate WellPaired(t: seq<Event>, handlers: HandlerProvider) {
    (forall p {:trigger t[p]} :: 0 <= p < |t| && t[p].RequestHandled? ==>
       0 < p && t[p - 1] == HandlerLookedUp(t[p].scheme) && handlers(t[p].scheme).RequestHandler?)
    && (forall p {:trigger t[p]} :: 0 <= p < |t| && t[p].HandlerLookedUp? ==>
          (handlers(t[p].scheme).RequestHandler? <==> p + 1 < |t| && t[p + 1] == RequestHandled(t[p].scheme)))
  }

  lemma WellPairedAppend(a: seq<Event>, b: seq<Event>, handlers: HandlerProvider)
    requires WellPaired(a, handlers) && WellPaired(b, handlers)
    requires b != [] ==> !b[0].RequestHandled?
    ensures WellPaired(a + b, handlers)
  {
    var t := a + b;
    forall p | 0 <= p < |t| && t[p].RequestHandled?
      ensures 0 < p && t[p - 1] == HandlerLookedUp(t[p].scheme) && handlers(t[p].scheme).RequestHandler?
    {
      if p >= |a| {
        assert t[p] == b[p - |a|];
        assert p > |a| ==> t[p - 1] == b[p - 1 - |a|];
      } else {
        assert t[p] == a[p] && (p > 0 ==> t[p - 1] == a[p - 1]);
      }
    }
    forall p | 0 <= p < |t| && t[p].HandlerLookedUp?
      ensures handlers(t[p].scheme).RequestHandler? <==> p + 1 < |t| && t[p + 1] == RequestHandled(t[p].scheme)
    {
      if p >= |a| {
        var q := p - |a|;
        assert t[p] == b[q] && b[q].HandlerLookedUp?;
        assert handlers(b[q].scheme).RequestHandler? <==> q + 1 < |b| && b[q + 1] == RequestHandled(b[q].scheme);
        assert p + 1 < |t| ==> t[p + 1] == b[q + 1];
      } else if p + 1 == |a| {
        assert t[p] == a[p];
        assert b != [] ==> t[p + 1] == b[0];
      } else {
        assert t[p] == a[p] && t[p + 1] == a[p + 1];
      }
    }
  }

  lemma {:induction false} VisitAllWellPaired(schemes: seq<AuthenticationScheme>, handlers: HandlerProvider)
    ensures WellPaired(VisitAll(schemes, handlers), handlers)
    ensures VisitAll(schemes, handlers) != [] ==> VisitAll(schemes, handlers)[0].HandlerLookedUp?
  {
    if schemes != [] {
      var v := Visit(schemes[0], handlers);
      assert WellPaired(v, handlers);
      VisitAllWellPaired(schemes[1..], handlers);
      WellPairedAppend(v, VisitAll(schemes[1..], handlers), handlers);
    }
  }

  // ---------------------------------------------------------------------------------------
  // One call of Invoke

  lemma InvocationShape(req: Request, next: RequestDelegate, schemes: SchemeProvider)
    ensures var r := Invocation(req, next, schemes);
      var loop := Prologue(req.path, req.pathBase)
                  + VisitAll(Visited(schemes.requestHandlerSchemes, req.services.handlers), req.services.handlers);
      r.trace == if r.outcome == Terminated then loop else loop + Epilogue(req, next, schemes)
  {
  }

  lemma OfKindEpilogue(req: Request, next: RequestDelegate, schemes: SchemeProvider, k: Kind)
    ensures var auth := DefaultAuthentication(req.user, schemes.defaultAuthenticate, req.services.authentication);
      OfKind(Epilogue(req, next, schemes), k) ==
        if k == DefaultSchemeQuery then [DefaultSchemeRequested]
        else if k == NextCall then [NextInvoked(next)]
        else OfKind(auth.0, k)
  {
    var auth := DefaultAuthentication(req.user, schemes.defaultAuthenticate, req.services.authentication);
    OfKindAppend([DefaultSchemeRequested] + auth.0, [NextInvoked(next)], k);
    OfKindAppend([DefaultSchemeRequested], auth.0, k);
    OfKindSingle(DefaultSchemeRequested, k);
    OfKindSingle(NextInvoked(next), k);
  }

  /** The events of kind `k` in one call of Invoke: those of the prologue, of the loop over
      the visited schemes and, when the call continues, of the epilogue. */
  lemma InvocationOfKind(req: Request, next: RequestDelegate, schemes: SchemeProvider, k: Kind)
    ensures var r := Invocation(req, next, schemes);
      var handlers := req.services.handlers;
      OfKind(r.trace, k) ==
        OfKind(Prologue(req.path, req.pathBase), k)
        + OfKind(VisitAll(Visited(schemes.requestHandlerSchemes, handlers), handlers), k)
        + (if r.outcome == Terminated then [] else OfKind(Epilogue(req, next, schemes), k))
  {
    var r := Invocation(req, next, schemes);
    var handlers := req.services.handlers;
    var pro := Prologue(req.path, req.pathBase);
    var loop := VisitAll(Visited(schemes.requestHandlerSchemes, handlers), handlers);
    InvocationShape(req, next, schemes);
    OfKindAppend(pro, loop, k);
    if r.outcome == Continued {
      OfKindAppend(pro + loop, Epilogue(req, next, schemes), k);
    }
  }

  /** The feature is stored once, in the prologue. */
  lemma FeatureWrites(req: Request, next: RequestDelegate, schemes: SchemeProvider)
    ensures var r := Invocation(req, next, schemes);
      OfKind(r.trace, FeatureWrite) == [FeatureSet(AuthenticationFeature(req.path, req.pathBase))]
  {
    var handlers := req.services.handlers;
    InvocationOfKind(req, next, schemes, FeatureWrite);
    OfKindPrologue(req.path, req.pathBase, FeatureWrite);
    VisitAllCalls(Visited(schemes.requestHandlerSchemes, handlers), handlers, FeatureWrite);
    OfKindEpilogue(req, next, schemes, FeatureWrite);
    AuthenticationCalls(req, schemes);
  }

  /** The handler lookups are those of the loop over the visited schemes. */
  lemma Lookups(req: Request, next: RequestDelegate, schemes: SchemeProvider)
    ensures var r := Invocation(req, next, schemes);
      OfKind(r.trace, HandlerLookup) == LookupsOf(Visited(schemes.requestHandlerSchemes, req.services.handlers))
  {
    var handlers := req.services.handlers;
    InvocationOfKind(req, next, schemes, HandlerLookup);
    OfKindPrologue(req.path, req.pathBase, HandlerLookup);
    VisitAllCalls(Visited(schemes.requestHandlerSchemes, handlers), handlers, HandlerLookup);
    OfKindEpilogue(req, next, schemes, HandlerLookup);
    AuthenticationCalls(req, schemes);
  }

  /** The HandleRequest calls are those of the loop over the visited schemes. */
  lemma Handles(req: Request, next: RequestDelegate, schemes: SchemeProvider)
    ensures var r := Invocation(req, next, schemes);
      OfKind(r.trace, HandleRequestCall) == HandlesOf(Visited(schemes.requestHandlerSchemes, req.services.handlers), req.services.handlers)
  {
    var handlers := req.services.handlers;
    InvocationOfKind(req, next, schemes, HandleRequestCall);
    OfKindPrologue(req.path, req.pathBase, HandleRequestCall);
    VisitAllCalls(Visited(schemes.requestHandlerSchemes, handlers), handlers, HandleRequestCall);
    OfKindEpilogue(req, next, schemes, HandleRequestCall);
    AuthenticationCalls(req, schemes);
  }

  /** The default scheme is asked for once when the call continues. */
  lemma DefaultSchemeQueries(req: Request, next: RequestDelegate, schemes: SchemeProvider)
    ensures var r := Invocation(req, next, schemes);
      OfKind(r.trace, DefaultSchemeQuery) == if r.outcome == Terminated then [] else [DefaultSchemeRequested]
  {
    var handlers := req.services.handlers;
    InvocationOfKind(req, next, schemes, DefaultSchemeQuery);
    OfKindPrologue(req.path, req.pathBase, DefaultSchemeQuery);
    VisitAllCalls(Visited(schemes.requestHandlerSchemes, handlers), handlers, DefaultSchemeQuery);
    OfKindEpilogue(req, next, schemes, DefaultSchemeQuery);
    AuthenticationCalls(req, schemes);
  }

  /** The authentication calls are those of default authentication when the call continues. */
  lemma AuthenticateCalls(req: Request, next: RequestDelegate, schemes: SchemeProvider)
    ensures var r := Invocation(req, next, schemes);
      OfKind(r.trace, AuthenticateCall) == if r.outcome == Terminated then [] else OfKind(DefaultAuthentication(req.user, schemes.defaultAuthenticate, req.services.authentication).0, AuthenticateCall)
  {
    var handlers := req.services.handlers;
    InvocationOfKind(req, next, schemes, AuthenticateCall);
    OfKindPrologue(req.path, req.pathBase, AuthenticateCall);
    VisitAllCalls(Visited(schemes.requestHandlerSchemes, handlers), handlers, AuthenticateCall);
    OfKindEpilogue(req, next, schemes, AuthenticateCall);
  }

  /** The user assignments are those of default authentication when the call continues. */
  lemma UserWrites(req: Request, next: RequestDelegate, schemes: SchemeProvider)
    ensures var r := Invocation(req, next, schemes);
      OfKind(r.trace, UserWrite) == if r.outcome == Terminated then [] else OfKind(DefaultAuthentication(req.user, schemes.defaultAuthenticate, req.services.authentication).0, UserWrite)
  {
    var handlers := req.services.handlers;
    InvocationOfKind(req, next, schemes, UserWrite);
    OfKindPrologue(req.path, req.pathBase, UserWrite);
    VisitAllCalls(Visited(schemes.requestHandlerSchemes, handlers), handlers, UserWrite);
    OfKindEpilogue(req, next, schemes, UserWrite);
  }

  /** The next stage is called once when the call continues. */
  lemma NextCalls(req: Request, next: RequestDelegate, schemes: SchemeProvider)
    ensures var r := Invocation(req, next, schemes);
      OfKind(r.trace, NextCall) == if r.outcome == Terminated then [] else [NextInvoked(next)]
  {
    var handlers := req.services.handlers;
    InvocationOfKind(req, next, schemes, NextCall);
    OfKindPrologue(req.path, req.pathBase, NextCall);
    VisitAllCalls(Visited(schemes.requestHandlerSchemes, handlers), handlers, NextCall);
    OfKindEpilogue(req, next, schemes, NextCall);
    AuthenticationCalls(req, schemes);
  }

  /** Invoke first stores the feature snapshot of the request's path and path base as they
      are on entry, and stores it only once. */
  lemma FeatureSnapshot(req: Request, next: RequestDelegate, schemes: SchemeProvider)
    ensures var t := Invocation(req, next, schemes).trace;
      t != [] && t[0] == FeatureSet(AuthenticationFeature(req.path, req.pathBase))
      && OfKind(t, FeatureWrite) == [FeatureSet(AuthenticationFeature(req.path, req.pathBase))]
  {
    var r := Invocation(req, next, schemes);
    assert r.trace != [] && r.trace[0] == FeatureSet(AuthenticationFeature(req.path, req.pathBase)) by {
      InvocationShape(req, next, schemes);
    }
    assert OfKind(r.trace, FeatureWrite) == [FeatureSet(AuthenticationFeature(req.path, req.pathBase))] by {
      FeatureWrites(req, next, schemes);
      AuthenticationCalls(req, schemes);
    }
  }

  /** Authentication with the default scheme calls the service once, with that scheme's
      name, and only when there is one; it assigns the user at most once, and the user it
      leaves differs from the one it found only through that assignment. */
  lemma AuthenticationCalls(req: Request, schemes: SchemeProvider)
    ensures var auth := DefaultAuthentication(req.user, schemes.defaultAuthenticate, req.services.authentication);
      && OfKind(auth.0, AuthenticateCall) ==
           (match schemes.defaultAuthenticate case None => [] case Some(d) => [Authenticated(d.name)])
      && ((OfKind(auth.0, UserWrite) == [] && auth.1 == req.user) || OfKind(auth.0, UserWrite) == [UserAssigned(auth.1)])
      && forall k :: k != AuthenticateCall && k != UserWrite ==> OfKind(auth.0, k) == []
  {
    match schemes.defaultAuthenticate
    case None =>
    case Some(d) =>
      forall k ensures OfKind([Authenticated(d.name)], k) == if k == AuthenticateCall then [Authenticated(d.name)] else [] {
        OfKindSingle(Authenticated(d.name), k);
      }
      match req.services.authentication(d.name)
      case Returned(Some(p)) =>
        forall k ensures OfKind([Authenticated(d.name), UserAssigned(p)], k) ==
          if k == AuthenticateCall then [Authenticated(d.name)] else if k == UserWrite then [UserAssigned(p)] else []
        {
          assert [Authenticated(d.name), UserAssigned(p)] == [Authenticated(d.name)] + [UserAssigned(p)];
          OfKindAppend([Authenticated(d.name)], [UserAssigned(p)], k);
          OfKindSingle(UserAssigned(p), k);
        }
      case _ =>
  }

  /** The first scheme, in registry order, whose handler handles the request ends the call:
      exactly the schemes up to it are looked up, HandleRequest is called on exactly the
      request handlers among them and is the last call, the default scheme is not asked
      for, authentication and the next stage never run and the user is left as it was. */
  lemma FirstClaimantWins(req: Request, next: RequestDelegate, schemes: SchemeProvider, i: nat)
    requires i < |schemes.requestHandlerSchemes|
    requires forall j :: 0 <= j < i ==> !Claims(req.services.handlers(schemes.requestHandlerSchemes[j].name))
    requires Claims(req.services.handlers(schemes.requestHandlerSchemes[i].name))
    ensures var r := Invocation(req, next, schemes);
      var visited := schemes.requestHandlerSchemes[..i + 1];
      r.outcome == Terminated && r.user == req.user
      && OfKind(r.trace, HandlerLookup) == LookupsOf(visited)
      && |OfKind(r.trace, HandlerLookup)| == i + 1
      && OfKind(r.trace, HandleRequestCall) == HandlesOf(visited, req.services.handlers)
      && r.trace[|r.trace| - 1] == RequestHandled(schemes.requestHandlerSchemes[i].name)
      && OfKind(r.trace, DefaultSchemeQuery) == []
      && OfKind(r.trace, AuthenticateCall) == []
      && OfKind(r.trace, UserWrite) == []
      && OfKind(r.trace, NextCall) == []
  {
    var list, handlers := schemes.requestHandlerSchemes, req.services.handlers;
    var r := Invocation(req, next, schemes);
    ClaimantAt(list, handlers, i);
    assert Visited(list, handlers) == list[..i + 1];
    assert r.outcome == Terminated && r.user == req.user;
    assert r.trace[|r.trace| - 1] == RequestHandled(list[i].name) by {
      InvocationShape(req, next, schemes);
      VisitOne(list, i, handlers);
    }
    assert OfKind(r.trace, HandlerLookup) == LookupsOf(list[..i + 1]) by {
      Lookups(req, next, schemes);
    }
    assert OfKind(r.trace, HandleRequestCall) == HandlesOf(list[..i + 1], handlers) by {
      Handles(req, next, schemes);
    }
    assert OfKind(r.trace, DefaultSchemeQuery) == [] by {
      DefaultSchemeQueries(req, next, schemes);
    }
    assert OfKind(r.trace, AuthenticateCall) == [] by {
      AuthenticateCalls(req, next, schemes);
    }
    assert OfKind(r.trace, UserWrite) == [] by {
      UserWrites(req, next, schemes);
    }
    assert OfKind(r.trace, NextCall) == [] by {
      NextCalls(req, next, schemes);
    }
  }

  /** When no scheme claims the request, every request-handler scheme's handler is looked
      up once, in registry order, HandleRequest is called on exactly the request handlers
      among them, the default scheme is asked for once and the call continues. */
  lemma NoClaimantVisitsAll(req: Request, next: RequestDelegate, schemes: SchemeProvider)
    requires Unclaimed(schemes.requestHandlerSchemes, req.services.handlers)
    ensures var r := Invocation(req, next, schemes);
      r.outcome == Continued
      && OfKind(r.trace, HandlerLookup) == LookupsOf(schemes.requestHandlerSchemes)
      && |OfKind(r.trace, HandlerLookup)| == |schemes.requestHandlerSchemes|
      && OfKind(r.trace, HandleRequestCall) == HandlesOf(schemes.requestHandlerSchemes, req.services.handlers)
      && OfKind(r.trace, DefaultSchemeQuery) == [DefaultSchemeRequested]
  {
    var list, handlers := schemes.requestHandlerSchemes, req.services.handlers;
    var r := Invocation(req, next, schemes);
    assert Visited(list, handlers) == list;
    assert OfKind(r.trace, HandlerLookup) == LookupsOf(list) by {
      Lookups(req, next, schemes);
      AuthenticationCalls(req, schemes);
    }
    assert OfKind(r.trace, HandleRequestCall) == HandlesOf(list, handlers) by {
      Handles(req, next, schemes);
      AuthenticationCalls(req, schemes);
    }
    assert OfKind(r.trace, DefaultSchemeQuery) == [DefaultSchemeRequested] by {
      DefaultSchemeQueries(req, next, schemes);
    }
  }

  /** Throughout the call, HandleRequest is called right after the lookup of the same
      scheme's handler exactly when that handler is a request handler: a handler that is not
      one is skipped. */
  lemma HandleRequestOnlyOnRequestHandlers(req: Request, next: RequestDelegate, schemes: SchemeProvider)
    ensures WellPaired(Invocation(req, next, schemes).trace, req.services.handlers)
  {
    var handlers := req.services.handlers;
    var r := Invocation(req, next, schemes);
    var pro := Prologue(req.path, req.pathBase);
    var loop := VisitAll(Visited(schemes.requestHandlerSchemes, handlers), handlers);
    InvocationShape(req, next, schemes);
    VisitAllWellPaired(Visited(schemes.requestHandlerSchemes, handlers), handlers);
    assert WellPaired(pro, handlers);
    WellPairedAppend(pro, loop, handlers);
    if r.outcome == Continued {
      var epi := Epilogue(req, next, schemes);
      var auth := DefaultAuthentication(req.user, schemes.defaultAuthenticate, req.services.authentication);
      assert forall p :: 0 <= p < |auth.0| ==> auth.0[p].Authenticated? || auth.0[p].UserAssigned?;
      assert forall p :: 0 <= p < |epi| ==> !epi[p].RequestHandled? && !epi[p].HandlerLookedUp? by {
        forall p | 0 <= p < |epi|
          ensures !epi[p].RequestHandled? && !epi[p].HandlerLookedUp?
        {
          if 0 < p < |epi| - 1 {
            assert epi[p] == auth.0[p - 1];
          }
        }
      }
      WellPairedAppend(pro + loop, epi, handlers);
    }
  }

  /** With a default scheme whose authentication returns a principal, the service is called
      once with the default scheme's name and the user is set once, to that principal. */
  lemma AuthenticationSetsUser(req: Request, next: RequestDelegate, schemes: SchemeProvider, d: AuthenticationScheme, p: Principal)
    requires Unclaimed(schemes.requestHandlerSchemes, req.services.handlers)
    requires schemes.defaultAuthenticate == Some(d)
    requires req.services.authentication(d.name) == Returned(Some(p))
    ensures var r := Invocation(req, next, schemes);
      r.user == p
      && OfKind(r.trace, AuthenticateCall) == [Authenticated(d.name)]
      && OfKind(r.trace, UserWrite) == [UserAssigned(p)]
  {
    var r := Invocation(req, next, schemes);
    assert OfKind(r.trace, AuthenticateCall) == [Authenticated(d.name)] by {
      AuthenticateCalls(req, next, schemes);
      AuthenticationCalls(req, schemes);
    }
    assert OfKind(r.trace, UserWrite) == [UserAssigned(p)] by {
      UserWrites(req, next, schemes);
      AuthenticationCalls(req, schemes);
    }
  }

  /** Without a default scheme, or with a null result, or with a result without a
      principal, the user is left as it was and never assigned; without a default scheme
      the authentication service is not called at all, otherwise it is called once. */
  lemma NoPrincipalLeavesUser(req: Request, next: RequestDelegate, schemes: SchemeProvider)
    requires Unclaimed(schemes.requestHandlerSchemes, req.services.handlers)
    requires match schemes.defaultAuthenticate
      case None => true
      case Some(d) => req.services.authentication(d.name) == NullResult
                      || req.services.authentication(d.name) == Returned(None)
    ensures var r := Invocation(req, next, schemes);
      r.user == req.user
      && OfKind(r.trace, UserWrite) == []
      && OfKind(r.trace, AuthenticateCall) ==
           (match schemes.defaultAuthenticate case None => [] case Some(d) => [Authenticated(d.name)])
  {
    var r := Invocation(req, next, schemes);
    assert OfKind(r.trace, UserWrite) == [] by {
      UserWrites(req, next, schemes);
      AuthenticationCalls(req, schemes);
    }
    assert OfKind(r.trace, AuthenticateCall) ==
           (match schemes.defaultAuthenticate case None => [] case Some(d) => [Authenticated(d.name)]) by {
      AuthenticateCalls(req, next, schemes);
      AuthenticationCalls(req, schemes);
    }
  }

  /** When no scheme claims the request, the next stage is called exactly once, as the last
      call, so after any assignment of the user. */
  lemma NextRunsOnceOtherwise(req: Request, next: RequestDelegate, schemes: SchemeProvider)
    requires Unclaimed(schemes.requestHandlerSchemes, req.services.handlers)
    ensures var t := Invocation(req, next, schemes).trace;
      OfKind(t, NextCall) == [NextInvoked(next)]
      && t[|t| - 1] == NextInvoked(next)
      && forall p :: 0 <= p < |t| && t[p].UserAssigned? ==> p < |t| - 1
  {
    var r := Invocation(req, next, schemes);
    assert OfKind(r.trace, NextCall) == [NextInvoked(next)] by {
      NextCalls(req, next, schemes);
      AuthenticationCalls(req, schemes);
    }
    assert r.trace[|r.trace| - 1] == NextInvoked(next) by {
      InvocationShape(req, next, schemes);
    }
  }

  /** Every call of Invoke assigns the user at most once, and the user it leaves differs
      from the one it found only through that assignment. */
  lemma AtMostOneUserAssignment(req: Request, next: RequestDelegate, schemes: SchemeProvider)
    ensures var r := Invocation(req, next, schemes);
      (OfKind(r.trace, UserWrite) == [] && r.user == req.user)
      || OfKind(r.trace, UserWrite) == [UserAssigned(r.user)]
  {
    UserWrites(req, next, schemes);
    AuthenticationCalls(req, schemes);
  }
}
