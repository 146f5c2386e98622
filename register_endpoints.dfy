/** `registerEndpoints(app, endpoints)` (src/registerEndpoints.js): parses each
    endpoint's method and path and appends one route per endpoint, whose
    callback constructs the endpoint's handler. */
module EndpointRegistrar {
  import opened Optional
  import opened JsStrings
  import opened Express
  import opened Authorization
  import opened RequestHandling

  /** An endpoint declaration `{ method, path, handler, isSecure, data }`:
      `path` is either the path itself (when `method` is given) or
      `"METHOD path"`. The registrar ignores `data`. */
  datatype Endpoint = Endpoint(
    httpMethod: Option<string>,
    path: string,
    handler: HandlerId,
    isSecure: Option<bool>,
    data: Option<Json>)

  // ---------------------------------------------------------------------------
  // Method and path

  /** `endpoint.method?.toLowerCase()` is truthy: present and not empty. */
  predicate HasMethod(e: Endpoint) {
    e.httpMethod.Some? && e.httpMethod.value != ""
  }

  /** Without an explicit method the path must hold the space that separates
      method and path (the source reads the part after it unguarded). */
  predicate WellFormed(e: Endpoint) {
    HasMethod(e) || ' ' in e.path
  }

  /** The registered method: the explicit one, or the text before the first
      space of `path`, lower-cased either way. */
  function MethodOf(e: Endpoint): (m: string)
    requires WellFormed(e)
    ensures forall i :: 0 <= i < |m| ==> !IsAsciiUpper(m[i])
  {
    if HasMethod(e) then ToLower(e.httpMethod.value) else ToLower(Split(e.path, ' ')[0])
  }

  /** The registered path: `path` as given when a method is explicit, and the
      text after the first space (up to the next one) otherwise; it is neither
      normalized nor prefixed. */
  function PathOf(e: Endpoint): (p: string)
    requires WellFormed(e)
    ensures HasMethod(e) ==> p == e.path
    ensures !HasMethod(e) ==> ' ' !in p && |p| < |e.path|
  {
    if HasMethod(e) then e.path else SecondPart(e.path, ' '); Split(e.path, ' ')[1]
  }

  /** The route one endpoint registers. */
  function RouteOf(e: Endpoint): (r: Registration)
    requires WellFormed(e)
    ensures r.Route? && r.callback == EndpointHandle(e.handler, e.isSecure)
    ensures forall i :: 0 <= i < |r.verb| ==> !IsAsciiUpper(r.verb[i])
  {
    Route(MethodOf(e), PathOf(e), EndpointHandle(e.handler, e.isSecure))
  }

  predicate AllWellFormed(es: seq<Endpoint>) {
    forall k :: 0 <= k < |es| ==> WellFormed(es[k])
  }

  /** The routes of `es`, one per endpoint, in array order. */
  function Routes(es: seq<Endpoint>): (rs: seq<Registration>)
    requires AllWellFormed(es)
    ensures |rs| == |es|
    decreases |es|
  {
    if es == [] then [] else Routes(es[..|es| - 1]) + [RouteOf(es[|es| - 1])]
  }

  /** The `k`-th route is the route of the `k`-th endpoint. */
  lemma {:induction false} RouteAt(es: seq<Endpoint>, k: nat)
    requires AllWellFormed(es) && k < |es|
    ensures Routes(es)[k] == RouteOf(es[k])
    decreases |es|
  {
    if k < |es| - 1 {
      RouteAt(es[..|es| - 1], k);
    }
  }

  // ---------------------------------------------------------------------------
  // The registrar and the callback it installs

  /** `registerEndpoints(app, endpoints)`: appends the routes of `endpoints`
      to the router, in order. */
  method RegisterEndpoints(app: Router, endpoints: seq<Endpoint>)
    requires AllWellFormed(endpoints)
    modifies app
    ensures app.table == old(app.table) + Routes(endpoints)
  {
    var i := 0;
    while i < |endpoints|
      invariant 0 <= i <= |endpoints|
      invariant app.table == old(app.table) + Routes(endpoints[..i])
    {
      RoutesStep(endpoints, i);
      RegisterOne(app, endpoints[i]);
      i := i + 1;
    }
    assert endpoints[..i] == endpoints;
  }

  lemma RoutesStep(es: seq<Endpoint>, i: nat)
    requires AllWellFormed(es) && i < |es|
    ensures AllWellFormed(es[..i]) && AllWellFormed(es[..i + 1])
    ensures Routes(es[..i + 1]) == Routes(es[..i]) + [RouteOf(es[i])]
  {
    assert es[..i + 1][..i] == es[..i];
  }

  /** The body of the `forEach` callback: installs one endpoint. */
  method RegisterOne(app: Router, endpoint: Endpoint)
    requires WellFormed(endpoint)
    modifies app
    ensures app.table == old(app.table) + [RouteOf(endpoint)]
  {
    var verb := if endpoint.httpMethod.Some? then ToLower(endpoint.httpMethod.value) else "";
    var path: string;
    if verb != "" {
      path := endpoint.path;
    } else {
      var parts := Split(endpoint.path, ' ');
      verb := ToLower(parts[0]);
      path := parts[1];
    }
    // the method is lowered a second time at registration
    ToLowerIdempotent(if HasMethod(endpoint) then endpoint.httpMethod.value else Split(endpoint.path, ' ')[0]);
    app.AddRoute(ToLower(verb), path, EndpointHandle(endpoint.handler, endpoint.isSecure));
  }


  /** The installed callback `(req, res) => { new handler({ req, res, isSecure }) }`:
      it constructs the handler from the request, the response and the
      endpoint's `isSecure` alone, so the handler sees the default data `{}`,
      and it does not look at `req.isSite`. */
  method InvokeEndpoint(cb: Callback, req: Request, res: Response, authorizer: Authorizer)
      returns (h: RequestHandler)
    requires cb.EndpointHandle?
    requires cb.isSecure == Some(true) && !req.hasValidToken ==> !res.headersSent
    modifies res, authorizer
    ensures fresh(h) && h.Valid()
    ensures h.req == req && h.res == res && h.data == EmptyObject && !h.hasError
    ensures h.isAuthorized <==> !(cb.isSecure == Some(true) && !req.hasValidToken)
    ensures authorizer.queries == old(authorizer.queries) + (if cb.isSecure == Some(true) then 1 else 0)
    ensures h.isAuthorized ==> unchanged(res)
    ensures !h.isAuthorized ==> res.status == 401 && res.body == Text("Unauthorized")
  {
    h := new RequestHandler(req, res, None, cb.isSecure, authorizer);
  }

  // ---------------------------------------------------------------------------
  // Properties of a single route

  /** With an explicit method, the route uses it lower-cased and the path
      verbatim. */
  lemma ExplicitMethodRoute(e: Endpoint)
    requires HasMethod(e)
    ensures RouteOf(e) == Route(ToLower(e.httpMethod.value), e.path, EndpointHandle(e.handler, e.isSecure))
  {
  }

  /** Without one, `path = "M p rest"` registers method `M` lower-cased and
      path `p`: the text between the first space and the next one. */
  lemma CombinedMethodRoute(e: Endpoint)
    requires !HasMethod(e) && ' ' in e.path
    ensures var first := Split(e.path, ' ')[0];
      var r := RouteOf(e);
      r.verb == ToLower(first) && first == e.path[..|first|] && ' ' !in first &&
      e.path[|first|] == ' ' &&
      r.path == Split(e.path[|first| + 1..], ' ')[0] &&
      ' ' !in r.path && r.callback == EndpointHandle(e.handler, e.isSecure)
  {
    SplitHead(e.path, ' ');
  }

  /** The route's callback carries the endpoint's handler and `isSecure`, and
      nothing of its `data`: two endpoints that differ only in `data` register
      the same route. */
  lemma DataIsIgnored(e: Endpoint, data: Option<Json>)
    requires WellFormed(e)
    ensures RouteOf(e.(data := data)) == RouteOf(e)
  {
  }

  // ---------------------------------------------------------------------------
  // The declarations of the test suite

  /** `GET api/test-1` registers `api/test-1`, without a leading `/`. */
  lemma UnnormalizedPathExample()
    ensures RouteOf(Endpoint(None, "GET api/test-1", 1, None, None)) ==
      Route("get", "api/test-1", EndpointHandle(1, None))
  {
    var e := Endpoint(None, "GET api/test-1", 1, None, None);
    TestPathSplit();
    ToLowerGet();
    assert MethodOf(e) == "get" && PathOf(e) == "api/test-1";
  }

  lemma TestPathSplit()
    ensures Split("GET api/test-1", ' ') == ["GET", "api/test-1"]
  {
    SplitTwo("GET api/test-1", "GET", "api/test-1");
  }

  /** The secure test endpoint: a request without a valid token gets the 401
      and the handler is told it is not authorized; one with a valid token is
      authorized and its response is left for the handler to write. */
  method SecureEndpointExample(hasValidToken: bool) returns (h: RequestHandler)
    ensures h.isAuthorized == hasValidToken
    ensures !hasValidToken ==> h.res.status == 401 && h.res.body == Text("Unauthorized")
    ensures hasValidToken ==> !h.res.headersSent
  {
    var res := new Response();
    var authorizer := new Authorizer();
    h := InvokeEndpoint(EndpointHandle(7, Some(true)), Request(None, hasValidToken), res, authorizer);
  }
}
