/** `registerMiddleware` (src/registerMiddleware.js): computes the mount path of
    each middleware declaration and installs it on the router behind a wrapper
    that skips requests of other sites. */
module MiddlewareRegistrar {
  import opened Optional
  import opened JsStrings
  import opened Express

  /** The deployment flags: `isProd`, `isMultiSite` and the site's `domain`. */
  datatype DeploymentConfig = DeploymentConfig(isProd: bool, isMultiSite: bool, domain: string)

  /** The defaults `isProd = false`, `isMultiSite = false`, `domain = ''`. */
  const DefaultConfig: DeploymentConfig := DeploymentConfig(false, false, "")

  /** A middleware declaration `{ path, handler }`; `path` is `"METHOD path"`
      or missing. */
  datatype Middleware = Middleware(path: Option<string>, handler: HandlerId)

  // ---------------------------------------------------------------------------
  // The `handle` wrapper

  /** What the wrapper does with a request. */
  datatype MiddlewareAction = CallNext | CallHandler(handler: HandlerId)

  /** `req.isSite === false ? next() : handler(req, res, next)` */
  function Handle(handler: HandlerId, req: Request): (a: MiddlewareAction)
    ensures a == CallNext <==> req.isSite == Some(false)
    ensures a != CallNext ==> a == CallHandler(handler)
  {
    if req.isSite == Some(false) then CallNext else CallHandler(handler)
  }

  /** Running an installed middleware callback: the `MiddlewareHandle` tag
      stands for the `handle` wrapper around its handler. */
  function RunMiddleware(cb: Callback, req: Request): (a: MiddlewareAction)
    requires cb.MiddlewareHandle?
    ensures a == CallNext <==> req.isSite == Some(false)
    ensures a != CallNext ==> a == CallHandler(cb.handler)
  {
    Handle(cb.handler, req)
  }

  // ---------------------------------------------------------------------------
  // The mount path

  /** `if (p1)`: a path is given and it is not the empty string. */
  predicate IsScoped(m: Middleware) {
    m.path.Some? && m.path.value != ""
  }

  /** A scoped path has the space that separates the method from the path
      (the source reads the part after it unguarded). */
  predicate WellFormed(m: Middleware) {
    IsScoped(m) ==> ' ' in m.path.value
  }

  /** The method: the text before the first space, lower-cased. */
  function MethodOf(p1: string): (m: string)
    ensures forall i :: 0 <= i < |m| ==> !IsAsciiUpper(m[i])
    ensures |m| <= |p1|
  {
    SplitHead(p1, ' ');
    ToLower(Split(p1, ' ')[0])
  }

  /** `p2`: the text after the first space, up to the next space if any. */
  function RawPath(p1: string): (p2: string)
    requires ' ' in p1
    ensures ' ' !in p2
  {
    var parts := Split(p1, ' ');
    assert ' ' !in parts[1];
    parts[1]
  }

  /** `p3`: `p2` with a leading `/`, added only when missing. */
  function NormalizePath(p2: string): (p3: string)
    ensures |p3| > 0 && p3[0] == '/'
    ensures p3 == p2 || p3 == "/" + p2
    ensures p3 == p2 <==> |p2| > 0 && p2[0] == '/'
  {
    if |p2| > 0 && p2[0] == '/' then p2 else "/" + p2
  }

  /** Normalizing an already normalized path changes nothing. */
  lemma NormalizePathIdempotent(p2: string)
    ensures NormalizePath(NormalizePath(p2)) == NormalizePath(p2)
  {
  }

  /** The path actually registered: `/${domain}${p3}` for multi-site local
      development, `p3` otherwise. */
  function MountPath(p3: string, config: DeploymentConfig): (p: string)
    ensures p == p3 <==> config.isProd || !config.isMultiSite
    ensures p != p3 ==> p == "/" + config.domain + p3
    ensures |p3| <= |p| && p[|p| - |p3|..] == p3
  {
    if config.isProd || !config.isMultiSite then p3 else "/" + config.domain + p3
  }

  // ---------------------------------------------------------------------------
  // What one declaration registers, and what the loop registers

  function RegistrationOf(m: Middleware, config: DeploymentConfig): (r: Registration)
    requires WellFormed(m)
    ensures r.callback == MiddlewareHandle(m.handler)
    ensures r.Use? <==> !IsScoped(m)
  {
    if IsScoped(m) then
      var p1 := m.path.value;
      Route(MethodOf(p1), MountPath(NormalizePath(RawPath(p1)), config), MiddlewareHandle(m.handler))
    else
      Use(MiddlewareHandle(m.handler))
  }

  predicate AllWellFormed(ms: seq<Middleware>) {
    forall k :: 0 <= k < |ms| ==> WellFormed(ms[k])
  }

  /** The registrations of `ms`, one per declaration, in declaration order. */
  function Registrations(ms: seq<Middleware>, config: DeploymentConfig): (rs: seq<Registration>)
    requires AllWellFormed(ms)
    ensures |rs| == |ms|
    decreases |ms|
  {
    if ms == [] then []
    else Registrations(ms[..|ms| - 1], config) + [RegistrationOf(ms[|ms| - 1], config)]
  }

  /** The `k`-th registration is that of the `k`-th declaration. */
  lemma {:induction false} RegistrationAt(ms: seq<Middleware>, config: DeploymentConfig, k: nat)
    requires AllWellFormed(ms) && k < |ms|
    ensures Registrations(ms, config)[k] == RegistrationOf(ms[k], config)
    decreases |ms|
  {
    if k < |ms| - 1 {
      RegistrationAt(ms[..|ms| - 1], config, k);
    }
  }

  /** `registerMiddleware({ app, middleware, isProd, isMultiSite, domain })`:
      appends the registrations of `middleware` to the router, in order. */
  method RegisterMiddleware(app: Router, middleware: seq<Middleware>, config: DeploymentConfig)
    requires AllWellFormed(middleware)
    modifies app
    ensures app.table == old(app.table) + Registrations(middleware, config)
  {
    var i := 0;
    while i < |middleware|
      invariant 0 <= i <= |middleware|
      invariant app.table == old(app.table) + Registrations(middleware[..i], config)
    {
      RegisterOne(app, middleware[i], config);
      assert middleware[..i + 1][..i] == middleware[..i];
      i := i + 1;
    }
    assert middleware[..i] == middleware;
  }

  /** The body of the `forEach` callback: installs one declaration. */
  method RegisterOne(app: Router, m: Middleware, config: DeploymentConfig)
    requires WellFormed(m)
    modifies app
    ensures app.table == old(app.table) + [RegistrationOf(m, config)]
  {
    var handle := MiddlewareHandle(m.handler);
    if m.path.Some? && m.path.value != "" {
      var parts := Split(m.path.value, ' ');
      var verb, p2 := parts[0], parts[1];
      var p3 := if |p2| > 0 && p2[0] == '/' then p2 else "/" + p2;
      if config.isProd || !config.isMultiSite {
        app.AddRoute(ToLower(verb), p3, handle);
      } else {
        var p4 := "/" + config.domain + p3;
        app.AddRoute(ToLower(verb), p4, handle);
      }
    } else {
      app.AddUse(handle);
    }
  }

  // ---------------------------------------------------------------------------
  // Properties of a single registration

  /** A declaration without a path (or with the empty path) becomes one
      router-wide `use` hook and no method route. */
  lemma UnscopedIsUse(m: Middleware, config: DeploymentConfig)
    requires !IsScoped(m)
    ensures RegistrationOf(m, config) == Use(MiddlewareHandle(m.handler))
  {
  }

  /** A declaration with a path becomes a method route: the method is the
      lower-cased text before the first space, and the path after that space
      is registered with a leading `/`, under the domain prefix only for
      multi-site local development. */
  lemma ScopedIsRoute(m: Middleware, config: DeploymentConfig)
    requires IsScoped(m) && WellFormed(m)
    ensures var p1 := m.path.value;
      var r := RegistrationOf(m, config);
      var p3 := NormalizePath(RawPath(p1));
      r.Route? && r.callback == MiddlewareHandle(m.handler) &&
      r.verb == ToLower(p1[..|Split(p1, ' ')[0]|]) && ' ' !in Split(p1, ' ')[0] &&
      p1[|Split(p1, ' ')[0]|] == ' ' &&
      (config.isProd || !config.isMultiSite ==> r.path == p3) &&
      (!config.isProd && config.isMultiSite ==> r.path == "/" + config.domain + p3) &&
      |r.path| > 0 && r.path[0] == '/'
  {
    SplitHead(m.path.value, ' ');
  }

  /** Whatever a declaration registers, its callback skips the requests tagged
      `isSite === false` and passes every other request to the declared
      handler. */
  lemma RegisteredWrapper(m: Middleware, config: DeploymentConfig, req: Request)
    requires WellFormed(m)
    ensures var cb := RegistrationOf(m, config).callback;
      cb.MiddlewareHandle? &&
      (RunMiddleware(cb, req) == CallNext <==> req.isSite == Some(false)) &&
      (RunMiddleware(cb, req) != CallNext ==> RunMiddleware(cb, req) == CallHandler(m.handler))
  {
  }

  // ---------------------------------------------------------------------------
  // The declarations of the test suite

  const TestMiddleware: seq<Middleware> :=
    [Middleware(Some("GET /api/test-1"), 1), Middleware(None, 2)]

  /** The test declarations register the first middleware on the mount path
      of `/api/test-1` only and the second on every path. */
  lemma TestMiddlewareRegistrations(config: DeploymentConfig)
    ensures Registrations(TestMiddleware, config) ==
      [Route("get", MountPath("/api/test-1", config), MiddlewareHandle(1)), Use(MiddlewareHandle(2))]
  {
    RegistrationsPair(TestMiddleware[0], TestMiddleware[1], config);
    ScopedTestRegistration(config);
  }

  lemma RegistrationsPair(a: Middleware, b: Middleware, config: DeploymentConfig)
    requires WellFormed(a) && WellFormed(b)
    ensures Registrations([a, b], config) == [RegistrationOf(a, config), RegistrationOf(b, config)]
  {
    assert [a, b][..1] == [a];
  }

  lemma ScopedTestRegistration(config: DeploymentConfig)
    ensures RegistrationOf(Middleware(Some("GET /api/test-1"), 1), config) ==
      Route("get", MountPath("/api/test-1", config), MiddlewareHandle(1))
  {
    var p1 := "GET /api/test-1";
    assert MethodOf(p1) == "get" by {
      TestPathSplit();
      ToLowerGet();
    }
    assert RawPath(p1) == "/api/test-1" by {
      TestPathSplit();
    }
    assert NormalizePath("/api/test-1") == "/api/test-1";
  }

  lemma TestPathSplit()
    ensures Split("GET /api/test-1", ' ') == ["GET", "/api/test-1"]
  {
    SplitTwo("GET /api/test-1", "GET", "/api/test-1");
  }

  /** With the default flags, and in production whether multi-site or not,
      that mount path is `/api/test-1`: not `/api/test-2`. */
  lemma TestMiddlewareSingleSite(config: DeploymentConfig)
    requires config.isProd || !config.isMultiSite
    ensures Registrations(TestMiddleware, config) ==
      [Route("get", "/api/test-1", MiddlewareHandle(1)), Use(MiddlewareHandle(2))]
  {
    TestMiddlewareRegistrations(config);
  }

  /** The test suite's default flags are such a configuration. */
  lemma TestMiddlewareDefaultFlags()
    ensures Registrations(TestMiddleware, DefaultConfig) ==
      [Route("get", "/api/test-1", MiddlewareHandle(1)), Use(MiddlewareHandle(2))]
  {
    TestMiddlewareSingleSite(DefaultConfig);
  }

  /** Multi-site local development with domain `site-1` mounts the first
      middleware on `/site-1/api/test-1`. */
  lemma TestMiddlewareMultiSite()
    ensures Registrations(TestMiddleware, DeploymentConfig(false, true, "site-1")) ==
      [Route("get", "/site-1/api/test-1", MiddlewareHandle(1)), Use(MiddlewareHandle(2))]
  {
    var config := DeploymentConfig(false, true, "site-1");
    TestMiddlewareRegistrations(config);
    SitePrefixExample();
  }

  lemma SitePrefixExample()
    ensures MountPath("/api/test-1", DeploymentConfig(false, true, "site-1")) == "/site-1/api/test-1"
  {
  }
}
