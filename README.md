# sempervirens-endpoint, modelled in Dafny

This project models the decision logic that the `@sempervirens/endpoint` package puts on top of
Express. It has three parts:

- **`RequestHandler`** (`request_handler.dfy`, module `RequestHandling`) is the per-request
  object. At construction it runs the authorization gate for secure endpoints. It offers a guarded
  `send`, which writes `{ message, data }` with status 200, and a guarded `error`, which applies the
  `USER_ERROR` classification and disclosure policy and writes `{ error: { number, code, message } }`.
  Both are no-ops once an error has been sent or once the response headers are out.
- **`registerMiddleware`** (`register_middleware.dfy`, module `MiddlewareRegistrar`) works out each
  middleware's mount path: it splits `"METHOD path"`, lower-cases the method, ensures a leading `/`,
  and adds the `/${domain}` prefix only in multi-site local development. A declaration without a
  path becomes a router-wide `use` hook. Every middleware is wrapped so that requests tagged
  `isSite === false` go straight to `next`.
- **`registerEndpoints`** (`register_endpoints.dfy`, module `EndpointRegistrar`) parses each
  endpoint's method and path, either from explicit fields or from a combined `"METHOD path"`, and
  appends one route per endpoint. Each route's callback constructs the handler from `req`, `res` and
  `isSecure`.

Around them:

- `express.dfy` models the router collaborator. Module `Express` has requests, a
  response record (`headersSent`, `status`, `body`) that can be written once, the JSON envelopes,
  and a router that keeps its registrations as a sequence in installation order.
- Module `Authorization` in the same file models the authorizer as an oracle that counts how often
  it is asked.
- `js_strings.dfy` (module `JsStrings`) gives the ECMAScript string operations the source uses:
  `toLowerCase`, `split`, `includes`, `replace` and `trim`.
- `optional.dfy` holds the `Option` type, which stands for a JavaScript value that may be
  `undefined`.

The registrars are loops that append to the router's table, so they are methods. Each one is proved
to append exactly the sequence given by a pure function (`Registrations`, `Routes`). The
properties of one declaration are proved as lemmas about that function. `send` and `error` are
methods of a `RequestHandler` class. `error` is specified by the pure policy function
`Classify`.

In these places the code does something a reader may not expect, and the model follows the code:

- `send` does not set `#hasError`. After a `send`, a second `send` or an `error` is stopped only
  because `res.headersSent` is set.
- `error` trims only the two ends of the message after removing the first `USER_ERROR:`.
  Whitespace around a marker in the middle of the message is kept.
- `registerEndpoints(app, endpoints)` in src/registerEndpoints.js does none of the following: normalize paths, add a
  multi-site prefix, merge or pass `data`, or check `isSite`, so `"GET api/x"` registers `api/x`.
  The test suite calls an object form, `registerEndpoints({ app, endpoints, isProd, isMultiSite,
  domain })`, and expects data to be passed and the prefix to be added. That object form is not
  part of this model.
- `index.js` does not export `registerMiddleware`, although the tests import it.
- A malformed declaration makes the source crash rather than fail cleanly. Such declarations are
  excluded by preconditions (`WellFormed`).

## Model

| member | source | states |
|---|---|---|
| `JsStrings.ToLower` | src/registerMiddleware.js:21 | the result has the input's length, each character is lowered, and no ASCII upper-case letter is left |
| `JsStrings.ToLowerIdempotent` | src/registerEndpoints.js:13 | lowering a second time, as registration does with the already lowered method, changes nothing |
| `JsStrings.Split` | src/registerMiddleware.js:17 | `split(' ')` yields at least one part, exactly one when there is no space; no part contains the separator; joining the parts gives back the input |
| `JsStrings.SecondPart` | src/registerMiddleware.js:17 | when the separator occurs, the second part is the text right after the first separator, up to the next one |
| `JsStrings.SplitTwo` | src/registerEndpoints.js:10 | two space-free words joined by one space split into exactly those two words |
| `JsStrings.SplitJoin` | src/registerEndpoints.js:9 | splitting undoes joining parts that contain no separator |
| `JsStrings.SplitHead` | src/registerMiddleware.js:17 | the first part is the prefix before the first separator, and the remaining parts are the split of what follows it |
| `JsStrings.IndexOf` | src/request-handler.class.js:58 | the result is the first position where the pattern occurs, or none when it occurs nowhere |
| `JsStrings.Includes` | src/request-handler.class.js:56 | `includes` holds exactly when the pattern occurs at some position |
| `JsStrings.ReplaceFirst` | src/request-handler.class.js:58 | without an occurrence the text is returned unchanged; with one, exactly one pattern's length is replaced by the replacement's (see `RemoveFirst` for the contents) |
| `JsStrings.RemoveFirst` | src/request-handler.class.js:58 | `replace(marker, '')` removes exactly the first occurrence and keeps the text on both sides |
| `JsStrings.Trim` | src/request-handler.class.js:58 | `trim` returns a contiguous piece of the input with no white space at either end; only white space is cut off on either side |
| `JsStrings.TrimIdempotent` | src/request-handler.class.js:58 | trimming twice is trimming once |
| `JsStrings.TrimmedIsFixed` | src/request-handler.class.js:58 | a message with no white space at either end comes out of `trim` unchanged |
| `RequestHandling.Classify` | src/request-handler.class.js:45-76 | effective code is `USER_ERROR` iff the message holds the marker or the caller passed that code; a user error gets status 200, is not logged and discloses its (marker-stripped, trimmed) message; any other error keeps the caller's code and status (defaults `SCRIPT_ERROR`, 500), discloses only `Server error`, and is logged iff logging is not suppressed |
| `RequestHandling.StripMarker` | src/request-handler.class.js:58 | the rewritten message has no white space at either end and is shorter than a marked message by at least the marker |
| `RequestHandling.MarkedMessageDisclosed` | src/request-handler.class.js:56-59 | a marked message is answered with 200 and `USER_ERROR`, and the disclosed text is the trimmed text before and after the first marker, with no white space at either end |
| `RequestHandling.LogOrDisclose` | src/request-handler.class.js:61-74 | when a diagnostic line is printed, the body says only `Server error`: the detail goes to the operator or to the caller, never to both |
| `RequestHandling.ScriptErrorExample` | test/endpoint.test.js:216-226 | the test error with no code gives status 500, `SCRIPT_ERROR`, `Server error`, and is logged |
| `RequestHandling.UserErrorCodeExample` | test/endpoint.test.js:229-241 | the test error with code `USER_ERROR` gives status 200 and discloses `Test 6 error` as given |
| `RequestHandling.RequestHandler.constructor` | src/request-handler.class.js:14-25 | stores `req`/`res`, defaults `data` to `{}`, clears `#hasError`; asks the authorizer once iff `isSecure`; `isAuthorized` is false exactly when secure and refused, and the 401 is written then and only then |
| `RequestHandling.RequestHandler.Authorize` | src/request-handler.class.js:27-32 | asks the oracle once; on refusal clears `isAuthorized` and has the authorizer write the 401, otherwise leaves the response alone |
| `RequestHandling.RequestHandler.Send` | src/request-handler.class.js:34-43 | no change at all when `#hasError` or `headersSent`; otherwise status 200 and `{ message, data }` with defaults `Success` and `{}`; never touches `#hasError`; afterwards the response is sent |
| `RequestHandling.RequestHandler.Error` | src/request-handler.class.js:45-78 | no change at all when `#hasError` or `headersSent`; otherwise sets `#hasError`, rewrites the error message, appends a log record iff `Classify` says so, and writes `Classify`'s status with `{ error: { number, code, message } }`, `number` being `null` when omitted |
| `RequestHandling.ErrorThenMore` | src/request-handler.class.js:53-54 | after one `error` gets through, a later `send` and a later `error` leave the status, the body, the rewritten message and the log exactly as that first `error` left them: one record more iff `Classify` logs it |
| `RequestHandling.SendThenMore` | src/request-handler.class.js:41-42 | after a `send` gets through, a later `send` or `error` changes nothing, and `#hasError` stays clear |
| `RequestHandling.SendExample` | test/endpoint.test.js:196-211 | `send()` gives 200 with `Success` and `{}`; explicit message and data are passed through |
| `MiddlewareRegistrar.Handle` | src/registerMiddleware.js:12-14 | the wrapper calls `next` iff `req.isSite === false`, and for any other tag (including none) calls the handler |
| `MiddlewareRegistrar.RunMiddleware` | src/registerMiddleware.js:12-14 | running a stored middleware callback calls `next` iff `req.isSite === false`, and its own handler otherwise |
| `MiddlewareRegistrar.RegisteredWrapper` | src/registerMiddleware.js:12-14 | the callback installed for any declaration skips to `next` exactly for requests tagged `isSite === false` and calls the declared handler otherwise |
| `MiddlewareRegistrar.NormalizePath` | src/registerMiddleware.js:18 | the result starts with `/`, differs from the input at most by a prepended `/`, and equals the input iff the input already starts with `/` |
| `MiddlewareRegistrar.NormalizePathIdempotent` | src/registerMiddleware.js:18 | normalizing twice is normalizing once |
| `MiddlewareRegistrar.MethodOf` | src/registerMiddleware.js:17-21 | the method registered has no ASCII upper-case letter and is no longer than the declared path (its value: `ScopedIsRoute`) |
| `MiddlewareRegistrar.RawPath` | src/registerMiddleware.js:17 | `p2` contains no space; `SecondPart` shows it is the text right after the first space of the declared path |
| `MiddlewareRegistrar.MountPath` | src/registerMiddleware.js:20-25 | the mount path is `p3` itself exactly when `isProd` or not `isMultiSite`, and `/${domain}${p3}` otherwise; it always ends with `p3` |
| `MiddlewareRegistrar.RegistrationOf` | src/registerMiddleware.js:16-30 | the registration carries the declaration's wrapped handler, and it is a `use` exactly when the declaration is unscoped (routes: `ScopedIsRoute`) |
| `MiddlewareRegistrar.Registrations` | src/registerMiddleware.js:8-31 | one registration per declaration |
| `MiddlewareRegistrar.RegistrationAt` | src/registerMiddleware.js:8-31 | the k-th registration is that of the k-th declaration, so the table keeps declaration order |
| `MiddlewareRegistrar.RegisterMiddleware` | src/registerMiddleware.js:1-32 | the loop appends exactly `Registrations(middleware, config)` to the router's table, after what was there |
| `MiddlewareRegistrar.RegisterOne` | src/registerMiddleware.js:8-31 | the `forEach` callback appends exactly the registration of its one declaration, and nothing else |
| `MiddlewareRegistrar.UnscopedIsUse` | src/registerMiddleware.js:28-30 | a declaration without a path (or with the empty one) becomes a single router-wide `use` and no method route |
| `MiddlewareRegistrar.ScopedIsRoute` | src/registerMiddleware.js:16-27 | a declaration with a path becomes a method route: the method is the lowered text before the first space; the path is the normalized second part, used as is when `isProd` or not `isMultiSite`, prefixed with `/domain` otherwise; it always starts with `/` |
| `MiddlewareRegistrar.TestMiddlewareRegistrations` | test/endpoint.test.js:134-148 | the test middleware registers `get` on the mount path of `/api/test-1`, then a router-wide hook |
| `MiddlewareRegistrar.TestMiddlewareSingleSite` | test/endpoint.test.js:391-408 | with default flags, and in production, the first test middleware is on `/api/test-1` and not on `/api/test-2` |
| `MiddlewareRegistrar.TestMiddlewareDefaultFlags` | test/endpoint.test.js:391-408 | with the default flags `isProd = false`, `isMultiSite = false`, `domain = ''`, the first test middleware is on `/api/test-1` |
| `MiddlewareRegistrar.TestMiddlewareMultiSite` | test/endpoint.test.js:490-507 | in multi-site local development with `site-1`, it is on `/site-1/api/test-1` |
| `EndpointRegistrar.MethodOf` | src/registerEndpoints.js:4-11 | the registered method never holds an ASCII upper-case letter |
| `EndpointRegistrar.PathOf` | src/registerEndpoints.js:5-11 | with a method the path is `path` verbatim; without one it is a space-free piece shorter than `path` (its value: `CombinedMethodRoute`) |
| `EndpointRegistrar.RouteOf` | src/registerEndpoints.js:13 | every endpoint registers one method route, whose callback captures its handler and `isSecure`, and whose method has no upper-case letter |
| `EndpointRegistrar.Routes` | src/registerEndpoints.js:2-16 | one route per endpoint |
| `EndpointRegistrar.RouteAt` | src/registerEndpoints.js:2-16 | the k-th route is the route of the k-th endpoint, so the routes keep the array order |
| `EndpointRegistrar.RegisterEndpoints` | src/registerEndpoints.js:1-17 | the loop appends exactly `Routes(endpoints)` to the router's table, after what was there |
| `EndpointRegistrar.RegisterOne` | src/registerEndpoints.js:3-15 | the `forEach` callback appends exactly the route of its one endpoint, and nothing else; the second lowering at registration is shown to be harmless |
| `EndpointRegistrar.ExplicitMethodRoute` | src/registerEndpoints.js:4-7 | with `method` given, the route uses it lowered and `path` verbatim |
| `EndpointRegistrar.CombinedMethodRoute` | src/registerEndpoints.js:9-11 | without `method`, the route uses the lowered text before the first space of `path`, and the space-free text after that space |
| `EndpointRegistrar.DataIsIgnored` | src/registerEndpoints.js:3 | an endpoint's `data` has no influence on its route or callback |
| `EndpointRegistrar.InvokeEndpoint` | src/registerEndpoints.js:13-15 | the callback constructs a fresh handler with `req`, `res` and the endpoint's `isSecure` only, so it sees data `{}`, whatever `req.isSite` is |
| `EndpointRegistrar.UnnormalizedPathExample` | test/endpoint.test.js:101-105 | `GET api/test-1` registers method `get` on `api/test-1`, without a leading `/` |
| `EndpointRegistrar.SecureEndpointExample` | test/endpoint.test.js:250-314 | on the secure endpoint, a request without a valid token gets `401 Unauthorized` and the handler is told it is not authorized; with a valid token the response is left to the handler |

## Left out

- `JsStrings.ToLower`: lowers only the ASCII letters A to Z. `toLowerCase` also maps other Unicode letters, which never occur in HTTP method names.
- Strings are sequences of Unicode scalar values, not of UTF-16 code units. `trim` removes the
  ECMAScript WhiteSpace and LineTerminator code points, listed one by one.
- Express itself is out: its HTTP transport, route matching and dispatch order. The model's router
  accepts a route for any method string. The real `app[method]` is undefined for an unknown method,
  and calling it throws.
- `RequestHandling.RequestHandler.constructor`: requires an unsent response when `isSecure` is set
  and the request has no valid token. In that case the authorizer writes its 401 through Express,
  which refuses a second response. The handler is
  built while the request is being dispatched.
- The authorizer's JWT verification and token minting are a foreign library. `isAuthorized` is
  modelled as the request's `hasValidToken` answer. `sendUnauthorized` is modelled as writing
  status 401 with `Unauthorized`, as the tests observe it.
- `console.error(timestamp(), number, error)` is kept as a record of the number and the error
  message. The time and the rest of the `Error` object (its stack) are not modelled.
- Crashes in the source are stated as preconditions or ruled out by types:
  - `error` with the default `error = null`, or with no argument at all, throws. In the model,
    `JsError` is a non-null class.
  - A middleware path without a space leaves `p2` undefined.
  - An endpoint without `method` whose `path` has no space throws at src/registerEndpoints.js:13,
    because `app[method]` is not a function. For a bare verb such as `GET`, the router is handed an
    undefined path instead.
- Loose JavaScript values are narrowed to the types used in the model:
  - `isSecure`, `isProd` and `isMultiSite` are booleans.
  - The `isSite` tag is a boolean or absent. Only `=== false` matters, so any other value acts like
    an absent tag.
  - `message` is a string.
  - An endpoint's `path` is a string. With `method` given and `path` missing, the source calls
    `app[method](undefined, …)`; the model has no such endpoint.
  - `number` and `status` are integers.
- The handler subclasses of the tests, such as `Test1RequestHandler`, are examples, not the core.
  The endpoint callback (`EndpointRegistrar.InvokeEndpoint`) runs the base class constructor that a
  subclass's `super(...)` call runs.
- `src/error-codes.enum.js` is not part of this model. `SCRIPT_ERROR` and `USER_ERROR` take the
  values that the tests compare against.
- The object form `registerEndpoints({ app, endpoints, isProd, isMultiSite, domain })` that the
  tests call is not part of this model. `index.js` only re-exports. The test server
  (`test/endpoint-test-server.js`) is harness code.
