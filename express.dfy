/** The external HTTP router, reduced to what the registrars and the request
    handler touch: requests tagged with site applicability, a response that can
    be written once, and a router that records registrations in order. */
module Express {
  import opened Optional

  /** JSON values carried in response bodies. */
  datatype Json =
    | JNull
    | JBool(b: bool)
    | JNumber(n: int)
    | JString(s: string)
    | JArray(items: seq<Json>)
    | JObject(fields: map<string, Json>)

  /** The empty object `{}`. */
  const EmptyObject: Json := JObject(map[])

  /** What a response carries once written. */
  datatype Body =
    | NoBody
      // `{ message, data }`, the success envelope
    | Envelope(message: string, data: Json)
      // `{ error: { number, code, message } }`; `number` is `null` when `None`
    | ErrorEnvelope(number: Option<int>, code: string, message: string)
      // a plain text body, e.g. the authorizer's `Unauthorized`
    | Text(text: string)

  /** An identifier standing for a handler function or handler class supplied
      by the application. */
  type HandlerId = nat

  /** A live request. `isSite` is the tag an upstream site-resolution step may
      set (`None`: not set); `hasValidToken` is what the authorizer will answer
      for this request. */
  datatype Request = Request(isSite: Option<bool>, hasValidToken: bool)

  /** The response object of one request. */
  class Response {
    var headersSent: bool
    var status: int
    var body: Body

    constructor ()
      ensures !headersSent && status == 200 && body == NoBody
    {
      headersSent, status, body := false, 200, NoBody;
    }

    /** `res.status(s).json(b)` / `res.status(s).send(b)`: sets the status and
        flushes the body. The router refuses to write a response twice. */
    method Write(s: int, b: Body)
      requires !headersSent
      modifies this
      ensures headersSent && status == s && body == b
    {
      headersSent, status, body := true, s, b;
    }
  }

  /** The closures the registrars install, described by what they capture. */
  datatype Callback =
      // the `handle` wrapper of registerMiddleware around a middleware function
    | MiddlewareHandle(handler: HandlerId)
      // the `(req, res) => new handler({ req, res, isSecure })` of registerEndpoints
    | EndpointHandle(handler: HandlerId, isSecure: Option<bool>)

  /** One entry of the router's table: `app[verb](path, callback)` or
      `app.use(callback)`. */
  datatype Registration =
    | Route(verb: string, path: string, callback: Callback)
    | Use(callback: Callback)

  /** The router (`app`): its registration table, in installation order. */
  class Router {
    var table: seq<Registration>

    constructor ()
      ensures table == []
    {
      table := [];
    }

    /** `app[verb](path, callback)` */
    method AddRoute(verb: string, path: string, callback: Callback)
      modifies this
      ensures table == old(table) + [Route(verb, path, callback)]
    {
      table := table + [Route(verb, path, callback)];
    }

    /** `app.use(callback)` */
    method AddUse(callback: Callback)
      modifies this
      ensures table == old(table) + [Use(callback)]
    {
      table := table + [Use(callback)];
    }
  }
}

/** The authorizer collaborator: an oracle that answers whether a request
    carries valid credentials, and writes the `401 Unauthorized` reply. */
module Authorization {
  import opened Express

  class Authorizer {
    /** How many times `isAuthorized` has been asked. */
    var queries: nat

    constructor ()
      ensures queries == 0
    {
      queries := 0;
    }

    /** `authorizer.isAuthorized(req)` */
    method IsAuthorized(req: Request) returns (ok: bool)
      modifies this
      ensures ok == req.hasValidToken
      ensures queries == old(queries) + 1
    {
      ok := req.hasValidToken;
      queries := queries + 1;
    }

    /** `authorizer.sendUnauthorized(res)`: the reply the tests observe. */
    method SendUnauthorized(res: Response)
      requires !res.headersSent
      modifies res
      ensures res.headersSent && res.status == 401 && res.body == Text("Unauthorized")
    {
      res.Write(401, Text("Unauthorized"));
    }
  }
}
