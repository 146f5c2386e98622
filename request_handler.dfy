/** `RequestHandler` (src/request-handler.class.js): the per-request object that
    runs the authorization gate at construction and offers guarded `send` and
    `error` operations writing the fixed JSON envelopes. */
module RequestHandling {
  import opened Optional
  import opened JsStrings
  import opened Express
  import opened Authorization

  // ---------------------------------------------------------------------------
  // Error codes and fixed texts

  const SCRIPT_ERROR: string := "SCRIPT_ERROR"
  const USER_ERROR: string := "USER_ERROR"

  /** The text that marks an error message as safe to show to the caller. */
  const UserErrorMarker: string := "USER_ERROR:"

  /** The only message a non-user error discloses. */
  const ServerErrorMessage: string := "Server error"

  /** The message and data `send` uses when the caller gives none. */
  const DefaultSendMessage: string := "Success"

  // ---------------------------------------------------------------------------
  // The arguments of `error` and the diagnostic log

  /** The options object of `error`, without its `error` property; a `None`
      field was omitted and takes its default (`number = null`,
      `code = SCRIPT_ERROR`, `suppressLog = false`, `status = 500`). */
  datatype ErrorOptions = ErrorOptions(
    number: Option<int>,
    code: Option<string>,
    suppressLog: Option<bool>,
    status: Option<int>)

  /** The `Error` object handed to `error`; `error` rewrites its `message`. */
  class JsError {
    var message: string

    constructor (message: string)
      ensures this.message == message
    {
      this.message := message;
    }
  }

  /** One `console.error(timestamp(), number, error)` line, without the time. */
  datatype LogRecord = LogRecord(number: Option<int>, errorMessage: string)

  /** The process's diagnostic output. */
  class Console {
    var records: seq<LogRecord>

    constructor ()
      ensures records == []
    {
      records := [];
    }

    method Log(r: LogRecord)
      modifies this
      ensures records == old(records) + [r]
    {
      records := records + [r];
    }
  }

  // ---------------------------------------------------------------------------
  // The classification and disclosure policy of `error`

  /** What `error` settles on before writing: the rewritten error message, the
      effective code and status, the message put in the body, and whether a
      diagnostic line is printed. */
  datatype Decision = Decision(
    message: string,
    code: string,
    status: int,
    disclosed: string,
    log: bool)

  /** The message with the first marker removed and the ends trimmed. */
  function StripMarker(message: string): (r: string)
    ensures IsTrimmed(r)
    ensures Includes(message, UserErrorMarker) ==> |r| <= |message| - |UserErrorMarker|
  {
    Trim(ReplaceFirst(message, UserErrorMarker, ""))
  }

  /** The policy of `error` for the given options and error message. A user
      error (marked in the message, or passed `USER_ERROR` as its code) is
      answered with 200, is not logged, and discloses its message; any other
      error keeps the caller's code and status (defaults `SCRIPT_ERROR`, 500),
      discloses only `Server error`, and is logged unless suppressed. */
  function Classify(opts: ErrorOptions, message: string): (d: Decision)
    ensures d.code == USER_ERROR <==> Includes(message, UserErrorMarker) || opts.code == Some(USER_ERROR)
    ensures d.message == if Includes(message, UserErrorMarker) then StripMarker(message) else message
    ensures d.code == USER_ERROR ==> d.status == 200 && !d.log && d.disclosed == d.message
    ensures d.code != USER_ERROR ==>
      d.code == opts.code.ValueOr(SCRIPT_ERROR) &&
      d.status == opts.status.ValueOr(500) &&
      d.disclosed == ServerErrorMessage &&
      d.log == !opts.suppressLog.ValueOr(false)
    ensures d.log ==> d.message == message && d.disclosed == ServerErrorMessage
  {
    var marked := Includes(message, UserErrorMarker);
    var code := if marked then USER_ERROR else opts.code.ValueOr(SCRIPT_ERROR);
    var text := if marked then StripMarker(message) else message;
    var isUser := code == USER_ERROR;
    var suppressLog := isUser || opts.suppressLog.ValueOr(false);
    var status := if isUser then 200 else opts.status.ValueOr(500);
    Decision(text, code, status, if isUser then text else ServerErrorMessage, !suppressLog)
  }

  /** A marked message is disclosed without the marker occurrence that was
      found first and without white space at either end: it is the trimmed text
      from before and after that occurrence. */
  lemma MarkedMessageDisclosed(opts: ErrorOptions, message: string)
    requires Includes(message, UserErrorMarker)
    ensures var d := Classify(opts, message);
      var i := IndexOf(message, UserErrorMarker).value;
      d.code == USER_ERROR && d.status == 200 && !d.log &&
      d.disclosed == Trim(message[..i] + message[i + |UserErrorMarker|..]) &&
      IsTrimmed(d.disclosed) &&
      |d.disclosed| <= |message| - |UserErrorMarker|
  {
    RemoveFirst(message, UserErrorMarker);
  }

  /** A diagnostic line and a disclosed message never go together: the
      operator sees the detail, or the caller does, never both. */
  lemma LogOrDisclose(opts: ErrorOptions, message: string)
    ensures var d := Classify(opts, message);
      d.log ==> d.disclosed == ServerErrorMessage && d.code != USER_ERROR
  {
  }

  /** The body of the test endpoint that reports `Test 6 error` with number
      104020 and no code: status 500, `SCRIPT_ERROR`, `Server error`, logged. */
  lemma ScriptErrorExample()
    ensures Classify(ErrorOptions(Some(104020), None, None, None), "Test 6 error")
         == Decision("Test 6 error", SCRIPT_ERROR, 500, ServerErrorMessage, true)
  {
    NoMarkerIn("Test 6 error");
  }

  /** The test endpoint that passes `USER_ERROR` as its code: status 200 and
      the message disclosed as given. */
  lemma UserErrorCodeExample()
    ensures Classify(ErrorOptions(Some(345673), Some(USER_ERROR), None, None), "Test 6 error")
         == Decision("Test 6 error", USER_ERROR, 200, "Test 6 error", false)
  {
    NoMarkerIn("Test 6 error");
  }

  /** A message without the character `:` cannot contain the marker. */
  lemma NoMarkerIn(message: string)
    requires ':' !in message
    ensures !Includes(message, UserErrorMarker)
  {
    forall j | OccursAt(message, UserErrorMarker, j)
      ensures false
    {
      MarkerColon(message, j);
    }
  }

  lemma MarkerColon(message: string, j: int)
    requires OccursAt(message, UserErrorMarker, j)
    ensures j + |UserErrorMarker| - 1 < |message| && message[j + |UserErrorMarker| - 1] == ':'
  {
    assert message[j..j + |UserErrorMarker|][|UserErrorMarker| - 1] == ':';
  }

  // ---------------------------------------------------------------------------
  // The handler object

  class RequestHandler {
    /** `#hasError`: set by the first `error` that gets through its guard. */
    var hasError: bool
    const req: Request
    const res: Response
    const data: Json
    var isAuthorized: bool

    /** Once `hasError` is set the response has been written. */
    ghost predicate Valid()
      reads this, res
    {
      hasError ==> res.headersSent
    }

    /** `new RequestHandler({ req, res, data = {}, isSecure = false })`. A
        secure construction asks the authorizer once and, on refusal, clears
        `isAuthorized` and lets the authorizer write the 401; a non-secure one
        never asks and leaves the response alone. */
    constructor (req: Request, res: Response, data: Option<Json>, isSecure: Option<bool>, authorizer: Authorizer)
      requires isSecure == Some(true) && !req.hasValidToken ==> !res.headersSent
      modifies res, authorizer
      ensures Valid()
      ensures this.req == req && this.res == res && this.data == data.ValueOr(EmptyObject)
      ensures !hasError
      ensures isAuthorized <==> !(isSecure == Some(true) && !req.hasValidToken)
      ensures authorizer.queries == old(authorizer.queries) + (if isSecure == Some(true) then 1 else 0)
      ensures !isAuthorized ==> res.headersSent && res.status == 401 && res.body == Text("Unauthorized")
      ensures isAuthorized ==> unchanged(res)
    {
      this.hasError := false;
      this.req := req;
      this.res := res;
      this.data := data.ValueOr(EmptyObject);
      this.isAuthorized := true;
      new;
      if isSecure == Some(true) {
        Authorize(authorizer);
      }
    }

    /** `#authorize()` */
    method Authorize(authorizer: Authorizer)
      requires (!req.hasValidToken ==> !res.headersSent) && isAuthorized
      modifies this`isAuthorized, res, authorizer
      ensures isAuthorized == req.hasValidToken
      ensures authorizer.queries == old(authorizer.queries) + 1
      ensures !isAuthorized ==> res.headersSent && res.status == 401 && res.body == Text("Unauthorized")
      ensures isAuthorized ==> unchanged(res)
    {
      var ok := authorizer.IsAuthorized(req);
      if !ok {
        isAuthorized := false;
        authorizer.SendUnauthorized(res);
      }
    }

    /** `send({ message = 'Success', data = {} })`: writes 200 and the success
        envelope, unless an error was already sent or the headers are already
        out, in which case nothing changes. It never sets `hasError`. */
    method Send(message: Option<string>, data: Option<Json>)
      requires Valid()
      modifies res
      ensures Valid() && res.headersSent
      ensures old(hasError || res.headersSent) ==> unchanged(res)
      ensures !old(hasError || res.headersSent) ==>
        res.status == 200 &&
        res.body == Envelope(message.ValueOr(DefaultSendMessage), data.ValueOr(EmptyObject))
    {
      if hasError || res.headersSent {
        return;
      }
      res.Write(200, Envelope(message.ValueOr(DefaultSendMessage), data.ValueOr(EmptyObject)));
    }

    /** `error({ number, error, code, suppressLog, status })`: unless a response
        is already out, sets `hasError` first, rewrites a marked error message,
        logs when the policy says so, and writes the error envelope with the
        status, code and disclosed message `Classify` decides. */
    method Error(opts: ErrorOptions, error: JsError, console: Console)
      requires Valid()
      modifies this`hasError, res, error, console
      ensures Valid() && res.headersSent
      ensures old(hasError || res.headersSent) ==> unchanged(this, res, error, console)
      ensures !old(hasError || res.headersSent) ==>
        var d := Classify(opts, old(error.message));
        hasError &&
        error.message == d.message &&
        res.status == d.status &&
        res.body == ErrorEnvelope(opts.number, d.code, d.disclosed) &&
        console.records == old(console.records) + (if d.log then [LogRecord(opts.number, old(error.message))] else [])
    {
      if hasError || res.headersSent {
        return;
      }
      hasError := true;
      ghost var d := Classify(opts, error.message);

      var code := opts.code.ValueOr(SCRIPT_ERROR);
      var suppressLog := opts.suppressLog.ValueOr(false);
      var status := opts.status.ValueOr(500);
      if Includes(error.message, UserErrorMarker) {
        code := USER_ERROR;
        error.message := Trim(ReplaceFirst(error.message, UserErrorMarker, ""));
      }

      assert code == d.code && error.message == d.message;

      var sendMessage := false;
      if code == USER_ERROR {
        sendMessage := true;
        suppressLog := true;
        status := 200;
      }
      assert status == d.status && !suppressLog == d.log;

      if !suppressLog {
        console.Log(LogRecord(opts.number, error.message));
      }

      res.Write(status, ErrorEnvelope(opts.number, code, if sendMessage then error.message else ServerErrorMessage));
    }
  }

  // ---------------------------------------------------------------------------
  // Sequences of calls on one handler

  /** After an `error` that got through, a later `send` and a later `error`
      leave the response, the handler and the log as the first `error` left
      them. */
  method ErrorThenMore(h: RequestHandler, first: ErrorOptions, e: JsError, later: ErrorOptions, e2: JsError,
                       message: Option<string>, data: Option<Json>, console: Console)
    requires h.Valid() && !h.hasError && !h.res.headersSent
    modifies h, h.res, e, e2, console
    ensures var d := Classify(first, old(e.message));
      h.hasError && h.res.status == d.status && h.res.body == ErrorEnvelope(first.number, d.code, d.disclosed)
    ensures e2.message == old(e2.message) || e2 == e
    ensures var d := Classify(first, old(e.message));
      e.message == d.message &&
      console.records == old(console.records) + (if d.log then [LogRecord(first.number, old(e.message))] else [])
  {
    h.Error(first, e, console);
    h.Send(message, data);
    h.Error(later, e2, console);
  }

  /** A `send` that got through makes a later `send` or `error` change nothing:
      the response already went out, and `hasError` stays clear. */
  method SendThenMore(h: RequestHandler, message: Option<string>, data: Option<Json>,
                      later: ErrorOptions, e: JsError, console: Console)
    requires h.Valid() && !h.hasError && !h.res.headersSent
    modifies h, h.res, e, console
    ensures !h.hasError && h.res.status == 200
    ensures h.res.body == Envelope(message.ValueOr(DefaultSendMessage), data.ValueOr(EmptyObject))
    ensures e.message == old(e.message) && console.records == old(console.records)
  {
    h.Send(message, data);
    h.Send(None, None);
    h.Error(later, e, console);
  }

  /** `send()` without arguments answers 200 with `{ message: 'Success',
      data: {} }`; explicit `message` and `data` are passed through. */
  method SendExample(message: Option<string>, data: Option<Json>) returns (res: Response)
    ensures res.headersSent && res.status == 200
    ensures message == None && data == None ==> res.body == Envelope("Success", EmptyObject)
    ensures message.Some? && data.Some? ==> res.body == Envelope(message.value, data.value)
  {
    res := new Response();
    var authorizer := new Authorizer();
    var h := new RequestHandler(Request(None, false), res, None, None, authorizer);
    h.Send(message, data);
  }
}
