/**
 * The server actions that forward the session cookie to the backend API and normalise
 * what comes back into one result record `{success, data?, error?, message?, status?}`.
 *
 * The four actions of the source are one `Forward` parameterised by an `Action`: the
 * backend path, whether (and with which message) a missing session stops the call, the
 * error used for an HTTP failure whose body names none, and the error used when anything
 * throws. The auth client's `getSession()`, the cookie store and `fetch` are inputs:
 * what `getSession()` settled to, the cookie jar, and what the backend answered.
 */
module ServerActions {
  import opened Wrappers
  import opened Js
  import CookieUtils

  /** The backend address used when `NEXT_PUBLIC_API_BASE_URL` is unset or empty. */
  const DefaultApiBaseUrl: string := "http://localhost:8090"

  /** `process.env.NEXT_PUBLIC_API_BASE_URL || 'http://localhost:8090'` */
  function ApiBaseUrl(env: Option<string>): (url: string)
    ensures env.Some? && env.value != "" ==> url == env.value
    ensures env.None? || env.value == "" ==> url == DefaultApiBaseUrl
    ensures url != ""
  {
    if env.Some? && env.value != "" then env.value else DefaultApiBaseUrl
  }

  /** How `await authClient.getSession()` settled: to some value, or by throwing. */
  datatype SessionLookup = Resolved(session: JsValue) | Rejected(reason: Thrown)

  /** getCurrentUser: whatever `getSession()` resolved to, unchanged, or `null` when it threw. */
  function GetCurrentUser(lookup: SessionLookup): (user: JsValue)
    ensures lookup.Resolved? ==> user == lookup.session
    ensures lookup.Rejected? ==> user == Null
  {
    match lookup
    case Resolved(s) => s
    case Rejected(_) => Null
  }

  /** What `await response.json()` gives: a parsed value, or a SyntaxError with its message. */
  datatype Body = Json(value: JsValue) | Malformed(parseError: string)

  /** What the backend call came to: a response, or a rejection of `fetch` itself. */
  datatype FetchOutcome = Response(status: int, body: Body) | FetchFailed(reason: Thrown)

  /** `response.ok`: the status is in the 2xx range. */
  predicate IsOk(status: int): (ok: bool)
    ensures ok <==> status / 100 == 2
  {
    200 <= status <= 299
  }

  /** The outbound request: method, URL, Cookie and Content-Type headers, cache mode. */
  datatype Request = Request(httpMethod: string, url: string, cookie: string, contentType: string, cache: string)

  /** The result record; `None` is a key the object literal does not have. */
  datatype ActionResult = ActionResult(
    success: bool,
    data: Option<JsValue>,
    error: Option<JsValue>,
    message: Option<JsValue>,
    status: Option<int>)

  /** What tells one action from another. */
  datatype Action = Action(
    path: string,
    noSessionMessage: Option<string>, // Some(m): a falsy session stops the call with message m
    failureError: string,             // error of an HTTP failure whose body has no truthy `error`
    thrownError: string)              // error of anything caught

  const TestProtected := Action("/api/protected", Some("Please sign in to access protected routes"),
    "Failed to access protected route", "Failed to test protected route")

  const TestPublic := Action("/api/public", None,
    "Failed to access public route", "Failed to test public route")

  const TestAdmin := Action("/api/admin", Some("Please sign in to access admin routes"),
    "Failed to access admin route", "Failed to test admin route")

  const UserProfile := Action("/api/profile", Some("Please sign in to access profile"),
    "Failed to get profile", "Failed to get user profile")

  /** The record returned when the session guard stops the call. */
  function NoSession(message: string): (r: ActionResult)
    ensures !r.success && r.data.None? && r.status.None?
    ensures r.error == Some(Str("No active session")) && r.message == Some(Str(message))
  {
    ActionResult(false, None, Some(Str("No active session")), Some(Str(message)), None)
  }

  /** The record built in the `catch` clause. */
  function Caught(action: Action, e: Thrown): (r: ActionResult)
    ensures !r.success && r.data.None? && r.status.None?
    ensures r.error == Some(Str(action.thrownError))
    ensures r.message == Some(Str(ExceptionMessage(e)))
  {
    ActionResult(false, None, Some(Str(action.thrownError)), Some(Str(ExceptionMessage(e))), None)
  }

  /** The GET request every action sends: live (`no-store`), carrying the located session cookie. */
  function BackendRequest(baseUrl: string, path: string, cookieHeader: string): (req: Request)
    ensures req.httpMethod == "GET" && req.cache == "no-store" && req.contentType == "application/json"
    ensures req.url == baseUrl + path && req.cookie == cookieHeader
  {
    Request("GET", baseUrl + path, cookieHeader, "application/json", "no-store")
  }

  /** The first part of an action: either a result without a backend call, or the request to send. */
  datatype Step = Respond(result: ActionResult) | Send(request: Request)

  /**
   * Everything before `fetch`: the session guard (if the action has one) and the request.
   * A `getSession()` that throws lands in the `catch` clause.
   */
  function Begin(action: Action, baseUrl: string, lookup: SessionLookup, jar: CookieUtils.CookieJar): (s: Step)
    ensures s.Send? <==> action.noSessionMessage.None? || (lookup.Resolved? && Truthy(lookup.session))
    ensures s.Send? ==> s.request == BackendRequest(baseUrl, action.path, CookieUtils.SessionCookieHeader(jar))
    ensures action.noSessionMessage.Some? && lookup.Resolved? && !Truthy(lookup.session) ==>
      s == Respond(NoSession(action.noSessionMessage.value))
    ensures action.noSessionMessage.Some? && lookup.Rejected? ==>
      s == Respond(Caught(action, lookup.reason))
  {
    if action.noSessionMessage.Some? && lookup.Rejected? then
      Respond(Caught(action, lookup.reason))
    else if action.noSessionMessage.Some? && !Truthy(lookup.session) then
      Respond(NoSession(action.noSessionMessage.value))
    else
      Send(BackendRequest(baseUrl, action.path, CookieUtils.SessionCookieHeader(jar)))
  }

  /** The body could be parsed and is an object-like value whose properties can be read. */
  predicate Readable(outcome: FetchOutcome)
  {
    outcome.Response? && outcome.body.Json? && !outcome.body.value.Null? && !outcome.body.value.Undefined?
  }

  /**
   * Everything from `response.json()` on. The body is parsed before `response.ok` is
   * tested, so a body that is not JSON, or is JSON `null` (reading its `error` or `data`
   * throws), is handled by the `catch` clause whatever the status.
   */
  function Complete(action: Action, outcome: FetchOutcome): (r: ActionResult)
    // success: exactly `{success: true, data: body.data}`
    ensures r.success <==> Readable(outcome) && IsOk(outcome.status)
    ensures r.success ==>
      r == ActionResult(true, Some(Property(outcome.body.value, "data").v), None, None, None)
    // HTTP failure: body's error or the action's default, body's message, the status
    ensures r.status.Some? <==> Readable(outcome) && !IsOk(outcome.status)
    ensures r.status.Some? ==>
      var body := outcome.body.value;
      && !r.success && r.data.None? && r.status == Some(outcome.status)
      && r.error == Some(Or(Property(body, "error").v, Str(action.failureError)))
      && r.message == Some(Property(body, "message").v)
    // anything thrown: the action's generic error, the exception's message, no status
    ensures !Readable(outcome) ==> r.error == Some(Str(action.thrownError)) && r.status.None? && !r.success
    ensures outcome.FetchFailed? ==> r == Caught(action, outcome.reason)
    ensures outcome.Response? && outcome.body.Json? && !Readable(outcome) ==>
      r == Caught(action, Property(outcome.body.value, if IsOk(outcome.status) then "data" else "error").e)
    ensures outcome.Response? && outcome.body.Malformed? ==>
      r == Caught(action, ErrorInstance(outcome.body.parseError))
  {
    match outcome
    case FetchFailed(e) => Caught(action, e)
    case Response(status, body) =>
      match body
      case Malformed(m) => Caught(action, ErrorInstance(m))
      case Json(v) =>
        if !IsOk(status) then
          match Property(v, "error")
          case Throws(e) => Caught(action, e)
          case Value(err) =>
            var msg := Property(v, "message").v;
            ActionResult(false, None, Some(Or(err, Str(action.failureError))), Some(msg), Some(status))
        else
          match Property(v, "data")
          case Throws(e) => Caught(action, e)
          case Value(d) => ActionResult(true, Some(d), None, None, None)
  }

  /** One action run: the request it sends (if any) and the record it returns. */
  datatype Exchange = Exchange(request: Option<Request>, result: ActionResult)

  /**
   * An action, end to end. `outcome` is what the backend answers if a request is sent;
   * it plays no part when none is.
   */
  function Forward(action: Action, baseUrl: string, lookup: SessionLookup, jar: CookieUtils.CookieJar,
                   outcome: FetchOutcome): (x: Exchange)
    ensures x.request.Some? <==> action.noSessionMessage.None? || (lookup.Resolved? && Truthy(lookup.session))
    ensures x.request.Some? ==>
      && x.request.value == BackendRequest(baseUrl, action.path, CookieUtils.SessionCookieHeader(jar))
      && x.result == Complete(action, outcome)
    ensures action.noSessionMessage.Some? && lookup.Resolved? && !Truthy(lookup.session) ==>
      x == Exchange(None, NoSession(action.noSessionMessage.value))
    ensures action.noSessionMessage.Some? && lookup.Rejected? ==>
      x == Exchange(None, Caught(action, lookup.reason))
    ensures x.result.success <==> x.request.Some? && Readable(outcome) && IsOk(outcome.status)
    ensures x.result.status.Some? <==> x.request.Some? && Readable(outcome) && !IsOk(outcome.status)
  {
    match Begin(action, baseUrl, lookup, jar)
    case Respond(r) => Exchange(None, r)
    case Send(req) => Exchange(Some(req), Complete(action, outcome))
  }

  /** testProtectedRoute */
  function TestProtectedRoute(baseUrl: string, lookup: SessionLookup, jar: CookieUtils.CookieJar,
                              outcome: FetchOutcome): (x: Exchange)
    ensures lookup.Resolved? && !Truthy(lookup.session) ==>
      x == Exchange(None, NoSession("Please sign in to access protected routes"))
    ensures lookup.Rejected? ==> x == Exchange(None, Caught(TestProtected, lookup.reason))
    ensures x.request.Some? ==> x.request.value.url == baseUrl + "/api/protected"
    ensures !x.result.success && x.result.status.None? && x.request.Some? ==>
      x.result.error == Some(Str("Failed to test protected route"))
    ensures x.request.Some? && Readable(outcome) && !IsOk(outcome.status) ==>
      x.result.error == Some(Or(Property(outcome.body.value, "error").v, Str("Failed to access protected route")))
  {
    Forward(TestProtected, baseUrl, lookup, jar, outcome)
  }

  /**
   * Stands in for the session lookup of an action without a guard: testPublicRoute never
   * calls getSession(), and `PublicRouteIgnoresSession` shows any lookup gives the same run.
   */
  const NotConsulted: SessionLookup := Resolved(Undefined)

  /** testPublicRoute */
  function TestPublicRoute(baseUrl: string, jar: CookieUtils.CookieJar, outcome: FetchOutcome): (x: Exchange)
    ensures x.request == Some(BackendRequest(baseUrl, "/api/public", CookieUtils.SessionCookieHeader(jar)))
    ensures !x.result.success && x.result.status.None? ==>
      x.result.error == Some(Str("Failed to test public route"))
  {
    Forward(TestPublic, baseUrl, NotConsulted, jar, outcome)
  }

  /** testAdminRoute */
  function TestAdminRoute(baseUrl: string, lookup: SessionLookup, jar: CookieUtils.CookieJar,
                          outcome: FetchOutcome): (x: Exchange)
    ensures lookup.Resolved? && !Truthy(lookup.session) ==>
      x == Exchange(None, NoSession("Please sign in to access admin routes"))
    ensures lookup.Rejected? ==> x == Exchange(None, Caught(TestAdmin, lookup.reason))
    ensures x.request.Some? ==> x.request.value.url == baseUrl + "/api/admin"
    ensures !x.result.success && x.result.status.None? && x.request.Some? ==>
      x.result.error == Some(Str("Failed to test admin route"))
    ensures x.request.Some? && Readable(outcome) && !IsOk(outcome.status) ==>
      x.result.error == Some(Or(Property(outcome.body.value, "error").v, Str("Failed to access admin route")))
  {
    Forward(TestAdmin, baseUrl, lookup, jar, outcome)
  }

  /** getUserProfile */
  function GetUserProfile(baseUrl: string, lookup: SessionLookup, jar: CookieUtils.CookieJar,
                          outcome: FetchOutcome): (x: Exchange)
    ensures lookup.Resolved? && !Truthy(lookup.session) ==>
      x == Exchange(None, NoSession("Please sign in to access profile"))
    ensures lookup.Rejected? ==> x == Exchange(None, Caught(UserProfile, lookup.reason))
    ensures x.request.Some? ==> x.request.value.url == baseUrl + "/api/profile"
    ensures !x.result.success && x.result.status.None? && x.request.Some? ==>
      x.result.error == Some(Str("Failed to get user profile"))
    ensures x.request.Some? && Readable(outcome) && !IsOk(outcome.status) ==>
      x.result.error == Some(Or(Property(outcome.body.value, "error").v, Str("Failed to get profile")))
  {
    Forward(UserProfile, baseUrl, lookup, jar, outcome)
  }

  // ---------------------------------------------------------------------------
  // Properties relating runs of the actions.

  /** testPublicRoute never consults the session: every lookup gives the same run, and a request is always sent. */
  lemma PublicRouteIgnoresSession(baseUrl: string, lookup: SessionLookup, jar: CookieUtils.CookieJar,
                                  outcome: FetchOutcome)
    ensures Forward(TestPublic, baseUrl, lookup, jar, outcome) == TestPublicRoute(baseUrl, jar, outcome)
    ensures TestPublicRoute(baseUrl, jar, outcome).request.Some?
  {
  }

  /** A stopped call depends on nothing but the action: not on the cookie jar, the base URL or the backend. */
  lemma NoSessionIgnoresJarAndBackend(action: Action, session: JsValue,
                                      baseUrl1: string, jar1: CookieUtils.CookieJar, outcome1: FetchOutcome,
                                      baseUrl2: string, jar2: CookieUtils.CookieJar, outcome2: FetchOutcome)
    requires action.noSessionMessage.Some? && !Truthy(session)
    ensures Forward(action, baseUrl1, Resolved(session), jar1, outcome1)
         == Forward(action, baseUrl2, Resolved(session), jar2, outcome2)
    ensures Forward(action, baseUrl1, Resolved(session), jar1, outcome1).request.None?
  {
  }

  /**
   * The guard tests the value `getSession()` resolves to, not its `data` field: a
   * client-style reply `{data: null, error: null}` is an object, hence truthy, so the
   * call goes ahead, with an empty Cookie header when the jar holds no session cookie.
   */
  lemma GuardAdmitsEmptySessionReply(action: Action, baseUrl: string, outcome: FetchOutcome)
    ensures var reply := Object(map["data" := Null, "error" := Null]);
      Forward(action, baseUrl, Resolved(reply), map[], outcome).request
        == Some(BackendRequest(baseUrl, action.path, ""))
  {
  }

  /** A successful record: `{success: true, data}` and no other key. */
  predicate SuccessShape(r: ActionResult)
  {
    r.success && r.data.Some? && r.error.None? && r.message.None? && r.status.None?
  }

  /** An HTTP-failure record: `{success: false, error, message, status}`. */
  predicate HttpFailureShape(r: ActionResult)
  {
    !r.success && r.data.None? && r.error.Some? && r.message.Some? && r.status.Some?
  }

  /** A record for a stopped or failed call: `{success: false, error, message}` with string error and message. */
  predicate ErrorShape(r: ActionResult)
  {
    !r.success && r.data.None? && r.status.None?
    && r.error.Some? && r.error.value.Str? && r.message.Some? && r.message.value.Str?
  }

  /** Every run ends in exactly one of the three record shapes. */
  lemma ResultHasOneShape(action: Action, baseUrl: string, lookup: SessionLookup, jar: CookieUtils.CookieJar,
                          outcome: FetchOutcome)
    ensures var r := Forward(action, baseUrl, lookup, jar, outcome).result;
      && (SuccessShape(r) || HttpFailureShape(r) || ErrorShape(r))
      && !(SuccessShape(r) && HttpFailureShape(r))
      && !(SuccessShape(r) && ErrorShape(r))
      && !(HttpFailureShape(r) && ErrorShape(r))
  {
  }

  /**
   * The status key is present exactly when the backend answered with a readable non-2xx
   * body; in particular a body that fails to parse never yields a status, whatever the
   * status was.
   */
  lemma UnparsableBodyHasNoStatus(action: Action, status: int, parseError: string)
    ensures var r := Complete(action, Response(status, Malformed(parseError)));
      && !r.success && r.status.None?
      && r.error == Some(Str(action.thrownError))
      && r.message == Some(Str(parseError))
  {
  }
}
