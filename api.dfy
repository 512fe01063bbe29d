/**
 * The client's HTTP layer (client/src/api.js): how `makeRequest` builds a
 * request from an endpoint and caller options, how it turns the response into
 * a result or an error, and the fixed method and path of every wrapper.
 * `fetch` is a function parameter, the signed-in Firebase user is a
 * `Session` value, and `JSON.stringify` is left uninterpreted: a body to be
 * stringified is kept as the value it stringifies.
 */
module Api {
  import opened Wrappers
  import opened Text

  /** A JavaScript value as far as the wrappers and `makeRequest` look at it.
      Objects keep their properties in order; numbers are integers here. */
  datatype JsValue =
    | Undefined
    | Null
    | Bool(b: bool)
    | Number(n: int)
    | Str(s: string)
    | Array(items: seq<JsValue>)
    | Object(properties: seq<(string, JsValue)>)

  /** A thrown `Error`, by its message. */
  datatype Error = Error(message: string)

  const DefaultBaseUrl := "http://localhost:5000"

  /** `process.env.REACT_APP_API_URL || 'http://localhost:5000'`: an unset or
      empty variable falls back to the local server. */
  function BaseUrl(env: Option<string>): (url: string)
    ensures url != ""
    ensures env.Some? && env.value != "" ==> url == env.value
    ensures env.None? || env.value == "" ==> url == DefaultBaseUrl
  {
    if env.Some? && env.value != "" then env.value else DefaultBaseUrl
  }

  /** The `options` argument of `makeRequest`; an absent property is `None`,
      an empty map or `Undefined`. */
  datatype Options = Options(httpMethod: Option<string>, headers: map<string, string>, body: JsValue)

  /** `options = {}` */
  const NoOptions := Options(None, map[], Undefined)

  /** What `fetch` is given as the request body. */
  datatype Body = NoBody | Verbatim(text: string) | Stringified(value: JsValue)

  datatype Request = Request(url: string, httpMethod: string, headers: map<string, string>, body: Body)

  /** `token ? ... : ...`: no token (`null`) and the empty string are falsy. */
  predicate HasToken(token: Option<string>)
  {
    token.Some? && token.value != ""
  }

  /** The header set before the caller's headers are spread over it. */
  function BaseHeaders(token: Option<string>): (h: map<string, string>)
    ensures h.Keys == {"Content-Type"} + (if HasToken(token) then {"Authorization"} else {})
  {
    map["Content-Type" := "application/json"]
      + (if HasToken(token) then map["Authorization" := "Bearer " + token.value] else map[])
  }

  /** A string body goes as it is, any other defined body is stringified
      once, and an undefined body means no body. */
  function EncodeBody(body: JsValue): (b: Body)
    ensures b.NoBody? <==> body.Undefined?
    ensures b.Verbatim? <==> body.Str?
    ensures b.Verbatim? ==> b.text == body.s
    ensures b.Stringified? ==> b.value == body
  {
    if body.Undefined? then NoBody
    else if body.Str? then Verbatim(body.s)
    else Stringified(body)
  }

  /** The request `makeRequest` hands to `fetch`, given the current token. */
  function BuildRequest(baseUrl: string, endpoint: string, options: Options, token: Option<string>): (r: Request)
    ensures r.url == baseUrl + endpoint
    ensures r.httpMethod == if options.httpMethod.Some? && options.httpMethod.value != "" then options.httpMethod.value else "GET"
    ensures r.headers.Keys == {"Content-Type"} + options.headers.Keys
                              + (if HasToken(token) then {"Authorization"} else {})
    // the caller's headers win every conflict
    ensures forall name :: name in options.headers ==> r.headers[name] == options.headers[name]
    ensures "Content-Type" !in options.headers ==> r.headers["Content-Type"] == "application/json"
    ensures "Authorization" !in options.headers ==>
      ("Authorization" in r.headers <==> HasToken(token))
    ensures "Authorization" !in options.headers && HasToken(token) ==>
      r.headers["Authorization"] == "Bearer " + token.value
    ensures r.body == EncodeBody(options.body)
  {
    var httpMethod := if options.httpMethod.Some? && options.httpMethod.value != "" then options.httpMethod.value else "GET";
    Request(baseUrl + endpoint, httpMethod, BaseHeaders(token) + options.headers, EncodeBody(options.body))
  }

  /** What `response.text()` and `response.json()` would each give; either
      may fail. */
  datatype Response = Response(status: nat, text: Result<string, Error>, json: Result<JsValue, Error>)
  {
    /** `response.ok`: a status in the range 200-299. */
    predicate Ok() { 200 <= status <= 299 }
  }

  /** What `await fetch(url, config)` gives: a response, or a rejection. */
  datatype Transport = Responded(response: Response) | Rejected(error: Error)

  /** The message of the error thrown for a response that is not ok. */
  function HttpErrorMessage(status: nat, text: string): (m: string)
    ensures |m| > 5 && m[..5] == "HTTP "
  {
    "HTTP " + Show(status) + ": " + text
  }

  /** Reads the status and the body text back out of an error message. */
  function ParseHttpError(m: string): Option<(nat, string)>
  {
    if |m| < 5 || m[..5] != "HTTP " then None
    else
      var rest := m[5..];
      var n := DigitRun(rest);
      if n == 0 || |rest| < n + 2 || rest[n..n + 2] != ": " then None
      else Some((Value(rest[..n]), rest[n + 2..]))
  }

  /** The error message of a failed response names its status and text exactly. */
  lemma HttpErrorRoundTrip(status: nat, text: string)
    ensures ParseHttpError(HttpErrorMessage(status, text)) == Some((status, text))
  {
    var m := HttpErrorMessage(status, text);
    var digits := Show(status);
    var rest := m[5..];
    assert rest == digits + (": " + text);
    DigitRunStops(digits, ": " + text);
    assert rest[..|digits|] == digits;
    assert rest[|digits|..|digits| + 2] == ": ";
    assert rest[|digits| + 2..] == text;
    ValueOfShow(status);
  }

  /**
   * The `try` block of `makeRequest`: a rejected fetch is rethrown as it is;
   * a response that is not ok throws `HTTP <status>: <text>` (or whatever
   * reading the text threw); status 204 gives `{}`; any other ok status
   * gives the parsed body, or the parse error.
   */
  function Classify(t: Transport): (r: Result<JsValue, Error>)
    ensures t.Rejected? ==> r == Failure(t.error)
    ensures t.Responded? && !t.response.Ok() && t.response.text.Success? ==>
      r == Failure(Error(HttpErrorMessage(t.response.status, t.response.text.value)))
    ensures t.Responded? && !t.response.Ok() && t.response.text.Failure? ==>
      r == Failure(t.response.text.error)
    ensures t.Responded? && t.response.Ok() && t.response.status == 204 ==> r == Success(Object([]))
    ensures t.Responded? && t.response.Ok() && t.response.status != 204 ==> r == t.response.json
  {
    match t
    case Rejected(e) => Failure(e)
    case Responded(response) =>
      if !response.Ok() then
        match response.text
        case Success(text) => Failure(Error(HttpErrorMessage(response.status, text)))
        case Failure(e) => Failure(e)
      else if response.status != 204 then response.json
      else Success(Object([]))
  }

  /** A response that is not ok is never parsed as JSON. */
  lemma FailedResponseIgnoresJson(response: Response, json: Result<JsValue, Error>)
    requires !response.Ok()
    ensures Classify(Responded(response)) == Classify(Responded(response.(json := json)))
    ensures Classify(Responded(response)).Failure?
  {
  }

  /** An ok response never has its text read. */
  lemma OkResponseIgnoresText(response: Response, text: Result<string, Error>)
    requires response.Ok()
    ensures Classify(Responded(response)) == Classify(Responded(response.(text := text)))
  {
  }

  /** Whether a Firebase user is signed in, and what asking that user for an
      ID token gives. */
  datatype Session = SignedOut | SignedIn(idToken: Result<string, Error>)

  /** `getIdToken`: `null` without a user, otherwise the user's token, or the
      error getting it threw. */
  function GetIdToken(session: Session): (r: Result<Option<string>, Error>)
    ensures r == Success(None) <==> session.SignedOut?
    ensures session.SignedIn? && session.idToken.Success? ==> r == Success(Some(session.idToken.value))
    ensures session.SignedIn? && session.idToken.Failure? ==> r == Failure(session.idToken.error)
  {
    match session
    case SignedOut => Success(None)
    case SignedIn(Success(token)) => Success(Some(token))
    case SignedIn(Failure(e)) => Failure(e)
  }

  /** `makeRequest(endpoint, options)`: the token is fetched first and its
      failure propagates before any request is made; otherwise `fetch` gets
      the built request and its outcome is classified. */
  function MakeRequest(baseUrl: string, endpoint: string, options: Options, session: Session,
                       fetch: Request -> Transport): (r: Result<JsValue, Error>)
    ensures GetIdToken(session).Failure? ==> r == Failure(GetIdToken(session).error)
    ensures GetIdToken(session).Success? ==>
      r == Classify(fetch(BuildRequest(baseUrl, endpoint, options, GetIdToken(session).value)))
  {
    match GetIdToken(session)
    case Failure(e) => Failure(e)
    case Success(token) => Classify(fetch(BuildRequest(baseUrl, endpoint, options, token)))
  }

  /** A request goes with an `Authorization` header exactly when a user is
      signed in with a non-empty token, unless the caller sets that header. */
  lemma AuthorizationIffSignedIn(baseUrl: string, endpoint: string, options: Options, session: Session)
    requires GetIdToken(session).Success? && "Authorization" !in options.headers
    ensures var r := BuildRequest(baseUrl, endpoint, options, GetIdToken(session).value);
      "Authorization" in r.headers <==> session.SignedIn? && session.idToken.value != ""
  {
  }

  /** The calls of `ApiService`. */
  datatype Call =
    | Signup(email: string, password: string)
    | Login(email: string, password: string)
    | Logout
    | CheckAuth
    | GetBills
    | AddBill(billData: JsValue)
    | UpdateBill(billId: nat, billData: JsValue)
    | DeleteBill(billId: nat)
    | GetUserStats
    | ViewAllUsersData
    | DeleteAccount

  function Credentials(email: string, password: string): JsValue
  {
    Object([("email", Str(email)), ("password", Str(password))])
  }

  /** Each wrapper's endpoint and options. No wrapper sets headers; the
      calls that carry data carry it as the body. */
  function Endpoint(call: Call): (e: (string, Options))
    ensures |e.0| > 0 && e.0[0] == '/'
    ensures e.1.headers == map[]
    ensures call.AddBill? || call.UpdateBill? ==> e.1.body == call.billData
    ensures call.Signup? || call.Login? ==> e.1.body == Credentials(call.email, call.password)
    ensures !(call.AddBill? || call.UpdateBill? || call.Signup? || call.Login?) ==> e.1.body == Undefined
  {
    match call
    case Signup(email, password) => ("/signup", Options(Some("POST"), map[], Credentials(email, password)))
    case Login(email, password) => ("/login", Options(Some("POST"), map[], Credentials(email, password)))
    case Logout => ("/logout", Options(Some("POST"), map[], Undefined))
    case CheckAuth => ("/check-auth", NoOptions)
    case GetBills => ("/get_bills", NoOptions)
    case AddBill(data) => ("/add_bill", Options(Some("POST"), map[], data))
    case UpdateBill(id, data) => ("/update_bill/" + Show(id), Options(Some("PUT"), map[], data))
    case DeleteBill(id) => ("/delete_bill/" + Show(id), Options(Some("DELETE"), map[], Undefined))
    case GetUserStats => ("/user-stats", NoOptions)
    case ViewAllUsersData => ("/admin/view-all-data", NoOptions)
    case DeleteAccount => ("/delete-account", Options(Some("DELETE"), map[], Undefined))
  }

  /** The HTTP method a wrapper's request uses. */
  function MethodOf(call: Call): (m: string)
    ensures m == BuildRequest("", Endpoint(call).0, Endpoint(call).1, None).httpMethod
    ensures m == "GET" <==> call.CheckAuth? || call.GetBills? || call.GetUserStats? || call.ViewAllUsersData?
    ensures m == "POST" <==> call.Signup? || call.Login? || call.Logout? || call.AddBill?
    ensures m == "PUT" <==> call.UpdateBill?
    ensures m == "DELETE" <==> call.DeleteBill? || call.DeleteAccount?
  {
    var options := Endpoint(call).1;
    if options.httpMethod.Some? then options.httpMethod.value else "GET"
  }

  /** Worked examples of the classifier: a 404 with body "not found" and an
      empty 204. */
  lemma ClassifyExamples(json: Result<JsValue, Error>)
    ensures Classify(Responded(Response(404, Success("not found"), json)))
         == Failure(Error("HTTP 404: not found"))
    ensures Classify(Responded(Response(204, Success(""), json))) == Success(Object([]))
  {
    assert DigitChar(4) == '4' && DigitChar(0) == '0';
    assert Show(404) == "404" by {
      assert Show(40) == "40" by { assert Show(4) == "4"; }
    }
    assert HttpErrorMessage(404, "not found") == "HTTP 404: not found";
  }
}
