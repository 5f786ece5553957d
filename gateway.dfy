/**
 * The authenticated request gateway (`api_request`): it builds one upstream
 * request from a method name, an endpoint, an optional JSON payload, an
 * optional token and optional query parameters, hands it to the transport,
 * and turns every transport failure into a fabricated response. The
 * transport is a parameter: a function from the request to what happened on
 * the wire.
 */
module Gateway {
  import opened Wrappers
  import opened JsonValues
  import DetailBody
  import opened Text

  datatype Verb = Get | Post | Put | Delete

  /** One request as it leaves the application. */
  datatype Request = Request(
    verb: Verb,
    endpoint: string,
    bearer: Option<Json>,   // the token sent as `Authorization: Bearer <token>`
    query: Option<Json>,    // `params` (GET only)
    payload: Option<Json>)  // `json=data` (POST and PUT only)

  /** A response body: decoded JSON, or raw text. */
  datatype Body = JsonBody(value: Json) | TextBody(text: string)

  /**
   * What the transport reports for one request. `ConnectTimeout` is kept
   * apart because the HTTP library makes it both a connection error and a
   * timeout.
   */
  datatype Transport =
    | Answered(status: int, body: Body)
    | ConnectionFailed
    | ConnectTimeout
    | ReadTimeout
    | OtherFault(message: string)

  /** The gateway's result; `synthetic` marks a response no server sent. */
  datatype ApiResult = ApiResult(status: int, body: Body, synthetic: bool)

  /** A gateway call: its result and the requests it put on the wire. */
  datatype Exchange = Exchange(result: ApiResult, sent: seq<Request>)

  // The fixed detail messages, written in pieces short enough to check character by character.
  const ServiceUnavailable: string := "Service unavailable." + " Could not connect to the API."
  const TimedOut: string := "Request timed out." + " The API is taking" + " too long to respond."
  const ErrorPrefix: string := "An error occurred: "
  const UnsupportedPrefix: string := "Unsupported HTTP method: "

  function VerbName(v: Verb): string
  {
    match v
    case Get => "get"
    case Post => "post"
    case Put => "put"
    case Delete => "delete"
  }

  /** The method name compared case-insensitively with the four supported verbs. */
  function ParseVerb(methodName: string): (r: Option<Verb>)
    ensures forall v :: r == Some(v) <==> Lower(methodName) == VerbName(v)
  {
    var m := Lower(methodName);
    if m == "get" then Some(Get)
    else if m == "post" then Some(Post)
    else if m == "put" then Some(Put)
    else if m == "delete" then Some(Delete)
    else None
  }

  /**
   * The request `api_request` sends, or the message of the `ValueError` it
   * raises for an unsupported method.
   */
  function BuildRequest(methodName: string, endpoint: string, data: Option<Json>, token: Option<Json>, params: Option<Json>)
    : (r: Result<Request, string>)
    ensures r.Failure? <==> ParseVerb(methodName).None?
    ensures r.Failure? ==> r.error == UnsupportedPrefix + methodName
    ensures r.Success? ==> Lower(methodName) == VerbName(r.value.verb) && r.value.endpoint == endpoint
    ensures r.Success? ==> (r.value.bearer.Some? <==> OptTruthy(token))
    ensures r.Success? && r.value.bearer.Some? ==> r.value.bearer == token
    ensures r.Success? ==> r.value.query == (if r.value.verb == Get then params else None)
    ensures r.Success? ==> r.value.payload == (if r.value.verb in {Post, Put} then data else None)
  {
    match ParseVerb(methodName)
    case None => Failure(UnsupportedPrefix + methodName)
    case Some(v) =>
      var bearer := if OptTruthy(token) then token else None;
      match v
      case Get => Success(Request(Get, endpoint, bearer, params, None))
      case Post => Success(Request(Post, endpoint, bearer, None, data))
      case Put => Success(Request(Put, endpoint, bearer, None, data))
      case Delete => Success(Request(Delete, endpoint, bearer, None, None))
  }

  /** A fabricated response whose body carries one detail message. */
  function Synthetic(status: int, detail: string): ApiResult
  {
    ApiResult(status, TextBody(DetailBody.Encode(detail)), true)
  }

  /** The detail message the gateway reports for a transport failure. */
  function FailureDetail(t: Transport): string
    requires !t.Answered?
  {
    match t
    case ConnectionFailed => ServiceUnavailable
    case ConnectTimeout => ServiceUnavailable
    case ReadTimeout => TimedOut
    case OtherFault(m) => ErrorPrefix + m
  }

  /** The status the gateway reports for a transport failure. */
  function FailureStatus(t: Transport): (s: int)
    requires !t.Answered?
    ensures s == 503 <==> t.ConnectionFailed? || t.ConnectTimeout?
    ensures s == 504 <==> t.ReadTimeout?
    ensures s == 500 <==> t.OtherFault?
  {
    match t
    case ConnectionFailed => 503
    case ConnectTimeout => 503
    case ReadTimeout => 504
    case OtherFault(_) => 500
  }

  /**
   * The except-chain of `api_request`: a real answer passes through
   * untouched; a fault becomes a fabricated response with the fault's status
   * whose body decodes, as a caller's `response.json()` would, to the detail
   * object of the fault: "Service unavailable..." for 503, "Request timed
   * out..." for 504 and "An error occurred: <message>" for 500.
   */
  function Classify(t: Transport): (r: ApiResult)
    ensures r.synthetic <==> !t.Answered?
    ensures t.Answered? ==> r.status == t.status && r.body == t.body
    ensures !t.Answered? ==> r.status in {500, 503, 504}
    ensures !t.Answered? ==> r.status == FailureStatus(t) && Decode(r.body) == Some(DetailObject(FailureDetail(t)))
  {
    if t.Answered? then ApiResult(t.status, t.body, false)
    else
      DetailBody.EncodeRoundTrip(FailureDetail(t));
      Synthetic(FailureStatus(t), FailureDetail(t))
  }

  /**
   * `api_request`: the unsupported-method error is raised inside the `try`
   * and so becomes a fabricated 500 like any other fault; nothing escapes.
   */
  function ApiRequest(methodName: string, endpoint: string, data: Option<Json>, token: Option<Json>, params: Option<Json>,
                      api: Request -> Transport): (x: Exchange)
    ensures |x.sent| <= 1
    ensures x.sent == [] <==> ParseVerb(methodName).None?
    ensures x.sent != [] ==> BuildRequest(methodName, endpoint, data, token, params) == Success(x.sent[0])
    ensures x.sent != [] ==> x.result == Classify(api(x.sent[0]))
    ensures x.sent == [] ==> x.result == Synthetic(500, ErrorPrefix + UnsupportedPrefix + methodName)
    ensures x.sent == [] ==> Decode(x.result.body) == Some(DetailObject(ErrorPrefix + UnsupportedPrefix + methodName))
  {
    match BuildRequest(methodName, endpoint, data, token, params)
    case Failure(e) =>
      assert ErrorPrefix + e == ErrorPrefix + UnsupportedPrefix + methodName;
      Exchange(Classify(OtherFault(e)), [])
    case Success(req) => Exchange(Classify(api(req)), [req])
  }

  /** What `response.json()` gives for a body, or None where it raises. */
  function Decode(b: Body): Option<Json>
  {
    match b
    case JsonBody(v) => Some(v)
    case TextBody(t) =>
      match DetailBody.ParseDetail(t)
      case Some(d) => Some(JObj(map["detail" := JStr(d)]))
      case None => None
  }

  /** The JSON object `{"detail": d}`. */
  function DetailObject(d: string): Json
  {
    JObj(map["detail" := JStr(d)])
  }

  lemma ServiceUnavailablePlain()
    ensures DetailBody.Plain(ServiceUnavailable)
  {
    var a1, a2 := "Service unavailable.", " Could not connect to the API.";
    assert DetailBody.Plain(a1);
    assert DetailBody.Plain(a2);
    DetailBody.PlainConcat(a1, a2);
  }

  lemma TimedOutPlain()
    ensures DetailBody.Plain(TimedOut)
  {
    var b1, b2, b3 := "Request timed out.", " The API is taking", " too long to respond.";
    assert DetailBody.Plain(b1);
    assert DetailBody.Plain(b2);
    assert DetailBody.Plain(b3);
    DetailBody.PlainConcat(b1, b2);
    DetailBody.PlainConcat(b1 + b2, b3);
  }

  /** The two fixed bodies are, byte for byte, the ones the source writes. */
  lemma FixedBodiesAsWritten()
    ensures DetailBody.Encode(ServiceUnavailable) == DetailBody.AsWritten(ServiceUnavailable)
    ensures DetailBody.Encode(TimedOut) == DetailBody.AsWritten(TimedOut)
  {
    ServiceUnavailablePlain();
    TimedOutPlain();
    DetailBody.PlainEncodeAsWritten(ServiceUnavailable);
    DetailBody.PlainEncodeAsWritten(TimedOut);
  }

  /**
   * The method name is matched case-insensitively: two names that differ
   * only in letter case build the same request.
   */
  lemma MethodCaseInsensitive(name1: string, name2: string, endpoint: string, data: Option<Json>, token: Option<Json>, params: Option<Json>)
    requires Lower(name1) == Lower(name2)
    requires ParseVerb(name1).Some?
    ensures BuildRequest(name1, endpoint, data, token, params) == BuildRequest(name2, endpoint, data, token, params)
  {
  }

  /**
   * The source's own body for an unsupported method whose name holds a
   * double quote is not JSON, so a caller's `response.json()` raises on it.
   */
  lemma AsWrittenUnsupportedBodyBreaks()
    ensures DetailBody.ParseDetail(DetailBody.AsWritten(ErrorPrefix + UnsupportedPrefix + "ge\"t")) == None
  {
    var p := ErrorPrefix + UnsupportedPrefix + "ge";
    assert DetailBody.Plain(ErrorPrefix);
    assert DetailBody.Plain(UnsupportedPrefix);
    assert DetailBody.Plain("ge");
    DetailBody.PlainConcat(ErrorPrefix, UnsupportedPrefix);
    DetailBody.PlainConcat(ErrorPrefix + UnsupportedPrefix, "ge");
    DetailBody.QuoteBreaksAsWrittenBody(p, "t");
    assert ErrorPrefix + UnsupportedPrefix + "ge\"t" == p + "\"" + "t";
  }
}
