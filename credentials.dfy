/**
 * The credential store (the visitor's signed session) and the two operations
 * that change it on the gateway's behalf: `refresh_token`, which trades the
 * stored refresh token for a new access token, and
 * `api_request_with_refresh`, which replays a request once after a 401 when
 * that trade succeeds.
 */
module Credentials {
  import opened Wrappers
  import opened JsonValues
  import opened Gateway
  import opened Text

  /** The upstream API as the application sees it: what each kind of call returns. */
  datatype Upstream = Upstream(
    api: Request -> Transport,                          // every gateway request
    refresh: Json -> Transport,                         // POST /token/refresh with the refresh token
    login: (Option<string>, Option<string>) -> Transport)  // POST /token with username and password

  /** One call put on the wire. */
  datatype Call =
    | ApiCall(request: Request)
    | RefreshCall(refreshToken: Json)
    | LoginCall(username: Option<string>, password: Option<string>)

  /** The outcome of `refresh_token`: its answer, the session afterwards, the calls made. */
  datatype RefreshStep = RefreshStep(ok: bool, session: map<string, Json>, calls: seq<Call>)

  /** The outcome of a gateway call with refresh: its result, the session afterwards, the calls made. */
  datatype Outcome = Outcome(result: ApiResult, session: map<string, Json>, calls: seq<Call>)

  /**
   * The fields of a token response: a 200 whose body decodes to an object
   * holding `access_token`. Any other answer makes the token handling raise
   * or decline.
   */
  function TokenFields(t: Transport): (r: Option<map<string, Json>>)
    ensures r.Some? ==> t.Answered? && t.status == 200 && "access_token" in r.value
    ensures r.Some? ==> Decode(t.body) == Some(JObj(r.value))
  {
    if t.Answered? && t.status == 200 then
      match Decode(t.body)
      case Some(JObj(f)) => if "access_token" in f then Some(f) else None
      case _ => None
    else None
  }

  /** The session after storing a token response: `token` always, `refresh_token` only if one came back. */
  function StoreTokens(session: map<string, Json>, f: map<string, Json>): (r: map<string, Json>)
    requires "access_token" in f
    ensures r.Keys == session.Keys + {"token"} + (if "refresh_token" in f then {"refresh_token"} else {})
    ensures r["token"] == f["access_token"]
    ensures "refresh_token" in f ==> r["refresh_token"] == f["refresh_token"]
    ensures forall k :: k in session && k != "token" && (k != "refresh_token" || "refresh_token" !in f) ==> r[k] == session[k]
  {
    var s := session["token" := f["access_token"]];
    if "refresh_token" in f then s["refresh_token" := f["refresh_token"]] else s
  }

  /**
   * `refresh_token`. Without a stored refresh token nothing is sent. Any
   * failure (transport fault, non-200, a body that does not decode or lacks
   * `access_token`) answers false and leaves the session as it was; success
   * overwrites `token`, rotates `refresh_token` only when a new one is given,
   * and touches no other key.
   */
  function TryRefresh(session: map<string, Json>, up: Upstream): (r: RefreshStep)
    ensures r.calls == if "refresh_token" in session then [RefreshCall(session["refresh_token"])] else []
    ensures r.ok <==> "refresh_token" in session && TokenFields(up.refresh(session["refresh_token"])).Some?
    ensures !r.ok ==> r.session == session
    ensures r.ok ==> var f := TokenFields(up.refresh(session["refresh_token"])).value;
      && r.session.Keys == session.Keys + {"token"}
      && r.session["token"] == f["access_token"]
      && r.session["refresh_token"] == (if "refresh_token" in f then f["refresh_token"] else session["refresh_token"])
      && forall k :: k in session && k != "token" && k != "refresh_token" ==> r.session[k] == session[k]
  {
    if "refresh_token" !in session then RefreshStep(false, session, [])
    else
      var rt := session["refresh_token"];
      match TokenFields(up.refresh(rt))
      case None => RefreshStep(false, session, [RefreshCall(rt)])
      case Some(f) => RefreshStep(true, StoreTokens(session, f), [RefreshCall(rt)])
  }

  function ApiCalls(sent: seq<Request>): (cs: seq<Call>)
    ensures |cs| == |sent|
    ensures forall i :: 0 <= i < |sent| ==> cs[i] == ApiCall(sent[i])
  {
    seq(|sent|, i requires 0 <= i < |sent| => ApiCall(sent[i]))
  }

  /**
   * `api_request_with_refresh`: one gateway call; on a status of exactly 401
   * a refresh, and if that succeeds one replay carrying the session's new
   * token (not the caller's), whose result is returned whatever it is.
   */
  function RequestWithRefresh(methodName: string, endpoint: string, data: Option<Json>, token: Option<Json>,
                              params: Option<Json>, session: map<string, Json>, up: Upstream): (o: Outcome)
    ensures session.Keys <= o.session.Keys
    ensures forall k :: k in session && k != "token" && k != "refresh_token" ==> o.session[k] == session[k]
  {
    var first := ApiRequest(methodName, endpoint, data, token, params, up.api);
    if first.result.status != 401 then Outcome(first.result, session, ApiCalls(first.sent))
    else
      var rf := TryRefresh(session, up);
      if !rf.ok then Outcome(first.result, session, ApiCalls(first.sent) + rf.calls)
      else
        var second := ApiRequest(methodName, endpoint, data, Some(rf.session["token"]), params, up.api);
        Outcome(second.result, rf.session, ApiCalls(first.sent) + rf.calls + ApiCalls(second.sent))
  }

  function CountApi(cs: seq<Call>): nat
  {
    if cs == [] then 0 else (if cs[0].ApiCall? then 1 else 0) + CountApi(cs[1..])
  }

  function CountRefresh(cs: seq<Call>): nat
  {
    if cs == [] then 0 else (if cs[0].RefreshCall? then 1 else 0) + CountRefresh(cs[1..])
  }

  lemma {:induction false} CountsDistribute(a: seq<Call>, b: seq<Call>)
    ensures CountApi(a + b) == CountApi(a) + CountApi(b)
    ensures CountRefresh(a + b) == CountRefresh(a) + CountRefresh(b)
    decreases |a|
  {
    if a == [] {
      assert a + b == b;
    } else {
      assert (a + b)[0] == a[0];
      assert (a + b)[1..] == a[1..] + b;
      CountsDistribute(a[1..], b);
    }
  }

  lemma ApiCallsCount(sent: seq<Request>)
    requires |sent| <= 1
    ensures CountApi(ApiCalls(sent)) == |sent| && CountRefresh(ApiCalls(sent)) == 0
  {
    if sent != [] {
      assert ApiCalls(sent)[1..] == [];
    }
  }

  /**
   * However the upstream answers, one gateway call with refresh puts at most
   * two requests and at most one refresh on the wire, and nothing else.
   */
  lemma BoundedRetry(methodName: string, endpoint: string, data: Option<Json>, token: Option<Json>,
                     params: Option<Json>, session: map<string, Json>, up: Upstream)
    ensures var o := RequestWithRefresh(methodName, endpoint, data, token, params, session, up);
      && CountApi(o.calls) <= 2 && CountRefresh(o.calls) <= 1
      && CountApi(o.calls) + CountRefresh(o.calls) == |o.calls|
  {
    var first := ApiRequest(methodName, endpoint, data, token, params, up.api);
    var rf := TryRefresh(session, up);
    ApiCallsCount(first.sent);
    assert CountApi(rf.calls) == 0 && CountRefresh(rf.calls) == |rf.calls| by {
      if rf.calls != [] { assert rf.calls[1..] == []; }
    }
    CountsDistribute(ApiCalls(first.sent), rf.calls);
    if first.result.status == 401 && rf.ok {
      var second := ApiRequest(methodName, endpoint, data, Some(rf.session["token"]), params, up.api);
      ApiCallsCount(second.sent);
      CountsDistribute(ApiCalls(first.sent) + rf.calls, ApiCalls(second.sent));
    }
  }

  /**
   * Only an upstream 401 triggers anything after the first request: any
   * other status, fabricated 503/504/500 included, is returned as it came,
   * with the session untouched and no refresh attempted.
   */
  lemma OnlyUnauthorizedRetries(methodName: string, endpoint: string, data: Option<Json>, token: Option<Json>,
                                params: Option<Json>, session: map<string, Json>, up: Upstream)
    ensures var first := ApiRequest(methodName, endpoint, data, token, params, up.api);
      var o := RequestWithRefresh(methodName, endpoint, data, token, params, session, up);
      && (first.result.synthetic ==> first.result.status != 401)
      && (first.result.status != 401 ==> o == Outcome(first.result, session, ApiCalls(first.sent)))
  {
  }

  /**
   * A 401 with no stored refresh token, or with a refresh that fails, is
   * returned unmodified and the session is left as it was.
   */
  lemma FailedRefreshReturnsOriginal(methodName: string, endpoint: string, data: Option<Json>, token: Option<Json>,
                                     params: Option<Json>, session: map<string, Json>, up: Upstream)
    requires !TryRefresh(session, up).ok
    ensures var first := ApiRequest(methodName, endpoint, data, token, params, up.api);
      var o := RequestWithRefresh(methodName, endpoint, data, token, params, session, up);
      && o.result == first.result && o.session == session
      && CountApi(o.calls) <= 1
      && ("refresh_token" !in session ==> o.calls == ApiCalls(first.sent))
  {
    BoundedRetry(methodName, endpoint, data, token, params, session, up);
    var first := ApiRequest(methodName, endpoint, data, token, params, up.api);
    var rf := TryRefresh(session, up);
    ApiCallsCount(first.sent);
    if rf.calls != [] { assert rf.calls[1..] == []; }
    CountsDistribute(ApiCalls(first.sent), rf.calls);
  }

  /**
   * When a replay happens it is because the first answer was exactly 401
   * and the refresh succeeded; the replay carries the session's new token
   * as its bearer credential, and its result is what the caller gets, even
   * if it is another 401.
   */
  lemma ReplayUsesRefreshedToken(methodName: string, endpoint: string, data: Option<Json>, token: Option<Json>,
                                 params: Option<Json>, session: map<string, Json>, up: Upstream)
    requires CountApi(RequestWithRefresh(methodName, endpoint, data, token, params, session, up).calls) == 2
    ensures var first := ApiRequest(methodName, endpoint, data, token, params, up.api);
      var o := RequestWithRefresh(methodName, endpoint, data, token, params, session, up);
      && first.result.status == 401 && TryRefresh(session, up).ok
      && o.session == TryRefresh(session, up).session
      && o.calls[|o.calls| - 1].ApiCall?
      && var replay := o.calls[|o.calls| - 1].request;
      && replay.bearer == (if Truthy(o.session["token"]) then Some(o.session["token"]) else None)
      && o.result == Classify(up.api(replay))
  {
    var first := ApiRequest(methodName, endpoint, data, token, params, up.api);
    var rf := TryRefresh(session, up);
    var o := RequestWithRefresh(methodName, endpoint, data, token, params, session, up);
    ApiCallsCount(first.sent);
    if !(first.result.status == 401 && rf.ok) {
      FailedOrSkippedCount(methodName, endpoint, data, token, params, session, up);
    } else {
      var second := ApiRequest(methodName, endpoint, data, Some(rf.session["token"]), params, up.api);
      assert second.sent != [];
      assert o.calls[|o.calls| - 1] == ApiCall(second.sent[0]);
    }
  }

  /**
   * The converse: after a first answer of exactly 401 and a successful
   * refresh, the request is sent a second time with the refreshed token,
   * the caller gets that second answer and the refreshed session, and the
   * wire saw two requests and one refresh.
   */
  lemma RefreshedReplay(methodName: string, endpoint: string, data: Option<Json>, token: Option<Json>,
                        params: Option<Json>, session: map<string, Json>, up: Upstream)
    requires ApiRequest(methodName, endpoint, data, token, params, up.api).result.status == 401
    requires TryRefresh(session, up).ok
    ensures var o := RequestWithRefresh(methodName, endpoint, data, token, params, session, up);
      var rf := TryRefresh(session, up);
      && o.session == rf.session
      && o.result == ApiRequest(methodName, endpoint, data, Some(rf.session["token"]), params, up.api).result
      && CountApi(o.calls) == 2 && CountRefresh(o.calls) == 1
  {
    var first := ApiRequest(methodName, endpoint, data, token, params, up.api);
    var rf := TryRefresh(session, up);
    var second := ApiRequest(methodName, endpoint, data, Some(rf.session["token"]), params, up.api);
    ApiCallsCount(first.sent);
    ApiCallsCount(second.sent);
    assert rf.calls[1..] == [];
    CountsDistribute(ApiCalls(first.sent), rf.calls);
    CountsDistribute(ApiCalls(first.sent) + rf.calls, ApiCalls(second.sent));
  }

  lemma FailedOrSkippedCount(methodName: string, endpoint: string, data: Option<Json>, token: Option<Json>,
                             params: Option<Json>, session: map<string, Json>, up: Upstream)
    requires !(ApiRequest(methodName, endpoint, data, token, params, up.api).result.status == 401 && TryRefresh(session, up).ok)
    ensures CountApi(RequestWithRefresh(methodName, endpoint, data, token, params, session, up).calls) <= 1
  {
    var first := ApiRequest(methodName, endpoint, data, token, params, up.api);
    var rf := TryRefresh(session, up);
    ApiCallsCount(first.sent);
    if rf.calls != [] { assert rf.calls[1..] == []; }
    CountsDistribute(ApiCalls(first.sent), rf.calls);
  }

  /** Whether some call was a gateway request with this verb to this endpoint. */
  predicate Sent(calls: seq<Call>, verb: Verb, endpoint: string)
  {
    && calls != []
    && ((calls[0].ApiCall? && calls[0].request.verb == verb && calls[0].request.endpoint == endpoint)
        || Sent(calls[1..], verb, endpoint))
  }

  lemma {:induction false} SentConcat(a: seq<Call>, b: seq<Call>, verb: Verb, endpoint: string)
    ensures Sent(a + b, verb, endpoint) <==> Sent(a, verb, endpoint) || Sent(b, verb, endpoint)
  {
    if a == [] {
      assert a + b == b;
    } else {
      SentConcat(a[1..], b, verb, endpoint);
      assert (a + b)[1..] == a[1..] + b;
    }
  }

  lemma SentApiCalls(sent: seq<Request>, verb: Verb, endpoint: string)
    requires |sent| <= 1
    ensures Sent(ApiCalls(sent), verb, endpoint) <==> sent != [] && sent[0].verb == verb && sent[0].endpoint == endpoint
  {
    if sent != [] {
      assert ApiCalls(sent)[1..] == [];
    }
  }

  /** One gateway call sends its own request, with the verb its method name stands for, and nothing else. */
  lemma SentByRequest(methodName: string, endpoint: string, data: Option<Json>, token: Option<Json>,
                      params: Option<Json>, api: Request -> Transport, verb: Verb, other: string)
    ensures Sent(ApiCalls(ApiRequest(methodName, endpoint, data, token, params, api).sent), verb, other)
      <==> ParseVerb(methodName) == Some(verb) && other == endpoint
  {
    var x := ApiRequest(methodName, endpoint, data, token, params, api);
    SentApiCalls(x.sent, verb, other);
  }

  /** A refresh call is not a gateway request. */
  lemma RefreshSendsNoRequest(session: map<string, Json>, up: Upstream, verb: Verb, other: string)
    ensures !Sent(TryRefresh(session, up).calls, verb, other)
  {
    var calls := TryRefresh(session, up).calls;
    if calls != [] {
      assert calls[1..] == [];
    }
  }

  /**
   * `api_request_with_refresh` sends nothing but its own request, with the
   * verb its method name stands for, to its own endpoint (once, or twice
   * with the replay); with a supported method it sends it at least once.
   */
  lemma RequestWithRefreshSends(methodName: string, endpoint: string, data: Option<Json>, token: Option<Json>,
                                params: Option<Json>, session: map<string, Json>, up: Upstream, verb: Verb, other: string)
    ensures var o := RequestWithRefresh(methodName, endpoint, data, token, params, session, up);
      && (Sent(o.calls, verb, other) ==> ParseVerb(methodName) == Some(verb) && other == endpoint)
      && (ParseVerb(methodName) == Some(verb) ==> Sent(o.calls, verb, endpoint))
  {
    var o := RequestWithRefresh(methodName, endpoint, data, token, params, session, up);
    var first := ApiRequest(methodName, endpoint, data, token, params, up.api);
    var a := ApiCalls(first.sent);
    SentByRequest(methodName, endpoint, data, token, params, up.api, verb, other);
    SentByRequest(methodName, endpoint, data, token, params, up.api, verb, endpoint);
    if first.result.status != 401 {
      assert o.calls == a;
    } else {
      var rf := TryRefresh(session, up);
      RefreshSendsNoRequest(session, up, verb, other);
      SentConcat(a, rf.calls, verb, other);
      SentConcat(a, rf.calls, verb, endpoint);
      if !rf.ok {
        assert o.calls == a + rf.calls;
      } else {
        var replayToken := Some(rf.session["token"]);
        var b := ApiCalls(ApiRequest(methodName, endpoint, data, replayToken, params, up.api).sent);
        SentByRequest(methodName, endpoint, data, replayToken, params, up.api, verb, other);
        assert o.calls == (a + rf.calls) + b;
        SentConcat(a + rf.calls, b, verb, other);
        SentConcat(a + rf.calls, b, verb, endpoint);
      }
    }
  }

  /**
   * The worked case: a GET carrying access token A1 is refused with 401; the
   * refresh endpoint, given R1, answers `{"access_token": "A2"}` without a
   * new refresh token. The session then holds A2 and still R1, and the
   * replay carries A2.
   */
  lemma RefreshScenario(session: map<string, Json>, up: Upstream, body: Body)
    requires session == map["token" := JStr("A1"), "refresh_token" := JStr("R1")]
    requires up.api(Request(Get, "/standups/", Some(JStr("A1")), None, None)) == Answered(401, body)
    requires up.refresh(JStr("R1")) == Answered(200, JsonBody(JObj(map["access_token" := JStr("A2")])))
    ensures var o := RequestWithRefresh("get", "/standups/", None, Some(JStr("A1")), None, session, up);
      && o.session == map["token" := JStr("A2"), "refresh_token" := JStr("R1")]
      && o.calls == [ApiCall(Request(Get, "/standups/", Some(JStr("A1")), None, None)),
                     RefreshCall(JStr("R1")),
                     ApiCall(Request(Get, "/standups/", Some(JStr("A2")), None, None))]
  {
    GetSends("/standups/", JStr("A1"), up.api);
    GetSends("/standups/", JStr("A2"), up.api);
    assert TokenFields(up.refresh(JStr("R1"))) == Some(map["access_token" := JStr("A2")]);
    var rf := TryRefresh(session, up);
    assert rf.ok && rf.session == session["token" := JStr("A2")];
    assert session["token" := JStr("A2")] == map["token" := JStr("A2"), "refresh_token" := JStr("R1")];
  }

  /** A GET with a truthy token sends exactly one request, to its endpoint, carrying that token. */
  lemma GetSends(endpoint: string, token: Json, api: Request -> Transport)
    requires Truthy(token)
    ensures ApiRequest("get", endpoint, None, Some(token), None, api).sent == [Request(Get, endpoint, Some(token), None, None)]
  {
    assert Lower("get") == "get";
  }

  /** The per-visitor session, changed in place by the gateway, login and logout. */
  class CredentialStore {
    var session: map<string, Json>

    constructor ()
      ensures session == map[]
    {
      session := map[];
    }

    /** `refresh_token`, writing the session key by key. */
    method RefreshToken(up: Upstream) returns (ok: bool, calls: seq<Call>)
      modifies this
      ensures RefreshStep(ok, session, calls) == TryRefresh(old(session), up)
    {
      if "refresh_token" !in session {
        return false, [];
      }
      var rt := session["refresh_token"];
      calls := [RefreshCall(rt)];
      ok := false;
      var answer := up.refresh(rt);
      if answer.Answered? && answer.status == 200 {
        var tokenData := Decode(answer.body);
        if tokenData.Some? && tokenData.value.JObj? && "access_token" in tokenData.value.fields {
          var f := tokenData.value.fields;
          session := session["token" := f["access_token"]];
          if "refresh_token" in f {
            session := session["refresh_token" := f["refresh_token"]];
          }
          ok := true;
        }
      }
    }

    /** `api_request_with_refresh`: the replay re-reads `token` from the session. */
    method ApiRequestWithRefresh(methodName: string, endpoint: string, data: Option<Json>, token: Option<Json>,
                                 params: Option<Json>, up: Upstream) returns (result: ApiResult, calls: seq<Call>)
      modifies this
      ensures Outcome(result, session, calls) == RequestWithRefresh(methodName, endpoint, data, token, params, old(session), up)
    {
      var first := ApiRequest(methodName, endpoint, data, token, params, up.api);
      result, calls := first.result, ApiCalls(first.sent);
      if result.status == 401 {
        var refreshed, refreshCalls := RefreshToken(up);
        calls := calls + refreshCalls;
        if refreshed {
          var second := ApiRequest(methodName, endpoint, data, Some(session["token"]), params, up.api);
          result, calls := second.result, calls + ApiCalls(second.sent);
        }
      }
    }

    /** `session.clear()`. */
    method Clear()
      modifies this
      ensures session == map[]
    {
      session := map[];
    }
  }
}
