/**
 * The `standup` blueprint's handlers: the dashboard, creating, viewing and
 * editing a standup, opening a session of it, and answering a session.
 * Every handler here runs behind `login_required`, so the session holds a
 * token when it starts. A visit threads the session through each gateway
 * call in turn (a refresh may rotate the tokens on the way) and records
 * every upstream call.
 */
module StandupRoutes {
  import opened Wrappers
  import opened JsonValues
  import opened Text
  import opened Gateway
  import opened Credentials
  import opened Pages
  import opened StandupData
  import PyInt

  /** What one visit to a handler leaves behind. */
  datatype Visit = Visit(reply: Reply, session: map<string, Json>, calls: seq<Call>)

  function StandupPath(id: nat): string
  {
    "/standups/" + PyInt.Decimal(id)
  }

  /** `response.json() if response.status_code == 200 else []`, None where `.json()` raises. */
  function JsonOrEmpty(result: ApiResult): (r: Option<Json>)
    ensures r.None? <==> result.status == 200 && Decode(result.body).None?
    ensures result.status != 200 ==> r == Some(JList([]))
  {
    if result.status == 200 then Decode(result.body) else Some(JList([]))
  }

  // ---------------------------------------------------------------- dashboard

  /**
   * `dashboard`: a 200 renders the standups the API returned; a 401 (left
   * after the gateway's own refresh) clears the session and redirects to
   * the login endpoint named; any other status renders an empty list. An
   * exception (a body that does not decode, a login endpoint that does not
   * resolve) is caught and renders an empty list with a notice.
   *
   * Flashed notices wait in the session until a page shows them, so
   * `session.clear()` drops every notice flashed before it. The handler
   * flashes the expiry notice and then clears; `clearFirst` reads it with
   * the two steps the other way round, as `logout` orders them.
   */
  function DashboardVisit(session: map<string, Json>, loginEndpoint: string, clearFirst: bool, up: Upstream): (v: Visit)
    requires "token" in session
    ensures var o := RequestWithRefresh("get", "/standups/", None, Some(session["token"]), None, session, up);
      var survived := if clearFirst then [SessionExpired] else [];
      && v.calls == o.calls
      && (v.session == map[] <==> o.result.status == 401)
      && (o.result.status != 401 ==> v.session == o.session)
      && (v.reply.view.Redirect? <==> o.result.status == 401 && loginEndpoint in Endpoints)
      && (v.reply.view.Redirect? ==> v.reply == Reply(Redirect(loginEndpoint), survived))
      && (o.result.status == 401 && loginEndpoint !in Endpoints ==>
            v.reply == Reply(RenderStandups(JList([])), survived + [StandupsLoadError]))
      && (!v.reply.view.Redirect? ==> v.reply.view.RenderStandups?)
      && (o.result.status == 200 && Decode(o.result.body).Some? ==>
            v.reply == Reply(RenderStandups(Decode(o.result.body).value), []))
      && (o.result.status != 200 && o.result.status != 401 ==>
            v.reply == Reply(RenderStandups(JList([])), [StandupsLoadFailed]))
  {
    var o := RequestWithRefresh("get", "/standups/", None, Some(session["token"]), None, session, up);
    if o.result.status == 200 then
      match Decode(o.result.body)
      case Some(standups) => Visit(Reply(RenderStandups(standups), []), o.session, o.calls)
      case None => Visit(Reply(RenderStandups(JList([])), [StandupsLoadError]), o.session, o.calls)
    else if o.result.status == 401 then
      var survived := if clearFirst then [SessionExpired] else [];
      match UrlFor(loginEndpoint)
      case Redirect(e) => Visit(Reply(Redirect(e), survived), map[], o.calls)
      case _ => Visit(Reply(RenderStandups(JList([])), survived + [StandupsLoadError]), map[], o.calls)
    else Visit(Reply(RenderStandups(JList([])), [StandupsLoadFailed]), o.session, o.calls)
  }

  /**
   * An expired session on the dashboard as the handler is written: the
   * expiry notice is flashed and then cleared away with the session. With
   * the endpoint it names (`standup.login`, which no blueprint registers)
   * the redirect raises, is caught, and the visitor sees an empty dashboard
   * with only the load-error notice; even with `main.login` the visitor
   * reaches the login page with no notice at all.
   */
  lemma ExpiredDashboardAsWritten(session: map<string, Json>, up: Upstream)
    requires "token" in session
    requires RequestWithRefresh("get", "/standups/", None, Some(session["token"]), None, session, up).result.status == 401
    ensures DashboardVisit(session, "standup.login", false, up).session == map[]
    ensures DashboardVisit(session, "standup.login", false, up).reply == Reply(RenderStandups(JList([])), [StandupsLoadError])
    ensures DashboardVisit(session, "main.login", false, up).reply == Reply(Redirect("main.login"), [])
  {
    assert "standup.login" !in Endpoints;
  }

  /**
   * The evident intent: the session is cleared, the expiry notice is
   * flashed into the fresh session, and the visitor is sent to `main.login`
   * where the notice is shown.
   */
  lemma ExpiredDashboard(session: map<string, Json>, up: Upstream)
    requires "token" in session
    requires RequestWithRefresh("get", "/standups/", None, Some(session["token"]), None, session, up).result.status == 401
    ensures DashboardVisit(session, "main.login", true, up) ==
      Visit(Reply(Redirect("main.login"), [SessionExpired]), map[],
            RequestWithRefresh("get", "/standups/", None, Some(session["token"]), None, session, up).calls)
  {
  }

  /**
   * `dashboard` against the visitor's stored session. The notices flashed
   * so far are kept beside the store and dropped when it is cleared.
   */
  method Dashboard(store: CredentialStore, loginEndpoint: string, clearFirst: bool, up: Upstream)
    returns (reply: Reply, calls: seq<Call>)
    requires "token" in store.session
    modifies store
    ensures Visit(reply, store.session, calls) == DashboardVisit(old(store.session), loginEndpoint, clearFirst, up)
  {
    var result;
    result, calls := store.ApiRequestWithRefresh("get", "/standups/", None, Some(store.session["token"]), None, up);
    if result.status == 200 {
      var standups := Decode(result.body);
      if standups.None? {
        return Reply(RenderStandups(JList([])), [StandupsLoadError]), calls;
      }
      return Reply(RenderStandups(standups.value), []), calls;
    } else if result.status == 401 {
      var flashed: seq<Message> := [];
      if clearFirst {
        store.Clear();
        flashed := flashed + [SessionExpired];
      } else {
        flashed := flashed + [SessionExpired];
        store.Clear();
        flashed := [];
      }
      var target := UrlFor(loginEndpoint);
      if !target.Redirect? {
        return Reply(RenderStandups(JList([])), flashed + [StandupsLoadError]), calls;
      }
      return Reply(target, flashed), calls;
    }
    reply := Reply(RenderStandups(JList([])), [StandupsLoadFailed]);
  }

  // ---------------------------------------------------------------- fetching one standup

  /** The first step of `view`, `edit` and `create_session`. */
  function FetchStandup(id: nat, session: map<string, Json>, up: Upstream): (o: Outcome)
    requires "token" in session
    ensures "token" in o.session
  {
    RequestWithRefresh("get", StandupPath(id), None, Some(session["token"]), None, session, up)
  }

  /** "Standup not found": back to the dashboard, nothing more sent. */
  function NotFound(fetched: Outcome): Visit
  {
    Visit(Reply(UrlFor("standup.dashboard"), [StandupNotFound]), fetched.session, fetched.calls)
  }

  function Raised(cause: string, session: map<string, Json>, calls: seq<Call>): Visit
  {
    Visit(Reply(ServerError(cause), []), session, calls)
  }

  // ---------------------------------------------------------------- create

  /** The list of users the standup forms offer: `GET /users/`. */
  function FetchUsers(session: map<string, Json>, up: Upstream): (o: Outcome)
    requires "token" in session
  {
    RequestWithRefresh("get", "/users/", None, Some(session["token"]), None, session, up)
  }

  /** The rest of `create` after the POST branch: the user list and the form. */
  function NewStandupForm(flashes: seq<Message>, session: map<string, Json>, calls: seq<Call>, up: Upstream): (v: Visit)
    requires "token" in session
    ensures v.calls == calls + FetchUsers(session, up).calls
    ensures v.session == FetchUsers(session, up).session
    ensures v.reply.view.RenderNewStandup? || v.reply.view.ServerError?
    ensures v.reply.view.RenderNewStandup? ==> v.reply.flashes == flashes
    ensures FetchUsers(session, up).result.status != 200 ==> v.reply == Reply(RenderNewStandup(JList([])), flashes)
  {
    var users := FetchUsers(session, up);
    match JsonOrEmpty(users.result)
    case None => Raised("user list unreadable", users.session, calls + users.calls)
    case Some(list) => Visit(Reply(RenderNewStandup(list), flashes), users.session, calls + users.calls)
  }

  /** The one gateway request `create` makes for a POST. */
  function PostStandup(payload: Json, session: map<string, Json>, up: Upstream): Outcome
    requires "token" in session
  {
    RequestWithRefresh("post", "/standups/", Some(payload), Some(session["token"]), None, session, up)
  }

  /**
   * `create` (admins only, by its guards): a POST converts the form
   * leniently and sends it; a 200 returns to the dashboard, another status
   * shows the API's `detail` above the form again.
   */
  function CreateStandup(isPost: bool, form: StandupForm, session: map<string, Json>, up: Upstream): (v: Visit)
    requires "token" in session
    ensures isPost && StandupPayload(form, true).None? ==> v.reply.view.ServerError? && v.calls == []
    ensures !isPost ==> v.calls == FetchUsers(session, up).calls
    ensures v.reply.view.Redirect? ==> v.reply == Reply(Redirect("standup.dashboard"), [StandupCreated])
    ensures isPost && StandupPayload(form, true).Some? ==>
      var sent := PostStandup(StandupPayload(form, true).value, session, up);
      var detail := ErrorDetail(Decode(sent.result.body));
      && (v.reply.view.Redirect? <==> sent.result.status == 200)
      && (sent.result.status != 200 && detail.None? ==> v.reply.view.ServerError?)
      && (sent.result.status != 200 && detail.Some? && !v.reply.view.ServerError? ==>
            v.reply.flashes == [StandupCreateFailed(detail.value)])
  {
    if isPost then
      match StandupPayload(form, true)
      case None => Raised("int conversion raised", session, [])
      case Some(payload) =>
        var sent := PostStandup(payload, session, up);
        if sent.result.status == 200 then
          Visit(Reply(UrlFor("standup.dashboard"), [StandupCreated]), sent.session, sent.calls)
        else
          match ErrorDetail(Decode(sent.result.body))
          case None => Raised("error response unreadable", sent.session, sent.calls)
          case Some(d) => NewStandupForm([StandupCreateFailed(d)], sent.session, sent.calls, up)
    else
      NewStandupForm([], session, [], up)
  }

  /**
   * `create` sends the standup exactly when the form was posted and its
   * numbers convert (empty ones counting as 0); a form whose numbers do not
   * convert raises before anything is sent.
   */
  lemma CreateStandupPosts(isPost: bool, form: StandupForm, session: map<string, Json>, up: Upstream)
    requires "token" in session
    ensures Sent(CreateStandup(isPost, form, session, up).calls, Post, "/standups/") <==> isPost && StandupPayload(form, true).Some?
  {
    var v := CreateStandup(isPost, form, session, up);
    assert Lower("post") == "post" && Lower("get") == "get";
    if isPost && StandupPayload(form, true).Some? {
      var payload := StandupPayload(form, true).value;
      var sent := PostStandup(payload, session, up);
      RequestWithRefreshSends("post", "/standups/", Some(payload), Some(session["token"]), None, session, up, Post, "/standups/");
      if sent.result.status != 200 && ErrorDetail(Decode(sent.result.body)).Some? {
        assert v.calls == sent.calls + FetchUsers(sent.session, up).calls;
        SentConcat(sent.calls, FetchUsers(sent.session, up).calls, Post, "/standups/");
      } else {
        assert v.calls == sent.calls;
      }
    } else if !isPost {
      RequestWithRefreshSends("get", "/users/", None, Some(session["token"]), None, session, up, Post, "/standups/");
    }
  }

  // ---------------------------------------------------------------- view

  function SessionsOfStandupPath(id: nat): string
  {
    "/sessions/standup/" + PyInt.Decimal(id)
  }

  /** `view`: the standup and the list of its sessions (an empty list if that request fails). */
  function ViewStandup(id: nat, session: map<string, Json>, up: Upstream): (v: Visit)
    requires "token" in session
    ensures var fetched := FetchStandup(id, session, up);
      && (fetched.result.status != 200 ==> v == NotFound(fetched))
      && (v.reply.view.RenderStandup? ==>
            fetched.result.status == 200 && Decode(fetched.result.body) == Some(v.reply.view.standup))
  {
    var fetched := FetchStandup(id, session, up);
    if fetched.result.status != 200 then NotFound(fetched)
    else
      match Decode(fetched.result.body)
      case None => Raised("standup response unreadable", fetched.session, fetched.calls)
      case Some(standup) =>
        var listed := RequestWithRefresh("get", SessionsOfStandupPath(id), None, Some(fetched.session["token"]), None, fetched.session, up);
        match JsonOrEmpty(listed.result)
        case None => Raised("session list unreadable", listed.session, fetched.calls + listed.calls)
        case Some(sessions) => Visit(Reply(RenderStandup(standup, sessions), []), listed.session, fetched.calls + listed.calls)
  }

  // ---------------------------------------------------------------- edit

  /** The rest of `edit`: the user list, the standup's member ids and the form. */
  function EditStandupForm(standup: Json, flashes: seq<Message>, session: map<string, Json>, calls: seq<Call>, up: Upstream)
    : (v: Visit)
    requires "token" in session
    ensures v.reply.view.RenderEditStandup? ==> Some(v.reply.view.memberIds) == MemberIds(standup)
    ensures v.calls == calls + FetchUsers(session, up).calls
    ensures v.reply.view.RenderEditStandup? || v.reply.view.ServerError?
    ensures v.reply.view.RenderEditStandup? ==> v.reply.flashes == flashes
  {
    var users := FetchUsers(session, up);
    var all := calls + users.calls;
    match JsonOrEmpty(users.result)
    case None => Raised("user list unreadable", users.session, all)
    case Some(list) =>
      match MemberIds(standup)
      case None => Raised("member without id", users.session, all)
      case Some(ids) => Visit(Reply(RenderEditStandup(standup, list, ids), flashes), users.session, all)
  }

  /** The update `edit` sends for a POST. */
  function PutStandup(id: nat, payload: Json, session: map<string, Json>, up: Upstream): Outcome
    requires "token" in session
  {
    RequestWithRefresh("put", StandupPath(id), Some(payload), Some(session["token"]), None, session, up)
  }

  /**
   * `edit` (admins only): the standup is fetched first; a POST converts the
   * form strictly and sends it with PUT; a 200 redirects to the view
   * endpoint named, another status shows the API's `detail`.
   */
  function EditStandup(id: nat, isPost: bool, form: StandupForm, session: map<string, Json>, up: Upstream, viewEndpoint: string)
    : (v: Visit)
    requires "token" in session
    ensures var fetched := FetchStandup(id, session, up);
      fetched.result.status != 200 ==> v == NotFound(fetched)
    ensures var fetched := FetchStandup(id, session, up);
      fetched.result.status == 200 && (Decode(fetched.result.body).None? || (isPost && StandupPayload(form, false).None?)) ==>
        v.reply.view.ServerError? && v.calls == fetched.calls
    ensures var fetched := FetchStandup(id, session, up);
      fetched.result.status == 200 && Decode(fetched.result.body).Some? && isPost && StandupPayload(form, false).Some? ==>
        var put := PutStandup(id, StandupPayload(form, false).value, fetched.session, up);
        var detail := ErrorDetail(Decode(put.result.body));
        && (put.result.status == 200 ==> v.reply == Reply(UrlFor(viewEndpoint), [StandupUpdated]))
        && (put.result.status != 200 && detail.None? ==> v.reply.view.ServerError?)
        && (put.result.status != 200 && detail.Some? && v.reply.view.RenderEditStandup? ==>
              v.reply.flashes == [StandupUpdateFailed(detail.value)])
  {
    var fetched := FetchStandup(id, session, up);
    if fetched.result.status != 200 then NotFound(fetched)
    else
      match Decode(fetched.result.body)
      case None => Raised("standup response unreadable", fetched.session, fetched.calls)
      case Some(standup) =>
        if isPost then
          match StandupPayload(form, false)
          case None => Raised("int conversion raised", fetched.session, fetched.calls)
          case Some(payload) =>
            var put := PutStandup(id, payload, fetched.session, up);
            var calls := fetched.calls + put.calls;
            if put.result.status == 200 then
              Visit(Reply(UrlFor(viewEndpoint), [StandupUpdated]), put.session, calls)
            else
              match ErrorDetail(Decode(put.result.body))
              case None => Raised("error response unreadable", put.session, calls)
              case Some(d) => EditStandupForm(standup, [StandupUpdateFailed(d)], put.session, calls, up)
        else
          EditStandupForm(standup, [], fetched.session, fetched.calls, up)
  }

  /**
   * `edit` sends the update exactly when the form was posted, the standup
   * was found and read, and every number on the form converts; an empty
   * duration or facilitator, which `create` would send as 0, stops it.
   */
  lemma EditStandupPuts(id: nat, isPost: bool, form: StandupForm, session: map<string, Json>, up: Upstream, viewEndpoint: string)
    requires "token" in session
    ensures var fetched := FetchStandup(id, session, up);
      Sent(EditStandup(id, isPost, form, session, up, viewEndpoint).calls, Put, StandupPath(id)) <==>
        isPost && fetched.result.status == 200 && Decode(fetched.result.body).Some? && StandupPayload(form, false).Some?
  {
    var v := EditStandup(id, isPost, form, session, up, viewEndpoint);
    var fetched := FetchStandup(id, session, up);
    var path := StandupPath(id);
    assert Lower("get") == "get" && Lower("put") == "put";
    RequestWithRefreshSends("get", path, None, Some(session["token"]), None, session, up, Put, path);
    if fetched.result.status != 200 || Decode(fetched.result.body).None? {
      assert v.calls == fetched.calls;
    } else if !isPost {
      var users := FetchUsers(fetched.session, up);
      assert v.calls == fetched.calls + users.calls;
      RequestWithRefreshSends("get", "/users/", None, Some(fetched.session["token"]), None, fetched.session, up, Put, path);
      SentConcat(fetched.calls, users.calls, Put, path);
    } else if StandupPayload(form, false).None? {
      assert v.calls == fetched.calls;
    } else {
      var payload := StandupPayload(form, false).value;
      var put := PutStandup(id, payload, fetched.session, up);
      RequestWithRefreshSends("put", path, Some(payload), Some(fetched.session["token"]), None, fetched.session, up, Put, path);
      SentConcat(fetched.calls, put.calls, Put, path);
      if put.result.status != 200 && ErrorDetail(Decode(put.result.body)).Some? {
        var users := FetchUsers(put.session, up);
        assert v.calls == fetched.calls + put.calls + users.calls;
        SentConcat(fetched.calls + put.calls, users.calls, Put, path);
      } else {
        assert v.calls == fetched.calls + put.calls;
      }
    }
  }

  // ---------------------------------------------------------------- create_session

  /** The body `create_session` posts. */
  function SessionPayload(id: nat, date: Option<string>): Json
  {
    JObj(map["standup_id" := JInt(id), "date" := FormValue(date)])
  }

  /**
   * `create_session`: the standup is fetched first; only its facilitator
   * or an admin may open a session; whatever the API answers, the visitor
   * is sent back to the standup's page under the view endpoint named.
   */
  function CreateSession(id: nat, date: Option<string>, session: map<string, Json>, up: Upstream, viewEndpoint: string)
    : (v: Visit)
    requires "token" in session
    ensures var fetched := FetchStandup(id, session, up);
      && (fetched.result.status != 200 ==> v == NotFound(fetched))
      && (Sent(v.calls, Post, "/sessions/") <==>
            fetched.result.status == 200 && Decode(fetched.result.body).Some?
            && MayCreateSession(Decode(fetched.result.body).value, fetched.session) == Some(true))
    ensures var fetched := FetchStandup(id, session, up);
      v.reply.view.Redirect? ==>
        v.reply.view.endpoint == (if fetched.result.status != 200 then "standup.dashboard" else viewEndpoint)
  {
    var fetched := FetchStandup(id, session, up);
    assert Lower("get") == "get" && Lower("post") == "post";
    RequestWithRefreshSends("get", StandupPath(id), None, Some(session["token"]), None, session, up, Post, "/sessions/");
    if fetched.result.status != 200 then NotFound(fetched)
    else
      match Decode(fetched.result.body)
      case None => Raised("standup response unreadable", fetched.session, fetched.calls)
      case Some(standup) =>
        match MayCreateSession(standup, fetched.session)
        case None => Raised("permission lookup raised", fetched.session, fetched.calls)
        case Some(false) => Visit(Reply(UrlFor(viewEndpoint), [FacilitatorOnly]), fetched.session, fetched.calls)
        case Some(true) =>
          var created := RequestWithRefresh("post", "/sessions/", Some(SessionPayload(id, date)),
                                            Some(fetched.session["token"]), None, fetched.session, up);
          RequestWithRefreshSends("post", "/sessions/", Some(SessionPayload(id, date)), Some(fetched.session["token"]), None, fetched.session, up, Post, "/sessions/");
          SentConcat(fetched.calls, created.calls, Post, "/sessions/");
          var calls := fetched.calls + created.calls;
          if created.result.status == 200 then
            Visit(Reply(UrlFor(viewEndpoint), [SessionCreated]), created.session, calls)
          else
            match ErrorDetail(Decode(created.result.body))
            case None => Raised("error response unreadable", created.session, calls)
            case Some(d) => Visit(Reply(UrlFor(viewEndpoint), [SessionCreateFailed(d)]), created.session, calls)
  }

  /**
   * Once the standup has been fetched and read, `create_session` as
   * written (`standup.view_standup`, an endpoint no blueprint registers)
   * always ends in a server error, whether the visitor was refused or the
   * session was opened. With the endpoint the view function is registered
   * under (`standup.view`) a refused visitor and a successful creation
   * both land on the standup's page.
   */
  lemma CreateSessionRedirects(id: nat, date: Option<string>, session: map<string, Json>, up: Upstream)
    requires "token" in session
    requires FetchStandup(id, session, up).result.status == 200
    requires Decode(FetchStandup(id, session, up).result.body).Some?
    requires MayCreateSession(Decode(FetchStandup(id, session, up).result.body).value, FetchStandup(id, session, up).session).Some?
    ensures CreateSession(id, date, session, up, "standup.view_standup").reply.view.ServerError?
    ensures var fetched := FetchStandup(id, session, up);
      MayCreateSession(Decode(fetched.result.body).value, fetched.session) == Some(false) ==>
        CreateSession(id, date, session, up, "standup.view").reply == Reply(Redirect("standup.view"), [FacilitatorOnly])
    ensures var fetched := FetchStandup(id, session, up);
      var created := RequestWithRefresh("post", "/sessions/", Some(SessionPayload(id, date)),
                                        Some(fetched.session["token"]), None, fetched.session, up);
      MayCreateSession(Decode(fetched.result.body).value, fetched.session) == Some(true) && created.result.status == 200 ==>
        CreateSession(id, date, session, up, "standup.view").reply == Reply(Redirect("standup.view"), [SessionCreated])
  {
    assert "standup.view_standup" !in Endpoints;
  }

  // ---------------------------------------------------------------- view_session

  /** How far `view_session` got before it decides whether to submit. */
  datatype SessionLoad =
    | LoadFailed(reply: Reply, calls: seq<Call>)
    | Loaded(standupSession: Json, responses: Json, responded: bool, timezone: Json, calls: seq<Call>)

  function SessionPath(id: nat): string
  {
    "/sessions/" + PyInt.Decimal(id)
  }

  function ResponsesOfSessionPath(id: nat): string
  {
    "/responses/session/" + PyInt.Decimal(id)
  }

  /** The handler's `except`: log, flash, back to the dashboard. */
  const LoadError := Reply(AppUrlFor("dashboard"), [SessionLoadError])

  /**
   * The reads of `view_session` in the single-module application: the
   * session, its standup's timezone, the responses so far, and whether the
   * visitor is among them. Both requests go through the plain gateway.
   */
  function LoadSession(id: nat, session: map<string, Json>, api: Request -> Transport): (l: SessionLoad)
    requires "token" in session
    ensures |l.calls| <= 2 && CountRefresh(l.calls) == 0
    ensures forall verb, e :: Sent(l.calls, verb, e) ==> verb == Get && e in {SessionPath(id), ResponsesOfSessionPath(id)}
  {
    var token := Some(session["token"]);
    assert Lower("get") == "get";
    var first := ApiRequest("get", SessionPath(id), None, token, None, api);
    var calls1 := ApiCalls(first.sent);
    ApiCallsCount(first.sent);
    if first.result.status != 200 then LoadFailed(Reply(AppUrlFor("dashboard"), [SessionLoadFailed]), calls1)
    else
      match Decode(first.result.body)
      case None => LoadFailed(LoadError, calls1)
      case Some(standupSession) =>
        match TimezoneOf(standupSession)
        case None => LoadFailed(LoadError, calls1)
        case Some(timezone) =>
          var second := ApiRequest("get", ResponsesOfSessionPath(id), None, token, None, api);
          var calls2 := calls1 + ApiCalls(second.sent);
          ApiCallsCount(second.sent);
          CountsDistribute(calls1, ApiCalls(second.sent));
          assert forall verb, e :: Sent(calls2, verb, e) ==> verb == Get && e in {SessionPath(id), ResponsesOfSessionPath(id)} by {
            forall verb, e | Sent(calls2, verb, e) ensures verb == Get && e in {SessionPath(id), ResponsesOfSessionPath(id)} {
              SentConcat(calls1, ApiCalls(second.sent), verb, e);
            }
          }
          match JsonOrEmpty(second.result)
          case None => LoadFailed(LoadError, calls2)
          case Some(responses) =>
            match UserHasResponded(responses, JsonValues.Get(session, "user_id"))
            case None => LoadFailed(LoadError, calls2)
            case Some(responded) => Loaded(standupSession, responses, responded, timezone, calls2)
  }

  /** The body a submitted answer is posted with. */
  function ResponsePayload(id: nat, yesterday: Option<string>, today: Option<string>, blockers: Option<string>): Json
  {
    JObj(map["session_id" := JInt(id), "yesterday" := FormValue(yesterday), "today" := FormValue(today),
             "blockers" := FormValue(blockers)])
  }

  /** Appending the answer's POST adds one gateway call, no refresh, and the POST itself. */
  lemma PostAppended(calls: seq<Call>, payload: Json, token: Json, api: Request -> Transport)
    ensures var all := calls + ApiCalls(ApiRequest("post", "/responses/", Some(payload), Some(token), None, api).sent);
      |all| == |calls| + 1 && CountRefresh(all) == CountRefresh(calls) && Sent(all, Post, "/responses/")
  {
    assert Lower("post") == "post";
    var posted := ApiRequest("post", "/responses/", Some(payload), Some(token), None, api);
    ApiCallsCount(posted.sent);
    CountsDistribute(calls, ApiCalls(posted.sent));
    SentByRequest("post", "/responses/", Some(payload), Some(token), None, api, Post, "/responses/");
    SentConcat(calls, ApiCalls(posted.sent), Post, "/responses/");
  }

  /**
   * `view_session` of the single-module application: it never touches the
   * session, never refreshes, and posts an answer exactly when the request
   * is a POST and the visitor has not answered yet.
   */
  function ViewSession(id: nat, isPost: bool, yesterday: Option<string>, today: Option<string>, blockers: Option<string>,
                       session: map<string, Json>, api: Request -> Transport): (v: Visit)
    requires "token" in session
    ensures v.session == session
    ensures |v.calls| <= 3 && CountRefresh(v.calls) == 0
    ensures var l := LoadSession(id, session, api);
      Sent(v.calls, Post, "/responses/") <==> isPost && l.Loaded? && !l.responded
    ensures var l := LoadSession(id, session, api);
      l.Loaded? && !(isPost && !l.responded) ==>
        v.reply == Reply(RenderSession(l.standupSession, l.responses, l.responded, l.timezone), [])
  {
    match LoadSession(id, session, api)
    case LoadFailed(reply, calls) =>
      assert !Sent(calls, Post, "/responses/");
      Visit(reply, session, calls)
    case Loaded(standupSession, responses, responded, timezone, calls) =>
      var page := RenderSession(standupSession, responses, responded, timezone);
      if isPost && !responded then
        var posted := ApiRequest("post", "/responses/", Some(ResponsePayload(id, yesterday, today, blockers)),
                                 Some(session["token"]), None, api);
        var all := calls + ApiCalls(posted.sent);
        PostAppended(calls, ResponsePayload(id, yesterday, today, blockers), session["token"], api);
        if posted.result.status == 200 then Visit(Reply(AppUrlFor("view_session"), [ResponseSubmitted]), session, all)
        else Visit(Reply(page, [ResponseFailed]), session, all)
      else
        assert !Sent(calls, Post, "/responses/");
        Visit(Reply(page, []), session, calls)
  }
}
