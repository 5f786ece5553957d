/**
 * The `main` blueprint's handlers that create and destroy credentials:
 * `index`, `login`, `register` and `logout`. Login and logout write the
 * session in place; register reaches it only through the gateway.
 */
module AuthRoutes {
  import opened Wrappers
  import opened JsonValues
  import opened Gateway
  import opened Text
  import opened Credentials
  import opened Pages

  /** `index`: a visitor holding a token goes straight to the dashboard. */
  function Index(session: map<string, Json>): (v: View)
    ensures v == Redirect("standup.dashboard") <==> "token" in session
    ensures v != Redirect("standup.dashboard") ==> v == Render("index.html")
  {
    if "token" in session then UrlFor("standup.dashboard") else Render("index.html")
  }

  /**
   * The identity writes of `login`, in their order: `user_id`, `username`,
   * `user_role`. A body that does not decode, or lacks a key, raises at that
   * point, and the writes made before it stay. The flag says whether all
   * three were made.
   */
  function WriteIdentity(session: map<string, Json>, user: Option<Json>): (r: (map<string, Json>, bool))
    ensures r.1 <==> (user.Some? && user.value.JObj? && "id" in user.value.fields
                      && "username" in user.value.fields && "role" in user.value.fields)
    ensures r.1 ==> r.0 == session["user_id" := user.value.fields["id"]]
      ["username" := user.value.fields["username"]]["user_role" := user.value.fields["role"]]
    ensures r.0.Keys <= session.Keys + {"user_id", "username", "user_role"}
    ensures forall k :: k in session && k !in {"user_id", "username", "user_role"} ==> k in r.0 && r.0[k] == session[k]
  {
    if user.None? then (session, false)
    else
      match Field(user.value, "id")
      case None => (session, false)
      case Some(id) =>
        var s1 := session["user_id" := id];
        match Field(user.value, "username")
        case None => (s1, false)
        case Some(name) =>
          var s2 := s1["username" := name];
          match Field(user.value, "role")
          case None => (s2, false)
          case Some(role) => (s2["user_role" := role], true)
  }

  /** The JSON a registration posts: the form's fields and the fixed role `developer`. */
  function RegistrationPayload(email: Option<string>, username: Option<string>, password: Option<string>): (j: Json)
    ensures j.JObj? && j.fields.Keys == {"email", "username", "password", "role"}
    ensures j.fields["role"] == JStr("developer")
  {
    JObj(map["email" := FormValue(email), "username" := FormValue(username),
             "password" := FormValue(password), "role" := JStr("developer")])
  }

  /**
   * `login`. The token POST is not guarded, so a transport fault there
   * escapes as a server error. A 200 stores `token` (and `refresh_token` only
   * if one came back) before the identity fetch, which goes through the
   * gateway with the token just stored; a failed identity fetch still ends in
   * the single "Invalid username or password" notice and leaves the stored
   * token in place.
   */
  method Login(store: CredentialStore, isPost: bool, username: Option<string>, password: Option<string>, up: Upstream)
    returns (reply: Reply, calls: seq<Call>)
    modifies store
    ensures !isPost ==> reply == Reply(Render("login.html"), []) && calls == [] && store.session == old(store.session)
    ensures isPost ==> calls != [] && calls[0] == LoginCall(username, password)
    ensures isPost && !up.login(username, password).Answered? ==>
      reply.view.ServerError? && store.session == old(store.session)
    ensures isPost && up.login(username, password).Answered? && up.login(username, password).status != 200 ==>
      reply == Reply(Render("login.html"), [InvalidCredentials]) && store.session == old(store.session)
      && calls == [LoginCall(username, password)]
    ensures (isPost && up.login(username, password).Answered? && up.login(username, password).status == 200
             && TokenFields(up.login(username, password)).None?) ==>
      reply.view.ServerError? && store.session == old(store.session)
    ensures isPost && TokenFields(up.login(username, password)).Some? ==>
      var f := TokenFields(up.login(username, password)).value;
      var stored := StoreTokens(old(store.session), f);
      var me := RequestWithRefresh("get", "/users/me/", None, Some(f["access_token"]), None, stored, up);
      var identity := WriteIdentity(me.session, Decode(me.result.body));
      && calls == [LoginCall(username, password)] + me.calls
      && (me.result.status != 200 ==>
            reply == Reply(Render("login.html"), [InvalidCredentials]) && store.session == me.session)
      && (me.result.status == 200 && identity.1 ==>
            store.session == identity.0
            && reply == Reply(Redirect("standup.dashboard"), [Welcome(identity.0["username"])]))
      && (me.result.status == 200 && !identity.1 ==>
            reply.view.ServerError? && store.session == identity.0)
  {
    if !isPost {
      return Reply(Render("login.html"), []), [];
    }
    calls := [LoginCall(username, password)];
    var answer := up.login(username, password);
    if !answer.Answered? {
      return Reply(ServerError("token request raised"), []), calls;
    }
    if answer.status == 200 {
      var tokenData := Decode(answer.body);
      if !(tokenData.Some? && tokenData.value.JObj? && "access_token" in tokenData.value.fields) {
        return Reply(ServerError("token response unreadable"), []), calls;
      }
      var f := tokenData.value.fields;
      assert TokenFields(answer) == Some(f);
      store.session := store.session["token" := f["access_token"]];
      if "refresh_token" in f {
        store.session := store.session["refresh_token" := f["refresh_token"]];
      }
      assert store.session == StoreTokens(old(store.session), f);
      var userResult, userCalls := store.ApiRequestWithRefresh("get", "/users/me/", None, Some(store.session["token"]), None, up);
      calls := calls + userCalls;
      if userResult.status == 200 {
        var identity := WriteIdentity(store.session, Decode(userResult.body));
        store.session := identity.0;
        if !identity.1 {
          return Reply(ServerError("identity response unreadable or incomplete"), []), calls;
        }
        return Reply(UrlFor("standup.dashboard"), [Welcome(identity.0["username"])]), calls;
      }
    }
    reply := Reply(Render("login.html"), [InvalidCredentials]);
  }

  /**
   * `register`. A password that differs from its confirmation is refused
   * before anything is sent. Otherwise the payload, with role `developer`,
   * goes through the gateway with no token; a non-200 answer's `detail` is
   * shown, and an answer that is not a JSON object makes the handler raise.
   */
  method Register(store: CredentialStore, isPost: bool, email: Option<string>, username: Option<string>,
                  password: Option<string>, confirm: Option<string>, up: Upstream)
    returns (reply: Reply, calls: seq<Call>)
    modifies store
    ensures !isPost || password != confirm ==> calls == [] && store.session == old(store.session)
    ensures !isPost ==> reply == Reply(Render("register.html"), [])
    ensures isPost && password != confirm ==> reply == Reply(Render("register.html"), [PasswordsMismatch])
    ensures isPost && password == confirm ==>
      var payload := RegistrationPayload(email, username, password);
      var o := RequestWithRefresh("post", "/users/", Some(payload), None, None, old(store.session), up);
      && calls == o.calls && store.session == o.session
      && calls != [] && calls[0] == ApiCall(Request(Post, "/users/", None, None, Some(payload)))
      && (o.result.status == 200 ==> reply == Reply(Redirect("main.login"), [RegistrationSucceeded]))
      && (o.result.status != 200 && ErrorDetail(Decode(o.result.body)).Some? ==>
            reply == Reply(Render("register.html"), [RegistrationFailed(ErrorDetail(Decode(o.result.body)).value)]))
      && (o.result.status != 200 && ErrorDetail(Decode(o.result.body)).None? ==> reply.view.ServerError?)
  {
    if !isPost {
      return Reply(Render("register.html"), []), [];
    }
    if password != confirm {
      return Reply(Render("register.html"), [PasswordsMismatch]), [];
    }
    var payload := RegistrationPayload(email, username, password);
    assert Lower("post") == "post";
    var result;
    result, calls := store.ApiRequestWithRefresh("post", "/users/", Some(payload), None, None, up);
    if result.status == 200 {
      return Reply(UrlFor("main.login"), [RegistrationSucceeded]), calls;
    }
    var detail := ErrorDetail(Decode(result.body));
    if detail.None? {
      return Reply(ServerError("error response unreadable"), []), calls;
    }
    reply := Reply(Render("register.html"), [RegistrationFailed(detail.value)]);
  }

  /** `logout`: every session key goes; nothing is sent upstream. */
  method Logout(store: CredentialStore) returns (reply: Reply)
    modifies store
    ensures store.session == map[]
    ensures reply == Reply(Redirect("main.index"), [LoggedOut])
  {
    store.Clear();
    reply := Reply(UrlFor("main.index"), [LoggedOut]);
  }
}
