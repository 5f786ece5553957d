/**
 * The route guards `login_required` and `role_required(roles)`: decisions
 * taken on the session before a protected handler runs. A refusal flashes
 * a notice and redirects through `url_for`; the endpoint names are
 * parameters, so the guards can be read both with the names they are
 * written with (`login`, `dashboard`) and with the blueprint names they
 * evidently mean (`main.login`, `standup.dashboard`).
 */
module Guards {
  import opened JsonValues
  import opened Pages

  /** Run the handler, or answer with the refusal instead. */
  datatype Guard = Proceed | Refuse(reply: Reply)

  /** The endpoint names as the guards write them. */
  const WrittenLogin: string := "login"
  const WrittenDashboard: string := "dashboard"

  /** The blueprint endpoints those names stand for. */
  const BlueprintLogin: string := "main.login"
  const BlueprintDashboard: string := "standup.dashboard"

  /**
   * `flash(notice); return redirect(url_for(endpoint))`. When the endpoint
   * is not registered `url_for` raises, and the visitor gets a server error
   * instead of the redirect.
   */
  function Refusal(endpoint: string, notice: Message): (r: Reply)
    ensures r.view.Redirect? <==> endpoint in Endpoints
    ensures r.view.Redirect? ==> r == Reply(Redirect(endpoint), [notice])
    ensures !r.view.Redirect? ==> r.view.ServerError?
  {
    var v := UrlFor(endpoint);
    Reply(v, if v.Redirect? then [notice] else [])
  }

  /** `login_required`: a stored token is all it asks for. */
  function LoginRequired(session: map<string, Json>, login: string): (g: Guard)
    ensures g == Proceed <==> "token" in session
    ensures g.Refuse? ==> g.reply == Refusal(login, LoginNeeded)
  {
    if "token" !in session then Refuse(Refusal(login, LoginNeeded)) else Proceed
  }

  /**
   * `role_required(roles)`: a missing token or role sends the visitor to log
   * in; a role outside the allow-list sends them to the dashboard with a
   * permission notice; otherwise the handler runs.
   */
  function RoleRequired(session: map<string, Json>, roles: seq<Json>, login: string, dashboard: string): (g: Guard)
    ensures "token" !in session || "user_role" !in session ==> g == Refuse(Refusal(login, LoginNeeded))
    ensures "token" in session && "user_role" in session && session["user_role"] !in roles ==>
      g == Refuse(Refusal(dashboard, PermissionDenied))
    ensures g == Proceed <==> "token" in session && "user_role" in session && session["user_role"] in roles
  {
    if "token" !in session || "user_role" !in session then Refuse(Refusal(login, LoginNeeded))
    else if session["user_role"] !in roles then Refuse(Refusal(dashboard, PermissionDenied))
    else Proceed
  }

  /** The decorators stacked as the handlers declare them: login first, then role. */
  function Stacked(session: map<string, Json>, roles: seq<Json>, login: string, dashboard: string): Guard
  {
    match LoginRequired(session, login)
    case Proceed => RoleRequired(session, roles, login, dashboard)
    case other => other
  }

  /**
   * Stacking `login_required` over `role_required` decides exactly as the
   * role guard alone: whatever the role guard lets through, the login guard
   * lets through too, and a missing login always wins over a wrong role.
   */
  lemma StackedIsRoleGuard(session: map<string, Json>, roles: seq<Json>, login: string, dashboard: string)
    ensures Stacked(session, roles, login, dashboard) == RoleRequired(session, roles, login, dashboard)
    ensures RoleRequired(session, roles, login, dashboard) == Proceed ==> LoginRequired(session, login) == Proceed
    ensures LoginRequired(session, login).Refuse? ==> RoleRequired(session, roles, login, dashboard) == LoginRequired(session, login)
  {
  }

  /**
   * As written, neither `login` nor `dashboard` is an endpoint of the
   * application built from the blueprints, so every refusal is a server
   * error; the single-module application registers both names, which is
   * where they come from.
   */
  lemma WrittenRefusalsRaise(session: map<string, Json>, roles: seq<Json>)
    ensures LoginRequired(session, WrittenLogin).Refuse? ==> LoginRequired(session, WrittenLogin).reply.view.ServerError?
    ensures RoleRequired(session, roles, WrittenLogin, WrittenDashboard).Refuse? ==>
      RoleRequired(session, roles, WrittenLogin, WrittenDashboard).reply.view.ServerError?
    ensures AppUrlFor(WrittenLogin).Redirect? && AppUrlFor(WrittenDashboard).Redirect?
  {
    assert WrittenLogin !in Endpoints && WrittenDashboard !in Endpoints;
  }

  /**
   * With the blueprint endpoints, a logged-in developer asking for an
   * admin-only page is sent to the dashboard with the permission notice,
   * and a visitor with no session is sent to log in; as written, both are
   * server errors.
   */
  lemma DeveloperDeniedAdminPage(session: map<string, Json>)
    requires "token" in session && Get(session, "user_role") == JStr("developer")
    ensures RoleRequired(session, [JStr("admin")], BlueprintLogin, BlueprintDashboard)
      == Refuse(Reply(Redirect("standup.dashboard"), [PermissionDenied]))
    ensures RoleRequired(map[], [JStr("admin")], BlueprintLogin, BlueprintDashboard)
      == Refuse(Reply(Redirect("main.login"), [LoginNeeded]))
    ensures RoleRequired(session, [JStr("admin")], WrittenLogin, WrittenDashboard).reply.view.ServerError?
  {
    assert BlueprintLogin in Endpoints && BlueprintDashboard in Endpoints;
    assert WrittenDashboard !in Endpoints;
  }
}
