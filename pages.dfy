/**
 * What a route handler gives back to the browser, with the flashed
 * notices, and how `url_for` resolves an endpoint name in the application
 * built from the `main` and `standup` blueprints.
 */
module Pages {
  import opened Wrappers
  import opened JsonValues

  /** The notices the handlers flash. */
  datatype Message =
    | Welcome(username: Json)        // "Welcome back, <username>!"
    | InvalidCredentials             // "Invalid username or password"
    | PasswordsMismatch              // "Passwords do not match"
    | RegistrationSucceeded          // "Registration successful! Please log in."
    | RegistrationFailed(detail: Json)
    | LoggedOut                      // "You have been logged out"
    | SessionExpired                 // "Your session has expired. Please log in again."
    | StandupsLoadFailed             // "Failed to load standups. Please try again later."
    | StandupsLoadError              // "An error occurred while loading standups. ..."
    | StandupNotFound                // "Standup not found"
    | StandupCreated                 // "Standup created successfully"
    | StandupCreateFailed(detail: Json)
    | StandupUpdated                 // "Standup updated successfully"
    | StandupUpdateFailed(detail: Json)
    | FacilitatorOnly                // "Only the facilitator or admin can create sessions"
    | SessionCreated                 // "Session created successfully"
    | SessionCreateFailed(detail: Json)
    | SessionLoadFailed              // "Failed to load session"
    | SessionLoadError               // "An error occurred while loading the session"
    | ResponseSubmitted              // "Response submitted successfully"
    | ResponseFailed                 // "Failed to submit response"
    | LoginNeeded                    // "Please log in to access this page"
    | PermissionDenied               // "You don't have permission to access this page"

  /** A rendered template, a redirect, or an exception that escaped the handler. */
  datatype View =
    | Render(template: string)
    | RenderStandups(standups: Json)
    | RenderNewStandup(users: Json)
    | RenderStandup(standup: Json, sessions: Json)
    | RenderEditStandup(standup: Json, users: Json, memberIds: seq<Json>)
    | RenderSession(standupSession: Json, responses: Json, responded: bool, timezone: Json)
    | Redirect(endpoint: string)
    | ServerError(cause: string)

  datatype Reply = Reply(view: View, flashes: seq<Message>)

  /** The endpoints the two blueprints register: a view function's name under its blueprint's. */
  const Endpoints: set<string> := {
    "main.index", "main.login", "main.register", "main.logout",
    "standup.dashboard", "standup.create", "standup.view", "standup.edit",
    "standup.view_session", "standup.create_session"
  }

  /** `redirect(url_for(endpoint))`: an unknown endpoint raises a build error instead. */
  function UrlFor(endpoint: string): (v: View)
    ensures v.Redirect? <==> endpoint in Endpoints
    ensures v.Redirect? ==> v.endpoint == endpoint
  {
    if endpoint in Endpoints then Redirect(endpoint) else ServerError("BuildError: " + endpoint)
  }

  /**
   * The endpoints of the single-module application (app.py): its view
   * functions are registered on the application itself, under their bare
   * names.
   */
  const AppEndpoints: set<string> := {
    "index", "login", "register", "logout", "dashboard", "new_standup",
    "view_standup", "edit_standup", "view_session", "create_session"
  }

  /** `redirect(url_for(endpoint))` in the single-module application. */
  function AppUrlFor(endpoint: string): (v: View)
    ensures v.Redirect? <==> endpoint in AppEndpoints
    ensures v.Redirect? ==> v.endpoint == endpoint
  {
    if endpoint in AppEndpoints then Redirect(endpoint) else ServerError("BuildError: " + endpoint)
  }

  /** `response.json().get('detail', 'Unknown error')`, or None where that raises. */
  function ErrorDetail(decoded: Option<Json>): (r: Option<Json>)
    ensures r.Some? <==> decoded.Some? && decoded.value.JObj?
    ensures r.Some? && "detail" !in decoded.value.fields ==> r.value == JStr("Unknown error")
  {
    match decoded
    case Some(JObj(f)) => Some(if "detail" in f then f["detail"] else JStr("Unknown error"))
    case _ => None
  }
}
