# Iris stand-up front end: a Dafny model

Iris is a Flask web front end for a stand-up meeting service. It does not
store data of its own. Each page handler calls a REST API on the user's
behalf and keeps the user's credentials in the Flask session cookie: the
access `token`, the `refresh_token`, and the identity fields `user_id`,
`username` and `user_role`.

This project models the core of that front end:

- **The gateway** (`api_request`). It builds one HTTP request from a
  method name, endpoint, body, token and query. It turns transport failures
  into synthetic responses: 503 when the connection fails, 504 on a timeout
  and 500 on any other fault. It also answers 500 for an unsupported method.
- **Credential refresh** (`refresh_token`, `api_request_with_refresh`). A
  401 answer triggers at most one refresh and at most one replay. The
  session is updated in place.
- **The route guards** (`login_required`, `role_required`).
- **The account handlers** (`index`, `login`, `register`, `logout`) of the
  `main` blueprint.
- **The stand-up handlers** of the `standup` blueprint: dashboard, create,
  view, edit, view session and create session. These include the form to
  payload conversions (`",".join`, `int(...)`) and the "has this user
  already answered" scan.
- **The `format_time` template filter** (`strptime('%H:%M:00')` then
  `strftime('%I:%M %p')`).
- **The colour-palette generator**: `hex_to_rgb`, `rgb_to_hex`, and the key
  structure of `generate_color_shades`.

The upstream API, the token endpoint and the refresh endpoint are modelled
as functions from a request to a `Transport` outcome: an answer with a
status and body, or one of the transport faults. The Flask session is a
`map<string, Json>` held by the `CredentialStore` class, whose methods
`RefreshToken`, `ApiRequestWithRefresh` and `Clear` change it in place.
The handlers that write the session (`login`, `register`, `logout` and
`dashboard`) are module-level methods that take the store and may modify
it. Their contracts state the new session in terms of the old one and of
specification functions such as `RequestWithRefresh`. Handlers that only
read the session are functions that return a `Visit`: the reply, the
resulting session and the calls made.

Python semantics that matter to the behaviour are written out:

- `int(s, base)`: surrounding whitespace, a sign, and single underscores
  between digits.
- `str.lstrip('#')` and slice clamping.
- `'{:02x}'`, which writes lower case.
- `str.lower()` on method names.
- A dictionary subscript or `.json()` on a non-JSON body raises. This
  appears as `None` or as a `ServerError` view.
- `any(...)` stops at the first match.

## Model

| member | source | states |
|---|---|---|
| Gateway.ParseVerb | app/helpers.py:19-28 | a method name selects a verb exactly when its lower-cased form is that verb's name |
| Text.Lower | app/helpers.py:19-25 | `str.lower()` on ASCII text |
| Gateway.BuildRequest | app/helpers.py:12-28 | an unsupported method fails with "Unsupported HTTP method: <name>"; otherwise the request carries the endpoint, a bearer exactly when the token is truthy, the query only on GET and the body only on POST/PUT |
| Gateway.FailureStatus | app/helpers.py:32-51 | connection failures and connect timeouts give 503, read timeouts 504, any other fault 500 |
| Gateway.Synthetic | app/helpers.py:34-50 | a fabricated response: the status, the `{"detail": ...}` body and the synthetic mark |
| Gateway.FailureDetail | app/helpers.py:36-50 | the message reported for each fault: the fixed 503 and 504 texts, "An error occurred: <message>" otherwise |
| Gateway.Decode | app/main.py:77 | `response.json()`: a JSON value, or nothing where it raises |
| Gateway.Classify | app/helpers.py:30-51 | an answered request passes status and body through untouched; a fault gives a synthetic response with the fault's status (503, 504 or 500) whose body decodes to `{"detail": <the fault's message>}` (the escaped body, see Findings) |
| Gateway.ApiRequest | app/helpers.py:11-51 | at most one request is sent, and none for an unsupported method, which yields a synthetic 500 whose body decodes to `{"detail": "An error occurred: Unsupported HTTP method: <name>"}`; a sent request's result is the classified transport outcome |
| Gateway.ServiceUnavailablePlain | app/helpers.py:36 | the fixed 503 detail needs no JSON escaping |
| Gateway.TimedOutPlain | app/helpers.py:43 | the fixed 504 detail needs no JSON escaping |
| Gateway.FixedBodiesAsWritten | app/helpers.py:36-43 | the escaped bodies for 503 and 504 are byte for byte the literals the source writes |
| Gateway.MethodCaseInsensitive | app/helpers.py:19-26 | two method names with the same lower case build the same request |
| Gateway.AsWrittenUnsupportedBodyBreaks | app/helpers.py:50 | as written, the 500 body for the method name `ge"t` is not the one-key object `{"detail": <message>}` (for that name it is no JSON text at all) |
| DetailBody.AsWritten | app/helpers.py:50 | the f-string body with the message pasted in unescaped |
| DetailBody.Encode | app/helpers.py:36-50 | the body with the message escaped as a JSON string |
| DetailBody.ParseDetail | app/helpers.py:36-50 | reading a body back as the one-key object `{"detail": <string>}` |
| DetailBody.Unescape | app/helpers.py:50 | a JSON escape consumes at least one character and no more than it is given |
| DetailBody.QuotedCharStep | app/helpers.py:50 | an escaped quote or backslash reads back as itself |
| DetailBody.ControlCharStep | app/helpers.py:50 | an escaped control character reads back as itself |
| DetailBody.PlainCharStep | app/helpers.py:50 | any other character is copied and reads back as itself |
| DetailBody.ParseEscaped | app/helpers.py:50 | the escaped text followed by a closing quote reads back as the original text and the rest |
| DetailBody.EncodeRoundTrip | app/helpers.py:50 | the escaped `{"detail": ...}` body decodes to exactly the detail it was built from |
| DetailBody.PlainNeedsNoEscape | app/helpers.py:36-43 | text without quotes, backslashes or control characters is its own escape |
| DetailBody.PlainEncodeAsWritten | app/helpers.py:50 | for such text the f-string body and the escaped body coincide |
| DetailBody.QuoteBreaksAsWrittenBody | app/helpers.py:50 | as written, a `"` in the message ends the JSON string early: the string read is the text before the quote, so the body is not `{"detail": <message>}` and the message cannot be read back |
| DetailBody.PlainConcat | app/helpers.py:50 | plain text stays plain when concatenated |
| JsonValues.Field | app/main.py:37-39 | a subscript succeeds exactly on an object holding the key, and gives that key's value |
| JsonValues.Truthy | app/helpers.py:13 | Python truthiness of a JSON value: false for null, false, 0, and empty strings, lists and objects |
| Credentials.TokenFields | app/helpers.py:65-69 | a token response is usable only when it answered 200 with a JSON object holding `access_token` |
| Credentials.StoreTokens | app/helpers.py:67-69 | `token` is set to the new access token, `refresh_token` is replaced only when the response has one, and every other key is kept |
| Credentials.TryRefresh | app/helpers.py:54-75 | nothing is sent without a stored refresh token; success replaces `token`, rotates `refresh_token` only when a new one came back and leaves every other key alone; any failure leaves the session unchanged |
| Credentials.ApiCalls | app/helpers.py:20-26 | each request sent is recorded as one gateway call, in order |
| Credentials.RequestWithRefresh | app/helpers.py:78-86 | the session only gains keys and keeps every key other than `token` and `refresh_token`; when it retries is stated by OnlyUnauthorizedRetries, FailedRefreshReturnsOriginal and RefreshedReplay |
| Credentials.CountsDistribute | app/helpers.py:78-86 | call counts add up over concatenated call logs |
| Credentials.ApiCallsCount | app/helpers.py:11-51 | one gateway exchange makes at most one API call and no refresh call |
| Credentials.BoundedRetry | app/helpers.py:78-86 | at most two API calls and at most one refresh per request |
| Credentials.OnlyUnauthorizedRetries | app/helpers.py:83 | a synthetic response is never a 401, and any status other than 401 is returned as is, with the session untouched |
| Credentials.FailedRefreshReturnsOriginal | app/helpers.py:83-86 | when the refresh fails, the first response is returned, the session is unchanged and no replay is made |
| Credentials.ReplayUsesRefreshedToken | app/helpers.py:83-84 | a replay happens only after a 401 and a successful refresh, and carries the refreshed token from the session |
| Credentials.RefreshedReplay | app/helpers.py:80-84 | after a first answer of exactly 401 and a successful refresh, the caller gets the answer to the request resent with the refreshed token, the refreshed session, and two requests plus one refresh went out |
| Credentials.FailedOrSkippedCount | app/helpers.py:83 | without a 401 followed by a successful refresh, at most one API call is made |
| Credentials.SentConcat | app/helpers.py:78-86 | a request appears in concatenated call logs exactly when it appears in one of them |
| Credentials.SentApiCalls | app/helpers.py:11-51 | a recorded exchange holds a request exactly when that request was built |
| Credentials.SentByRequest | app/helpers.py:19-28 | a gateway exchange sends to exactly its endpoint with exactly its parsed verb |
| Credentials.RefreshSendsNoRequest | app/helpers.py:54-75 | a refresh never shows up as a gateway request |
| Credentials.RequestWithRefreshSends | app/helpers.py:78-86 | with or without a replay, the only endpoint reached is the requested one, and it is always reached when the method is supported |
| Credentials.RefreshScenario | app/helpers.py:78-86 | a 401 with a refresh token and a good refresh gives: call, refresh, replay with the new token, and the new token stored |
| Credentials.GetSends | app/helpers.py:13-20 | a GET with a truthy token sends exactly one request, to its endpoint, carrying that token as bearer |
| Credentials.CredentialStore.constructor | app/helpers.py:54-75 | a fresh store holds an empty session |
| Credentials.CredentialStore.RefreshToken | app/helpers.py:54-75 | the in-place refresh answers and updates the session as `TryRefresh` specifies |
| Credentials.CredentialStore.ApiRequestWithRefresh | app/helpers.py:78-86 | the in-place request with refresh gives the result, session and calls `RequestWithRefresh` specifies |
| Credentials.CredentialStore.Clear | app/main.py:85 | `session.clear()` leaves the session empty |
| Guards.Refusal | app/helpers.py:94-95 | `flash` then `redirect(url_for(endpoint))`: a redirect with the notice exactly when the endpoint is registered, a server error otherwise |
| Guards.LoginRequired | app/helpers.py:90-97 | the handler runs exactly when a token is stored; otherwise the refusal flashes "Please log in to access this page" and redirects to the login endpoint given |
| Guards.RoleRequired | app/helpers.py:100-114 | a missing token or role is refused towards the login endpoint with the login notice; a role outside the list is refused towards the dashboard endpoint with the permission notice; the handler runs exactly when both keys are stored and the role is in the list |
| Guards.StackedIsRoleGuard | iris/standup.py:40-41 | `login_required` stacked over `role_required` decides exactly as the role guard alone, and a missing login is refused the same way by both |
| Guards.Stacked | iris/standup.py:40-41 | the two decorators applied in the order the handlers declare them |
| Guards.WrittenRefusalsRaise | app/helpers.py:95-110 | as written, `url_for("login")` and `url_for("dashboard")` name no endpoint of the blueprint application, so every refusal is a server error; both names are endpoints of the single-module application |
| Guards.DeveloperDeniedAdminPage | iris/standup.py:39-42 | with the blueprint endpoints a developer on an admin-only page is redirected to `standup.dashboard` with the permission notice and an empty session to `main.login` with the login notice; with the names as written the developer gets a server error |
| Pages.UrlFor | app/main.py:11 | `url_for` redirects exactly to the registered endpoints and raises for any other name |
| Pages.AppUrlFor | app.py:178-489 | `url_for` in the single-module application redirects exactly to its own view names (`dashboard`, `view_session`, ...) and raises for any other |
| Pages.ErrorDetail | iris/standup.py:76-77 | `error_data.get("detail", "Unknown error")`: defined exactly for a body that decodes to an object, giving "Unknown error" when it has no `detail` |
| AuthRoutes.Index | app/main.py:9-12 | a stored token redirects to the dashboard; otherwise the index page is rendered |
| AuthRoutes.WriteIdentity | app/main.py:36-39 | all three identity keys are written exactly when the body is an object holding `id`, `username` and `role`; a missing key stops the writes there; no other key changes |
| AuthRoutes.RegistrationPayload | app/main.py:65-70 | the registration body holds the form's email, username and password and the fixed role `developer` |
| AuthRoutes.Login | app/main.py:16-46 | GET renders the form; a failed token request raises; a non-200 flashes "Invalid username or password"; a 200 stores the token (and a refresh token if given) before fetching `/users/me/` through the refreshing gateway; success writes the identity and redirects with a welcome; a failed identity fetch keeps the stored token and flashes the invalid-credentials notice |
| AuthRoutes.Register | app/main.py:50-80 | mismatched passwords send nothing; otherwise one refreshing POST to `/users/`; 200 redirects to `main.login`; any other status flashes the error's `detail` or "Unknown error", and a non-object body raises |
| AuthRoutes.Logout | app/main.py:84-87 | the session is emptied and the visitor is redirected to `main.index` |
| StandupData.SplitComma | iris/standup.py:54 | the splitting that undoes `",".join`: never empty, and no piece holds a comma |
| StandupData.JoinComma | iris/standup.py:54 | `",".join(days)` |
| StandupData.SplitNoComma | iris/standup.py:54 | a comma-free string is a single piece |
| StandupData.SplitPiece | iris/standup.py:54 | a leading comma-free piece splits off |
| StandupData.JoinSplitRoundTrip | iris/standup.py:54 | the joined days split back into the chosen days when none holds a comma; no days give the empty string |
| StandupData.CreateDefaultsWhereEditRaises | iris/standup.py:65-66 | `int(x or 0)` agrees with `int(x)` where that parses, and gives 0 for a missing or empty field where `int(x)` raises |
| StandupData.FormInt | iris/standup.py:143-144 | `int(field)`: a missing field or bad text raises |
| StandupData.FormIntOrZero | iris/standup.py:65-66 | `int(field or 0)`: a missing or empty field is 0 |
| StandupData.IntList | iris/standup.py:67 | the member ids convert exactly when every one parses, element by element |
| StandupData.IntsAsJson | iris/standup.py:67 | the converted ids are posted as a JSON list of the same integers, in order |
| StandupData.PayloadObject | iris/standup.py:60-68 | the stand-up body has exactly the seven keys, with the joined days and the converted numbers |
| StandupData.StandupPayload | iris/standup.py:57-70 | the body exists exactly when the duration, facilitator and every member id convert |
| StandupData.EmptyNumbersCreateVersusEdit | iris/standup.py:65-66 | empty number fields raise when editing but post zeros when creating |
| StandupData.FieldOfEach | iris/standup.py:165 | the comprehension over members succeeds exactly when every member has the key, and keeps their order |
| StandupData.MemberIds | iris/standup.py:165 | a stand-up without `members` gives no ids; with a list, the ids of every member in order, or a raise when one lacks `id` |
| StandupData.MayCreateSession | app.py:500 | the facilitator check: allowed exactly for the facilitator or an admin, raising where the short-circuited expression subscripts a missing key |
| StandupData.AnyHasUserMeaning | app.py:447 | the scan answers true exactly when a matching entry is preceded only by well-formed entries of other users, and false exactly when all entries are well-formed and none match |
| StandupData.AnyHasUser | app.py:447 | `any(r["user_id"] == uid for r in responses)`, stopping at the first match and raising on an entry without `user_id` before it |
| StandupData.UserHasResponded | app.py:444-447 | the scan over whatever the responses request gave back; an empty object or string is an empty scan, another non-list raises |
| StandupData.NoMatchBeforeShift | app.py:447 | the "no match before k" condition splits into the first entry and the rest |
| StandupData.TimezoneOf | app.py:440 | the stand-up's timezone, `UTC` when either key is missing, and a raise when `standup` is present but not an object |
| StandupRoutes.DashboardVisit | iris/standup.py:11-36 | one refreshing GET of `/standups/`; 200 renders them (an unreadable body renders an empty list with the load-error notice); 401 empties the session and redirects to the login endpoint when it is registered, otherwise renders an empty list with the load-error notice; the expiry notice survives only when the session is cleared before it is flashed; another status renders an empty list with the failure notice |
| StandupRoutes.ExpiredDashboardAsWritten | iris/standup.py:20-24 | as written (flash, then clear, then `standup.login`), an expired session is emptied and shown an empty dashboard with only the load-error notice; even with `main.login` the redirect carries no notice |
| StandupRoutes.ExpiredDashboard | iris/standup.py:20-24 | with the session cleared first and `main.login`, an expired session is emptied and redirected to log in with the expiry notice |
| StandupRoutes.Dashboard | iris/standup.py:11-36 | the in-place handler gives the reply, session and calls that `DashboardVisit` specifies; notices flashed before `session.clear()` are dropped with it |
| StandupRoutes.FetchStandup | iris/standup.py:93 | fetching a stand-up never loses the token |
| StandupRoutes.JsonOrEmpty | iris/standup.py:81 | `.json()` when the status is 200, an empty list otherwise; it raises exactly on a 200 whose body does not decode |
| StandupRoutes.FetchUsers | iris/standup.py:80 | the users fetch: one refreshing GET of `/users/` |
| StandupRoutes.NewStandupForm | iris/standup.py:80-86 | the form page adds exactly the users fetch to the calls, keeps the notices, and lists no users when that fetch is not a 200 |
| StandupRoutes.CreateStandup | iris/standup.py:42-86 | a form that does not convert raises before any request; GET fetches only the users; a POST redirects to the dashboard with the created notice exactly on a 200, and otherwise shows the API's `detail` or raises when the error body is not an object |
| StandupRoutes.CreateStandupPosts | iris/standup.py:43-70 | `/standups/` is POSTed exactly when the request is a POST and the form converts |
| StandupRoutes.ViewStandup | iris/standup.py:91-105 | a non-200 fetch redirects with "Standup not found"; a rendered stand-up is the decoded 200 body |
| StandupRoutes.EditStandupForm | iris/standup.py:157-173 | the edit page lists the members' ids, keeps the notices and adds exactly the users fetch |
| StandupRoutes.EditStandup | iris/standup.py:111-173 | a non-200 fetch ends in "Standup not found"; an unreadable stand-up or a form that does not convert raises with nothing more sent; a 200 PUT redirects to the named view endpoint (a build error for `standup.view_standup`), another status shows the API's `detail` |
| StandupRoutes.EditStandupPuts | iris/standup.py:121-148 | the PUT is sent exactly on a POST when the stand-up loaded and the form converts with strict `int` |
| StandupRoutes.CreateSession | iris/standup.py:239-273 | a non-200 fetch ends in "Standup not found" back at `standup.dashboard`; `/sessions/` is POSTed exactly when the facilitator check passes; every other redirect goes to the named view endpoint |
| StandupRoutes.CreateSessionRedirects | iris/standup.py:250-273 | as written (`standup.view_standup`) every path past the fetch raises; with `standup.view`, a refusal redirects with the facilitator notice and a 200 with the created notice |
| StandupRoutes.LoadSession | app.py:429-447 | the loading phase makes at most two plain GETs, to the session and to its responses, and never refreshes |
| StandupRoutes.PostAppended | app.py:455-465 | posting the answer adds one call, no refresh, and the POST to `/responses/` |
| StandupRoutes.ViewSession | app.py:426-484 | the session is never written and never refreshed; an answer is POSTed exactly on a POST by a user who has not answered; otherwise the loaded page is rendered |
| TimeFormat.ReadField | app.py:142 | an hour or minute field is one digit, or two digits within the bound, followed by a colon; its value is the digits' decimal value |
| TimeFormat.ParseClock | app.py:142 | only `H:M:00` text is read, always as a valid time of day, and the accepted text is exactly the written form (padded or not) of the hour and minute it reads |
| TimeFormat.Pad2 | app.py:143 | a value below 100 is written as two digits |
| TimeFormat.Hour12 | app.py:139-143 | `%I`: midnight and noon show as 12, afternoon hours drop by 12 |
| TimeFormat.Render | app.py:139-143 | `%I:%M %p`: eight characters holding the 12-hour hour, the minute and AM before noon, PM from noon |
| TimeFormat.FormatTime | app.py:138-148 | non-strings and unreadable strings pass through; readable ones are rewritten |
| TimeFormat.ParseWrite24 | app.py:142 | conversely, every time of day is accepted as `H:M:00`, with the hour and the minute each zero-padded or not |
| TimeFormat.Digit | app.py:142 | the character for a value below ten is a digit worth that value |
| TimeFormat.DigitOfValue | app.py:142 | a digit is the character for its own value |
| TimeFormat.FieldText | app.py:142 | a field written with `%H`/`%M` padding, or as one digit when below ten |
| TimeFormat.Write24 | app.py:142 | the text `H:M:00` of a time of day |
| TimeFormat.ReadFieldText | app.py:142 | a written field followed by a colon reads as its value and length |
| TimeFormat.FieldTextOfDigits | app.py:142 | one or two digits read as a value are that value's written field |
| TimeFormat.RenderReadsBack | app.py:143 | the 12-hour text gives back the time it came from, so the rewrite loses nothing |
| TimeFormat.FormatTimeIdempotent | app/__init__.py:35-45 | applying the filter twice equals applying it once |
| TimeFormat.NonZeroSecondsUnchanged | app.py:142-146 | times whose seconds are not `00` are left as they are |
| PyInt.StripLeft | iris/standup.py:65 | leading whitespace removal never lengthens the text |
| PyInt.StripRight | iris/standup.py:65 | trailing whitespace removal never lengthens the text |
| PyInt.StripLeftSuffix | iris/standup.py:65 | the stripped text is a suffix that starts with a non-space |
| PyInt.StripRightPrefix | iris/standup.py:65 | the stripped text is a prefix that ends with a non-space |
| PyInt.DigitValue | generate_colors.py:6 | a digit's value is below the base |
| PyInt.DigitsAfterFirstEnd | iris/standup.py:65 | an accepted digit string never ends in an underscore |
| PyInt.AllDigitsAfterFirst | iris/standup.py:65 | a string of digits alone is accepted |
| PyInt.DigitsPart | iris/standup.py:65 | the digits are no longer than the text, and shorter when a minus sign was taken off |
| PyInt.NegativeHasMinus | generate_colors.py:6 | a negative result needs a `-` in the text |
| PyInt.DigitIsPlain | generate_colors.py:6 | a digit is never whitespace, a sign, an underscore or a base prefix letter |
| PyInt.ParsePlainDigits | generate_colors.py:6 | plain digits parse to their positional value |
| PyInt.Decimal | iris/standup.py:67 | a decimal numeral is non-empty and made only of digits |
| PyInt.DecimalValue | iris/standup.py:67 | a decimal numeral's digits are worth the number |
| PyInt.DecimalParses | iris/standup.py:67 | `int` reads back every decimal numeral |
| PyInt.Strip | iris/standup.py:65 | the whitespace `int()` ignores around the text |
| PyInt.ParseInt | iris/standup.py:65-67 | `int(text, base)`: optional surrounding whitespace and sign, then digits with single underscores between them; nothing where it raises |
| Colors.LStripHash | generate_colors.py:5 | the stripped colour is no longer and does not start with `#` |
| Colors.LStripHashSuffix | generate_colors.py:5 | only leading `#` characters are removed |
| Colors.Slice2 | generate_colors.py:6 | a slice has at most two characters, and exactly the two at the offset when they exist |
| Colors.ReadComponents | generate_colors.py:6 | a successful read gives three components |
| Colors.ReadThree | generate_colors.py:6 | the generator reads offsets 0, 2 and 4 and fails when any of them fails |
| Colors.Component | generate_colors.py:6 | `int(h[i:i+2], 16)`, nothing where it raises |
| Colors.HexToRgb | generate_colors.py:4-6 | `hex_to_rgb`: the three components, nothing where one of them raises |
| Colors.HexToRgbReads | generate_colors.py:4-6 | the colour is the three two-character slices after stripping `#`, each read with `int(.., 16)` |
| Colors.Clamp | generate_colors.py:10-12 | `max(0, min(255, x))` is within 0..255, is the identity there, and saturates outside |
| Colors.HexChar | generate_colors.py:9 | a digit value is written as a lower-case hex digit |
| Colors.HexCharValue | generate_colors.py:9 | a written hex digit reads back as its value |
| Colors.Hex2 | generate_colors.py:9 | `{:02x}` of a byte is two lower-case hex digits |
| Colors.HexComponents | generate_colors.py:9-13 | each component takes two characters |
| Colors.RgbToHex | generate_colors.py:8-13 | the result is `#` followed by six characters |
| Colors.RgbToHexFormat | generate_colors.py:8-13 | the six characters are lower-case hex, two per clamped component |
| Colors.ParsePair | generate_colors.py:6 | two hex digits parse to first * 16 + second |
| Colors.Hex2Parses | generate_colors.py:6-9 | `int(.., 16)` reads back what `{:02x}` wrote |
| Colors.SameSlicesSameColour | generate_colors.py:6 | only the three slices decide the colour |
| Colors.StripOneHash | generate_colors.py:5 | a single leading `#` is removed |
| Colors.WrittenSlices | generate_colors.py:4-13 | the written colour's slices are the clamped components' hex pairs |
| Colors.RgbRoundTrip | generate_colors.py:4-13 | `hex_to_rgb(rgb_to_hex(c)) == c` for every colour with components in 0..255 |
| Colors.LowerHexDigit | generate_colors.py:9 | rewriting a hex digit's value gives its lower-case form |
| Colors.PairValue | generate_colors.py:6 | two hex digits are worth a byte |
| Colors.PairWritesBack | generate_colors.py:6-9 | a byte read from two hex digits is written back as those digits in lower case |
| Colors.PairComponent | generate_colors.py:6 | a slice of two hex digits reads as their byte |
| Colors.HexColourReads | generate_colors.py:4-6 | `#rrggbb` reads as its three bytes |
| Colors.HexColourWrites | generate_colors.py:8-13 | those bytes are written back as the lower-case colour |
| Colors.HexRoundTrip | generate_colors.py:4-13 | every six-hex-digit colour reads, and writes back as its lower-case form |
| Colors.ShortDigitsBound | generate_colors.py:6 | one hex digit is worth at most 15, two at most 255 |
| Colors.ShortParseRange | generate_colors.py:6 | a two-character slice parses to -15..255, and to 0..255 without a minus sign |
| Colors.SliceHasNoMinus | generate_colors.py:5-6 | a colour without `-` gives slices without `-` |
| Colors.HexToRgbRange | generate_colors.py:4-6 | components lie in -15..255, and in 0..255 when the colour has no `-` |
| Colors.HexToRgbIgnoresTail | generate_colors.py:6 | characters after the sixth are never read |
| Colors.SliceOfLonger | generate_colors.py:6 | a full slice is unaffected by what follows |
| Colors.StripHashAppend | generate_colors.py:5 | stripping commutes with appending after a non-`#` character |
| Colors.ShadesBelow | generate_colors.py:32-33 | the shade numbers below `n` include every multiple of 100 from 100 and none from `100 n` up |
| Colors.ShadesBelowStep | generate_colors.py:41 | one more step adds exactly the next shade number |
| Colors.PaletteShades | generate_colors.py:29-53 | the palette's keys are exactly 100, 200, ..., 900 |
| Colors.LighterShades | generate_colors.py:31-38 | the first loop fills 100..400, each with the written lighter colour of its step |
| Colors.AddDarkerShades | generate_colors.py:43-51 | the second loop adds 600..900, each with the written darker colour of its step, and keeps 100..500 |
| Colors.Palette | generate_colors.py:29-53 | keys 100..900; 500 is the base colour unchanged; each other shade is the written lighter or darker colour |
| Colors.HlsDividesByZero | generate_colors.py:15-18 | `rgb_to_hls` divides by zero exactly when the largest and smallest component sum to 0 and differ |
| Colors.Max3 | generate_colors.py:17 | the largest of three components is one of them and at least each |
| Colors.Min3 | generate_colors.py:17 | the smallest of three components is one of them and at most each |
| Colors.InRangeConverts | generate_colors.py:15-18 | a colour with components in 0..255 never makes the HSL conversion divide by zero |
| Colors.SignedSlices | generate_colors.py:6 | the slices of `-10100` read as -1, 1 and 0 |
| Colors.SignedBaseDividesByZero | generate_colors.py:4-18 | the base `#-10100` reads as (-1, 1, 0), on which the HSL conversion divides by zero |
| Colors.GenerateColorShades | generate_colors.py:25-53 | no palette exactly when the base colour does not read or its HSL conversion divides by zero; otherwise the full palette from the read colour |

## Left out

- HTTP transport, the base URL (`API_URL`), headers and the 10-second timeouts. The upstream is a deterministic function from request to outcome: the same request gets the same answer.
- Flask's session cookie persistence, and what happens to flashes and session writes when a handler ends in a 500.
- Concurrency between requests sharing one session.
- `render_template`, the templates, `pytz.all_timezones`, logging, and the CSS output and file writes of the colour script.
- The HSL arithmetic of `generate_color_shades` (`colorsys`, floating point, lines 15-23 and 34-37, 46-50). The lighter and darker colour of each step are parameters of the palette methods; only the condition under which `rgb_to_hls` raises `ZeroDivisionError` is modelled, exactly.
- Colors.RgbToHex: takes integer components; `int()` applied to floating-point components is not modelled.
- The `format_date` and `convert_timezone` filters, which are not part of this model.
- TimeFormat.Render: `%p` is written for the C locale only.
- TimeFormat.FormatTime: the optional `format` argument (app.py:139, app/__init__.py:36) is fixed to its default `'%I:%M %p'`; FormatTimeIdempotent holds for that default only.
- TimeFormat.IsDigit: ASCII digits only, where `strptime` also accepts other Unicode decimal digits.
- Gateway.Classify, Gateway.ApiRequest: the fabricated 500 body is the escaped one, not the f-string of app/helpers.py:50, so a message holding `"` or `\` decodes in the model where the source's `.json()` raises or reads a different object (app/main.py:77, iris/standup.py:76 and 154). See Findings.
- Gateway.Decode: a text body is read only as the one-key object `{"detail": <string>}`; any other text counts as undecodable.
- Text.Lower, PyInt.IsSpace, PyInt.IsDigit: ASCII only. Python's Unicode lower-casing, whitespace and digit classes are not modelled.
- JSON bodies are modelled as values, with `Decode` giving a value or nothing. Byte-level JSON syntax is modelled only for the gateway's `{"detail": ...}` bodies. Surrogate escapes are not modelled.
- The guards are not composed with the handlers they decorate. Handlers require a stored `token`, which the `login_required` decorator above them guarantees.
- Flashed notices are kept in each reply, apart from the session map. Flask stores them in the session, so `session.clear()` drops the ones flashed before it; only the dashboard clears after flashing, and it models that drop.
- app.py:21-124 repeats the gateway, refresh and guards of app/helpers.py, and its routes repeat the blueprint handlers. Only its `view_session` (lines 426-484, which uses `api_request` without refresh), its facilitator check and its `format_time` are modelled from it. The `view_session` of iris/standup.py differs only in using the refreshing gateway.
- iris/helpers.py and app/standup.py are not part of this model. The handlers of iris/standup.py are modelled as the `standup` blueprint that app/__init__.py:20-21 registers, and iris/helpers.py, which they import their gateway and guards from, is taken to behave as app/helpers.py. The `standup.*` endpoint names, the guard findings and the corrected `standup.dashboard` target rest on these two identifications.
- JSON numbers other than integers are not modelled, and `Json` equality is structural: Python's cross-type equalities (`1 == True`, `1 == 1.0`) are not reflected in the facilitator comparison (StandupData.MayCreateSession) or the response scan (StandupData.AnyHasUser).

## Findings

| source | as written | input that shows it | evidently intended | confidence | as-written member | corrected member |
|---|---|---|---|---|---|---|
| app/helpers.py:50 | the 500 body is built with an f-string, so the message is pasted into JSON unescaped | the method name `ge"t`: the body ends its string early and is no JSON text at all; in general a `"` makes the body something other than the one-key object `{"detail": <message>}` | the message escaped as a JSON string, so every synthetic body decodes | not executed; medium | DetailBody.QuoteBreaksAsWrittenBody, Gateway.AsWrittenUnsupportedBodyBreaks | DetailBody.EncodeRoundTrip, Gateway.Classify |
| iris/standup.py:24 | the 401 path redirects with `url_for("standup.login")`, which no blueprint registers | a dashboard fetch answered 401 after a failed refresh: the build error is caught, so the session is cleared and an empty dashboard is shown with only the load-error notice instead of the login page | `url_for("main.login")` | not executed; medium | StandupRoutes.ExpiredDashboardAsWritten | StandupRoutes.ExpiredDashboard |
| iris/standup.py:22-23 | the expiry notice is flashed before `session.clear()`, which also clears the pending notices | the same 401, even with the login endpoint corrected: the visitor reaches the login page with no notice | clear first, then flash, as `logout` does at app/main.py:85-86 | not executed; medium | StandupRoutes.ExpiredDashboardAsWritten | StandupRoutes.ExpiredDashboard |
| app/helpers.py:95 | `login_required` and `role_required` (lines 95, 106 and 110) redirect with `url_for("login")` and `url_for("dashboard")`, names the blueprint application of app/__init__.py:17-21 does not register | any refused visit, such as a developer opening an admin-only page: the build error becomes a server error instead of a redirect | `url_for("main.login")` and `url_for("standup.dashboard")` | not executed; medium | Guards.WrittenRefusalsRaise | Guards.DeveloperDeniedAdminPage |
| iris/standup.py:252 | `create_session` (lines 252 and 273) and `edit` (line 152) redirect with `url_for("standup.view_standup")`, but the view function is `view`, so that endpoint does not exist | `create_session` for any stand-up that loads and whose facilitator check can be decided: every path after the check raises a build error | `url_for("standup.view", ...)` | not executed; medium | StandupRoutes.CreateSessionRedirects | StandupRoutes.CreateSessionRedirects |
