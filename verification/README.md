# Powerwall gateway client: session and command rules

A Dafny model of `lib/tesla.js` from the MQTT–Tesla bridge. This client polls a local
Tesla Powerwall gateway over HTTPS. It keeps a login token, republishes the gateway's
telemetry as events, and sends mode and reserve-percent commands. A command that is rejected
with 401 is re-sent after a fresh login.

The model covers the decision rules around the two module-level variables, `authToken` and
`reservePercent`. The transport is abstract:

- A reply is a transport error plus an optional body with the fields the client reads.
- A login reply is the text that `JSON.parse` receives.
- Every handler returns the new session and a list of effects: a login POST, an operation
  POST with its bearer token, a GET with or without the `AuthCookie`, an emitted event, or a
  logged diagnostic.
- A request carries its continuation: the command it will retry, or the callback that will
  handle its reply. The 401 retry therefore runs as a chain of ordinary steps:
  rejected POST → login POST → login reply → sitemaster GET → its reply replays the command.

Files:

- `tesla.dfy` (module `Tesla`): the data model, the pure rules and one step function per
  handler (`SetModeStep`, `SetReserveStep`, `AuthenticateStep`, `LoginReplyStep`,
  `DoGetEffects`, `CommitEffects`, `PollStep`, `CommandReplyStep`, `GetReplyStep`, and `Step`,
  which dispatches to them). The properties of each handler are stated in its `ensures`.
- `bridge.dfy` (module `TeslaBridge`): class `Bridge`. Its fields `authToken` and
  `reservePercent` are updated in place, as the module variables are. Each method is proved
  to agree with its step function.
- `trace.dfy` (module `TeslaTrace`): `Run` applies the step functions one after another,
  the last write wins. Lemmas by induction state what holds of every run:
  - the session after a run matches an independent reference definition;
  - the device never receives the `reserve` alias, and `backup` always comes with 100;
  - a client with no token presents no credential;
  - there are never more commits than accepted command replies.

  The 401 retry chain is also proved end to end.

Notes on the code:

- The operation POST passes the token as the fourth argument of `request`'s `.auth(...)`,
  which is its bearer slot. The model records it as `bearer`.
- The login callback does not survive a reply without a parsable body: see Findings.

## Model

| member | source | states |
|---|---|---|
| `Tesla.PowerwallURL` | lib/tesla.js:56-58 | every URL is `https://`, then the gateway IP, then `/`, then the path, each at its fixed position, so the IP and the path can be read back from the URL |
| `Tesla.URLDeterminesPath` | lib/tesla.js:56-58 | two paths that give the same URL on one gateway are equal, so the commit, sitemaster, telemetry and operation endpoints never collide |
| `Tesla.NormaliseMode` | lib/tesla.js:177-179 | the result is never `reserve`; it is `backup` exactly when the request was `reserve` or `backup`; any other mode passes through unchanged |
| `Tesla.EffectiveError` | lib/tesla.js:67-70 | a body-level `error` replaces the transport error; the error is absent exactly when neither the transport nor the body reports one |
| `Tesla.ToNumber` | lib/tesla.js:163-166 | a present field yields its value, a missing field yields NaN |
| `Tesla.PowerOf` | lib/tesla.js:158-161 | a missing aggregate entry yields 0; a present entry yields its `instant_power` |
| `Tesla.SoeEvents` | lib/tesla.js:144-151 | at most one `soe-updated` event; there is one exactly when there is no error and the body is present, and it carries `Number(percentage)` |
| `Tesla.AggregateEvents` | lib/tesla.js:153-168 | nothing on error or with no body; otherwise exactly four events, in the order solar, grid, battery, load; they carry the `instant_power` of `solar`, `site` (for grid), `battery` and `load`, NaN where that field is missing, and 0 for each missing entry |
| `Tesla.LoginToken` | lib/tesla.js:101-106 | an error-free reply whose body is a JSON value other than `null` sets the token to its `token`, which may be absent; any other reply leaves the token as it was |
| `Tesla.LoginHandlingAsWritten` | lib/tesla.js:97-108 | as written, the login callback throws exactly when the body is missing or unparsable, or is `null` with no error (`null.token`); otherwise it ends with the value's `token` (no error) or the old token (error) |
| `Tesla.TransportErrorThrowsInLogin` | lib/tesla.js:97-98 | a transport error with no body makes the written login callback throw; the corrected rule keeps the old token |
| `Tesla.CorrectedLoginAgreesWhenParsed` | lib/tesla.js:98-106 | whenever the written callback does not throw, the corrected rule sets the same token |
| `Tesla.DoGetEffects` | lib/tesla.js:112-135 | an authenticated GET with no token sends nothing, drops the callback and logs the abort notice; with a token, one GET to the path's URL carrying the token cookie and the callback; an unauthenticated GET has no cookie |
| `Tesla.CommitEffects` | lib/tesla.js:137-142 | with a token, exactly one cookie GET of `api/config/completed` whose reply is only logged; with no token, no request |
| `Tesla.AuthenticateStep` | lib/tesla.js:81-96 | the session is unchanged; exactly one login POST to `api/login/Basic` with the configured email, the password, `force_sm_off` false and username `customer`; it carries the caller's callback |
| `Tesla.LoginReplyStep` | lib/tesla.js:97-108 | (corrected) with no error and a body that is a JSON value other than `null` the token becomes that value's `token`, otherwise it is unchanged; the reserve is untouched; then the sitemaster GET with the caller's callback follows, or, with no token, nothing is sent and the callback is dropped |
| `Tesla.SetModeStep` | lib/tesla.js:171-207 | the session never changes; with no token, only the diagnostic and no request; with a token, one operation POST with the token as bearer; `reserve` and `backup` post `backup`/`backup`/100 whatever the stored reserve; any other mode m posts m/m with the stored reserve; the retry captures the normalised mode |
| `Tesla.SetReserveStep` | lib/tesla.js:209-243 | with no token, the session is unchanged and only the diagnostic is produced; with a token, the reserve becomes p and one POST of `self_consumption`/`self_consumption`/p goes out with the token as bearer; the retry captures p |
| `Tesla.CommandStep` | lib/tesla.js:200-202 | replaying a captured command with no token yields only the diagnostic; with a token it sends one operation POST with the token as bearer that captures the same command again; a mode is posted with the backup→100 rule and the session is unchanged; a percent is stored again and posted as `self_consumption` |
| `Tesla.CommandReplyStep` | lib/tesla.js:196-205 | the session is unchanged; a body with `code` 401 starts a login whose callback retries the same command, with no commit; any other reply, a transport error or a missing body included, gives exactly one commit: the GET of `api/config/completed` with the token as cookie, whose reply goes only to the logger, when a token is held, and no request when none is |
| `Tesla.PollStep` | lib/tesla.js:143-169 | with no token, no request and two abort diagnostics, one per query; with a token, the state-of-energy GET and then the aggregates GET, both carrying the token cookie, each with its own handler |
| `Tesla.GetReplyStep` | lib/tesla.js:60-79 | a missing callback or the commit logger does nothing; the telemetry handlers never touch the session and emit nothing when the body carries `error`, whatever the transport error, nor on a transport error or with no body; otherwise state-of-energy emits `Number(percentage)`, and aggregates emits the four powers in order, `site` for grid; a retry ignores the reply and replays its command through `CommandStep` on the current session, so the same guard, URL, payload rule, reserve update and capture apply; with no token it only logs |
| `TeslaBridge.Bridge.constructor` | lib/tesla.js:54 | a new client has no token, and its reserve is 20 (line 11) |
| `TeslaBridge.Bridge.DoGet` | lib/tesla.js:112-135 | the effects are those of `DoGetEffects` for the current token |
| `TeslaBridge.Bridge.DoCommit` | lib/tesla.js:137-142 | the effects are those of `CommitEffects` for the current token |
| `TeslaBridge.Bridge.DoQuery` | lib/tesla.js:143-169 | the effects are those of `PollStep` for the current fields |
| `TeslaBridge.Bridge.Authenticate` | lib/tesla.js:81-96 | the effects are those of `AuthenticateStep` |
| `TeslaBridge.Bridge.OnLoginReply` | lib/tesla.js:97-108 | the new fields and the effects are those of `LoginReplyStep` on the old fields |
| `TeslaBridge.Bridge.SetMode` | lib/tesla.js:171-207 | the effects are those of `SetModeStep` for the current fields, which are not changed |
| `TeslaBridge.Bridge.SetReservePercent` | lib/tesla.js:209-243 | the new fields and the effects are those of `SetReserveStep` on the old fields |
| `TeslaBridge.Bridge.OnCommandReply` | lib/tesla.js:196-205 | the effects are those of `CommandReplyStep` for the current fields |
| `TeslaBridge.Bridge.OnGetReply` | lib/tesla.js:60-79 | the new fields and the effects are those of `GetReplyStep` on the old fields |
| `TeslaTrace.StepSession` | lib/tesla.js:102 | one step changes the token only through an error-free parsed login reply, and the reserve only through an authenticated `setReservePercent` (line 215) |
| `TeslaTrace.RunSession` | lib/tesla.js:101-102 | after any run, the token is the one from the last error-free parsed login reply, and the reserve is the percent of the last `setReservePercent` (direct or retried) made while a token was held (line 215); the last writer wins |
| `TeslaTrace.StoredReserveWithoutRequests` | lib/tesla.js:215 | with no reserve request, the reference reserve is the initial one |
| `TeslaTrace.ReserveDefaultsTo20` | lib/tesla.js:11 | from the initial state, with no reserve request, the stored reserve is 20 after any run |
| `TeslaTrace.StepOperationsWellFormed` | lib/tesla.js:181-185 | every operation POST of one step mirrors its mode, is never `reserve`, posts `backup` only with 100, and carries a token |
| `TeslaTrace.RunOperationsWellFormed` | lib/tesla.js:177-185 | the same holds of every operation POST in every run |
| `TeslaTrace.StepWhileLoggedOut` | lib/tesla.js:120-123 | with no token, a step that is not a token-granting login reply leaves the session unchanged and presents no credential |
| `TeslaTrace.LoggedOutRunKeepsSession` | lib/tesla.js:172-175 | a client with no token that gets no token-granting login reply stays logged out and keeps its reserve (lines 210-215) |
| `TeslaTrace.LoggedOutRunSendsNothingAuthenticated` | lib/tesla.js:172-175 | such a client never sends a cookie GET or an operation POST |
| `TeslaTrace.NoGetNoCommit` | lib/tesla.js:137-142 | effects without a GET contain no commit |
| `TeslaTrace.OtherPathIsNoCommit` | lib/tesla.js:139 | a GET of any path other than `api/config/completed` is not a commit |
| `TeslaTrace.StepCommits` | lib/tesla.js:199-205 | a step commits exactly once when it is a non-401 command reply and a token is held, and never otherwise |
| `TeslaTrace.RunCommits` | lib/tesla.js:235-241 | in any run, there are at most as many commits as non-401 command replies |
| `TeslaTrace.ReserveThenBackupStillForces100` | lib/tesla.js:181-185 | `setReservePercent(35)` then `setMode("backup")` stores 35 and still posts `backup_reserve_percent` 100 |
| `TeslaTrace.UnauthorizedCommandIsRetried` | lib/tesla.js:199-202 | for either command, a 401 leads to a login POST carrying the retry; a granted token leads to the sitemaster GET carrying it; whatever that GET's reply, the same payload is re-sent with the new token; nothing commits along the way |

## Left out

- Startup checks of `CONTROLLER_IP`, `TESLA_USERNAME` and `TESLA_PASSWORD` and `process.abort` (lib/tesla.js:13-26): process bootstrap. The model takes the three values as a `Config`.
- The timers of `startPolling` (lib/tesla.js:32-46): the 5 s poll, the 30 min re-login and the initial login after 10 s. These are scheduling. Their effects are the `Poll` and `Authenticate(NoCallback)` inputs, which may arrive in any order in a `Run`.
- HTTP and TLS mechanics, the cookie jar, the internals of `request`'s `.auth(...)`, the `NODE_TLS_REJECT_UNAUTHORIZED` setting and all logging other than the two guard diagnostics: foreign library calls and I/O. They appear only as abstract effects.
- Whether the transport delivers command replies parsed: the operation POSTs are sent without `json: true`, so with the real `request` library the body would be text. Text has no `code` field. The model assumes a parsed body, as the 401 branch presumes.
- `JSON.parse`, `JSON.stringify` and `Number(...)` on strings: host-specific and floating point. Percentages and powers are integers. A missing telemetry field is NaN, and the model does not tell a `null` field apart from an `undefined` one.
- `EventEmitter` delivery, and races between overlapping logins and polls: concurrency. Handlers run one at a time and the last write wins. Replies may be delivered to any continuation, in any order.
- Unbounded 401 recursion: each retry is one step of a chain. Nothing is claimed about termination under a gateway that keeps answering 401.
- `Tesla.LoginReplyStep`: models the corrected login callback, not the written one. The written one throws on a missing or unparsable body, and on a `null` body with no error; `Tesla.LoginHandlingAsWritten` covers that.

## Findings

| source | as written | input that shows it | evidently intended | confidence | as-written member | corrected member |
|---|---|---|---|---|---|---|
| lib/tesla.js:97-108 | the login callback calls `JSON.parse(body)` before it checks `err`; when the body is missing or is not JSON (or is `null` with no error, at line 102), this throws out of the callback, so the token is not updated, the sitemaster GET is not sent, and the caller's callback (for example a pending 401 retry) is lost | a login reply with transport error `ECONNREFUSED` and no body | log the failure, keep the old token, and still send the sitemaster GET with the caller's callback | medium, not executed | `Tesla.TransportErrorThrowsInLogin` | `Tesla.LoginReplyStep` |
