/**
 * The decision rules of the Powerwall gateway client (lib/tesla.js), stated over an
 * abstract transport.  Every handler of the client is a function from the current
 * session (the module-level `authToken` and `reservePercent`) and its input to the new
 * session and the list of effects it causes: the requests it sends, the events it
 * emits and the diagnostics it logs.  A request carries the continuation that will
 * handle its reply, so a whole 401 retry is a chain of steps and never a recursion.
 */
module Tesla {

  datatype Option<T> = None | Some(value: T)

  type Token = string

  /** The three environment values read at startup (lib/tesla.js:7-9). */
  datatype Config = Config(gatewayIP: string, username: string, password: string)

  /** The module-level mutable state: `authToken` and `reservePercent`. */
  datatype Session = Session(token: Option<Token>, reserve: int)

  const DEFAULT_RESERVE_PERCENT := 20
  const INITIAL_SESSION := Session(None, DEFAULT_RESERVE_PERCENT)

  const LOGIN_PATH := "api/login/Basic"
  const SITEMASTER_PATH := "api/sitemaster/run"
  const COMMIT_PATH := "api/config/completed"
  const SOE_PATH := "api/system_status/soe"
  const AGGREGATES_PATH := "api/meters/aggregates"
  const OPERATION_PATH := "api/operation"

  const NOT_AUTHENTICATED := "cannot set mode, not authenticated"
  const ABORTING_POLL := "Not yet authenticated. Aborting poll for url: "

  const URL_SCHEME := "https://"

  // ---------------------------------------------------------------------------
  // The abstract transport: replies as the callbacks of the client receive them.

  /** A JavaScript number as `Number(...)` produces it: a value, or NaN for `undefined`. */
  datatype Number = Finite(value: int) | NaN

  /** One entry of the aggregates reply; `instant_power` may be missing. */
  datatype Meter = Meter(instantPower: Option<int>)

  /** A JSON reply body, with the fields the client looks at (all optional). */
  datatype Body = Body(
    error: Option<string>,
    code: Option<int>,
    percentage: Option<int>,
    solar: Option<Meter>,
    site: Option<Meter>,
    battery: Option<Meter>,
    load: Option<Meter>)

  /** What a GET or operation POST callback receives: the transport error and the body. */
  datatype Reply = Reply(err: Option<string>, body: Option<Body>)

  /**
   * The text of the login reply as `JSON.parse` sees it: no body at all (`undefined`),
   * text that does not parse, text that parses to `null`, or any other JSON value.
   * For the last, `token` is the value's `token` field, None unless the value is an
   * object that has one (`(42).token` is `undefined` too).
   */
  datatype LoginBody = NoBody | Unparsable | Null | Json(token: Option<Token>)

  datatype LoginReply = LoginReply(err: Option<string>, body: LoginBody)

  // ---------------------------------------------------------------------------
  // Requests, continuations and effects.

  /** The login form, serialised to JSON by the client. */
  datatype LoginForm = LoginForm(forceSmOff: bool, email: string, password: string, username: string)

  /** The body of a POST to `api/operation`. */
  datatype Operation = Operation(mode: string, realMode: string, backupReservePercent: int)

  /** A command as its retry closure captured it (the mode is already normalised). */
  datatype Command = ModeCommand(mode: string) | ReserveCommand(percent: int)

  /** The callback a GET (or a login) hands its reply to. */
  datatype Callback =
    | NoCallback
    | RetryCommand(command: Command)
    | CommitLogger
    | SoeHandler
    | AggregatesHandler

  datatype Event =
    | SoeUpdated(percent: Number)
    | SolarUpdated(solarWatts: Number)
    | GridUpdated(gridWatts: Number)
    | BatteryUpdated(batteryWatts: Number)
    | LoadUpdated(loadWatts: Number)

  datatype Effect =
      /** POST to the login endpoint; its reply goes to the login handler with `callback`. */
    | PostLogin(url: string, form: LoginForm, callback: Callback)
      /** POST to the operation endpoint with the token as bearer credential. */
    | PostOperation(url: string, payload: Operation, bearer: Option<Token>, command: Command)
      /** GET with the `AuthCookie` set to `cookie` (None: sent without the cookie jar). */
    | Get(url: string, cookie: Option<Token>, callback: Callback)
    | Emit(event: Event)
    | Notice(message: string)

  datatype Outcome = Outcome(session: Session, effects: seq<Effect>)

  /** What can happen to the client: a call of one of its entry points, or a reply. */
  datatype Input =
    | SetMode(batteryMode: string)
    | SetReservePercent(percent: int)
    | Authenticate(callback: Callback)
    | Poll
    | CommandReplied(command: Command, reply: Reply)
    | LoginReplied(callback: Callback, loginReply: LoginReply)
    | GetReplied(callback: Callback, getReply: Reply)

  predicate IsRequest(e: Effect) {
    e.PostLogin? || e.PostOperation? || e.Get?
  }

  /** A request that presents the session token, as cookie or as bearer. */
  predicate IsAuthenticatedRequest(e: Effect) {
    e.PostOperation? || (e.Get? && e.cookie.Some?)
  }

  predicate NoRequest(effects: seq<Effect>) {
    forall i | 0 <= i < |effects| :: !IsRequest(effects[i])
  }

  predicate IsCommit(c: Config, e: Effect) {
    e.Get? && e.url == PowerwallURL(c.gatewayIP, COMMIT_PATH)
  }

  /** The number of commit GETs among `effects`. */
  function CommitCount(c: Config, effects: seq<Effect>): nat {
    if effects == [] then 0
    else (if IsCommit(c, effects[0]) then 1 else 0) + CommitCount(c, effects[1..])
  }

  // ---------------------------------------------------------------------------
  // Pure rules.

  /** `'https://' + gatewayIP + '/' + path`. */
  function PowerwallURL(gatewayIP: string, path: string): (url: string)
    ensures |url| == |URL_SCHEME| + |gatewayIP| + 1 + |path|
    ensures url[..|URL_SCHEME|] == URL_SCHEME
    ensures url[|URL_SCHEME|..|URL_SCHEME| + |gatewayIP|] == gatewayIP
    ensures url[|URL_SCHEME| + |gatewayIP|] == '/'
    ensures url[|URL_SCHEME| + |gatewayIP| + 1..] == path
  {
    URL_SCHEME + gatewayIP + "/" + path
  }

  /** Different paths on one gateway give different URLs. */
  lemma URLDeterminesPath(gatewayIP: string, p: string, q: string)
    requires PowerwallURL(gatewayIP, p) == PowerwallURL(gatewayIP, q)
    ensures p == q
  {
    var k := |URL_SCHEME| + |gatewayIP| + 1;
    assert p == PowerwallURL(gatewayIP, p)[k..];
    assert q == PowerwallURL(gatewayIP, q)[k..];
  }

  /** The external alias `reserve` is the device's `backup` mode. */
  function NormaliseMode(batteryMode: string): (mode: string)
    ensures mode != "reserve"
    ensures mode == "backup" <==> (batteryMode == "reserve" || batteryMode == "backup")
    ensures batteryMode != "reserve" ==> mode == batteryMode
  {
    if batteryMode == "reserve" then "backup" else batteryMode
  }

  /** The payload of `setMode` for an already normalised mode. */
  function ModePayload(mode: string, reserve: int): (op: Operation)
    ensures op.mode == mode && op.realMode == mode
    ensures op.backupReservePercent == (if mode == "backup" then 100 else reserve)
  {
    Operation(mode, mode, if mode == "backup" then 100 else reserve)
  }

  /** A payload the device may receive: mirrored mode, never the alias, backup at 100. */
  predicate WellFormedOperation(op: Operation) {
    op.mode == op.realMode && op.mode != "reserve" && (op.mode == "backup" ==> op.backupReservePercent == 100)
  }

  /** `handleGETRequest`: an `error` field of the body replaces the transport error. */
  function EffectiveError(reply: Reply): (err: Option<string>)
    ensures err.None? <==> reply.err.None? && (reply.body.None? || reply.body.value.error.None?)
    ensures reply.body.Some? && reply.body.value.error.Some? ==> err == reply.body.value.error
  {
    if reply.body.Some? && reply.body.value.error.Some? then reply.body.value.error else reply.err
  }

  /** `Number(x)` of a field that may be `undefined`. */
  function ToNumber(v: Option<int>): (n: Number)
    ensures n.Finite? <==> v.Some?
    ensures v.Some? ==> n.value == v.value
  {
    match v
    case Some(x) => Finite(x)
    case None => NaN
  }

  /** The `instant_power` of an aggregate entry; a missing entry counts as 0. */
  function PowerOf(meter: Option<Meter>): (n: Number)
    ensures meter.None? ==> n == Finite(0)
    ensures meter.Some? ==> n == ToNumber(meter.value.instantPower)
  {
    match meter
    case None => Finite(0)
    case Some(m) => ToNumber(m.instantPower)
  }

  /** The state-of-energy callback: one event on success with a body, none otherwise. */
  function SoeEvents(err: Option<string>, body: Option<Body>): (events: seq<Event>)
    ensures |events| <= 1
    ensures events != [] <==> err.None? && body.Some?
    ensures events != [] ==> events[0] == SoeUpdated(ToNumber(body.value.percentage))
  {
    if err.None? && body.Some? then [SoeUpdated(ToNumber(body.value.percentage))] else []
  }

  /** The aggregates callback: solar, grid, battery, load, in that order, or nothing. */
  function AggregateEvents(err: Option<string>, body: Option<Body>): (events: seq<Event>)
    ensures events != [] <==> err.None? && body.Some?
    ensures events != [] ==>
      (|events| == 4 && events[0].SolarUpdated? && events[1].GridUpdated?
       && events[2].BatteryUpdated? && events[3].LoadUpdated?)
    ensures events != [] && body.value.solar.None? ==> events[0] == SolarUpdated(Finite(0))
    ensures events != [] && body.value.site.None? ==> events[1] == GridUpdated(Finite(0))
    ensures events != [] && body.value.battery.None? ==> events[2] == BatteryUpdated(Finite(0))
    ensures events != [] && body.value.load.None? ==> events[3] == LoadUpdated(Finite(0))
    ensures events != [] && body.value.solar.Some? ==>
      events[0] == SolarUpdated(ToNumber(body.value.solar.value.instantPower))
    ensures events != [] && body.value.site.Some? ==>
      events[1] == GridUpdated(ToNumber(body.value.site.value.instantPower))
    ensures events != [] && body.value.battery.Some? ==>
      events[2] == BatteryUpdated(ToNumber(body.value.battery.value.instantPower))
    ensures events != [] && body.value.load.Some? ==>
      events[3] == LoadUpdated(ToNumber(body.value.load.value.instantPower))
  {
    if err.None? && body.Some? then
      var b := body.value;
      [SolarUpdated(PowerOf(b.solar)), GridUpdated(PowerOf(b.site)),
       BatteryUpdated(PowerOf(b.battery)), LoadUpdated(PowerOf(b.load))]
    else []
  }

  function EmitAll(events: seq<Event>): (effects: seq<Effect>)
    ensures |effects| == |events|
    ensures forall i | 0 <= i < |events| :: effects[i] == Emit(events[i])
  {
    if events == [] then [] else [Emit(events[0])] + EmitAll(events[1..])
  }

  /** A reply that tells the command handler the token was rejected. */
  predicate IsUnauthorized(reply: Reply) {
    reply.body.Some? && reply.body.value.code == Some(401)
  }

  /** The token after a login reply (corrected: a body that is not a JSON value keeps the token). */
  function LoginToken(current: Option<Token>, reply: LoginReply): (token: Option<Token>)
    ensures reply.err.None? && reply.body.Json? ==> token == reply.body.token
    ensures reply.err.Some? || !reply.body.Json? ==> token == current
  {
    if reply.err.None? && reply.body.Json? then reply.body.token else current
  }

  /** A login reply that leaves the client holding a token, whatever it held before. */
  predicate GrantsToken(x: Input) {
    x.LoginReplied? && x.loginReply.err.None? && x.loginReply.body.Json? && x.loginReply.body.token.Some?
  }

  // ---------------------------------------------------------------------------
  // The login handler as the source writes it.

  /** What the login callback does: throw out of the callback, or finish with a token. */
  datatype LoginHandling = Throws | Completes(token: Option<Token>)

  /**
   * The login callback as written: `JSON.parse(body)` runs before the error check, so a
   * missing or unparsable body throws, and so does reading `token` of `null` when there
   * is no error.  Then neither the token update nor the sitemaster GET (which carries
   * the caller's callback) happens.
   */
  function LoginHandlingAsWritten(current: Option<Token>, reply: LoginReply): (h: LoginHandling)
    ensures h.Throws? <==> reply.body.NoBody? || reply.body.Unparsable? || (reply.body.Null? && reply.err.None?)
    ensures reply.body.Json? && reply.err.None? ==> h == Completes(reply.body.token)
    ensures !h.Throws? && reply.err.Some? ==> h == Completes(current)
  {
    match reply.body
    case NoBody => Throws
    case Unparsable => Throws
    case Null => if reply.err.None? then Throws else Completes(current)
    case Json(token) => if reply.err.None? then Completes(token) else Completes(current)
  }

  /** A transport error (no body) makes the login callback throw. */
  lemma TransportErrorThrowsInLogin(current: Option<Token>)
    ensures LoginHandlingAsWritten(current, LoginReply(Some("ECONNREFUSED"), NoBody)) == Throws
    ensures LoginToken(current, LoginReply(Some("ECONNREFUSED"), NoBody)) == current
  {
  }

  /** Wherever the written callback does not throw, the corrected one sets the same token. */
  lemma CorrectedLoginAgreesWhenParsed(current: Option<Token>, reply: LoginReply)
    requires !LoginHandlingAsWritten(current, reply).Throws?
    ensures LoginHandlingAsWritten(current, reply) == Completes(LoginToken(current, reply))
  {
  }

  // ---------------------------------------------------------------------------
  // One step per handler.

  /** `doGet`: with `authenticate` and no token nothing is sent and the callback is dropped. */
  function DoGetEffects(c: Config, token: Option<Token>, authenticate: bool, path: string, callback: Callback): (effects: seq<Effect>)
    ensures |effects| == 1
    ensures effects[0].Get? <==> !authenticate || token.Some?
    ensures effects[0].Get? ==> effects[0].url == PowerwallURL(c.gatewayIP, path) && effects[0].callback == callback
    ensures effects[0].Get? ==> effects[0].cookie == (if authenticate then token else None)
    ensures !effects[0].Get? ==> effects[0] == Notice(ABORTING_POLL + path)
  {
    if authenticate then
      if token.None? then [Notice(ABORTING_POLL + path)]
      else [Get(PowerwallURL(c.gatewayIP, path), token, callback)]
    else [Get(PowerwallURL(c.gatewayIP, path), None, callback)]
  }

  /** `doCommit`: an authenticated GET of the commit endpoint whose reply is only logged. */
  function CommitEffects(c: Config, token: Option<Token>): (effects: seq<Effect>)
    ensures token.Some? ==> effects == [Get(PowerwallURL(c.gatewayIP, COMMIT_PATH), token, CommitLogger)]
    ensures token.None? ==> NoRequest(effects)
  {
    DoGetEffects(c, token, true, COMMIT_PATH, CommitLogger)
  }

  /** `authenticate(callback)`: one unauthenticated POST of the login form. */
  function AuthenticateStep(c: Config, s: Session, callback: Callback): (r: Outcome)
    ensures r.session == s
    ensures |r.effects| == 1 && r.effects[0].PostLogin?
    ensures r.effects[0].url == PowerwallURL(c.gatewayIP, LOGIN_PATH)
    ensures r.effects[0].form == LoginForm(false, c.username, c.password, "customer")
    ensures r.effects[0].callback == callback
  {
    Outcome(s, [PostLogin(PowerwallURL(c.gatewayIP, LOGIN_PATH), LoginForm(false, c.username, c.password, "customer"), callback)])
  }

  /** The login callback (corrected): update the token, then the sitemaster GET with `callback`. */
  function LoginReplyStep(c: Config, s: Session, callback: Callback, reply: LoginReply): (r: Outcome)
    ensures reply.err.None? && reply.body.Json? ==> r.session.token == reply.body.token
    ensures reply.err.Some? || !reply.body.Json? ==> r.session.token == s.token
    ensures r.session.reserve == s.reserve
    ensures r.session.token.Some? ==>
      r.effects == [Get(PowerwallURL(c.gatewayIP, SITEMASTER_PATH), r.session.token, callback)]
    ensures r.session.token.None? ==> NoRequest(r.effects)
  {
    var session := s.(token := LoginToken(s.token, reply));
    Outcome(session, DoGetEffects(c, session.token, true, SITEMASTER_PATH, callback))
  }

  /** `setMode(batteryMode)`. */
  function SetModeStep(c: Config, s: Session, batteryMode: string): (r: Outcome)
    ensures r.session == s
    ensures s.token.None? ==> r.effects == [Notice(NOT_AUTHENTICATED)]
    ensures s.token.Some? ==>
      (|r.effects| == 1 && r.effects[0].PostOperation?
       && r.effects[0].url == PowerwallURL(c.gatewayIP, OPERATION_PATH)
       && r.effects[0].bearer == s.token
       && r.effects[0].command == ModeCommand(r.effects[0].payload.mode))
    ensures s.token.Some? && (batteryMode == "reserve" || batteryMode == "backup") ==>
      r.effects[0].payload == Operation("backup", "backup", 100)
    ensures s.token.Some? && batteryMode != "reserve" && batteryMode != "backup" ==>
      r.effects[0].payload == Operation(batteryMode, batteryMode, s.reserve)
  {
    if s.token.None? then Outcome(s, [Notice(NOT_AUTHENTICATED)])
    else
      var mode := NormaliseMode(batteryMode);
      Outcome(s, [PostOperation(PowerwallURL(c.gatewayIP, OPERATION_PATH), ModePayload(mode, s.reserve), s.token, ModeCommand(mode))])
  }

  /** `setReservePercent(percent)`: the guard returns before the reserve is stored. */
  function SetReserveStep(c: Config, s: Session, percent: int): (r: Outcome)
    ensures s.token.None? ==> r == Outcome(s, [Notice(NOT_AUTHENTICATED)])
    ensures s.token.Some? ==> r.session == Session(s.token, percent)
    ensures s.token.Some? ==>
      (|r.effects| == 1 && r.effects[0].PostOperation?
       && r.effects[0].url == PowerwallURL(c.gatewayIP, OPERATION_PATH)
       && r.effects[0].payload == Operation("self_consumption", "self_consumption", percent)
       && r.effects[0].bearer == s.token
       && r.effects[0].command == ReserveCommand(percent))
  {
    if s.token.None? then Outcome(s, [Notice(NOT_AUTHENTICATED)])
    else
      Outcome(s.(reserve := percent),
              [PostOperation(PowerwallURL(c.gatewayIP, OPERATION_PATH),
                             Operation("self_consumption", "self_consumption", percent), s.token, ReserveCommand(percent))])
  }

  /** A command as its retry closure captures it: a mode is never the `reserve` alias. */
  predicate IsNormalised(command: Command) {
    command.ModeCommand? ==> command.mode != "reserve"
  }

  /**
   * Running a captured command again, as its retry closure does: a replay sends the
   * same command with the same payload rule, and captures that command again.
   */
  function CommandStep(c: Config, s: Session, command: Command): (r: Outcome)
    ensures s.token.None? ==> r == Outcome(s, [Notice(NOT_AUTHENTICATED)])
    ensures s.token.Some? && IsNormalised(command) ==>
      (|r.effects| == 1 && r.effects[0].PostOperation?
       && r.effects[0].url == PowerwallURL(c.gatewayIP, OPERATION_PATH)
       && r.effects[0].bearer == s.token
       && r.effects[0].command == command)
    ensures s.token.Some? && command.ModeCommand? && IsNormalised(command) ==>
      r.session == s && r.effects[0].payload == ModePayload(command.mode, s.reserve)
    ensures s.token.Some? && command.ReserveCommand? ==>
      r.session == s.(reserve := command.percent)
      && r.effects[0].payload == Operation("self_consumption", "self_consumption", command.percent)
  {
    match command
    case ModeCommand(mode) => SetModeStep(c, s, mode)
    case ReserveCommand(percent) => SetReserveStep(c, s, percent)
  }

  /** The operation POST callback: re-authenticate and retry on 401, commit otherwise. */
  function CommandReplyStep(c: Config, s: Session, command: Command, reply: Reply): (r: Outcome)
    ensures r.session == s
    ensures IsUnauthorized(reply) ==> r.effects == AuthenticateStep(c, s, RetryCommand(command)).effects
    ensures IsUnauthorized(reply) ==> CommitCount(c, r.effects) == 0
    ensures !IsUnauthorized(reply) && s.token.Some? ==> |r.effects| == 1 && CommitCount(c, r.effects) == 1
    ensures !IsUnauthorized(reply) && s.token.Some? ==>
      r.effects == [Get(PowerwallURL(c.gatewayIP, COMMIT_PATH), s.token, CommitLogger)]
    ensures !IsUnauthorized(reply) && s.token.None? ==> NoRequest(r.effects)
  {
    if IsUnauthorized(reply) then AuthenticateStep(c, s, RetryCommand(command))
    else Outcome(s, CommitEffects(c, s.token))
  }

  /** `doQuery`: the state-of-energy and aggregates GETs, each behind the token guard. */
  function PollStep(c: Config, s: Session): (r: Outcome)
    ensures r.session == s
    ensures s.token.None? ==> NoRequest(r.effects)
    ensures s.token.None? ==> r.effects == [Notice(ABORTING_POLL + SOE_PATH), Notice(ABORTING_POLL + AGGREGATES_PATH)]
    ensures s.token.Some? ==>
      r.effects == [Get(PowerwallURL(c.gatewayIP, SOE_PATH), s.token, SoeHandler),
                    Get(PowerwallURL(c.gatewayIP, AGGREGATES_PATH), s.token, AggregatesHandler)]
  {
    Outcome(s, DoGetEffects(c, s.token, true, SOE_PATH, SoeHandler)
               + DoGetEffects(c, s.token, true, AGGREGATES_PATH, AggregatesHandler))
  }

  /** A GET reply, through `handleGETRequest`, to its callback. */
  function GetReplyStep(c: Config, s: Session, callback: Callback, reply: Reply): (r: Outcome)
    ensures callback.NoCallback? || callback.CommitLogger? ==> r == Outcome(s, [])
    ensures callback.SoeHandler? || callback.AggregatesHandler? ==> r.session == s
    ensures callback.SoeHandler? || callback.AggregatesHandler? ==>
      (reply.err.Some? || reply.body.None? || reply.body.value.error.Some? ==> r.effects == [])
    ensures callback.SoeHandler? && reply.err.None? && reply.body.Some? && reply.body.value.error.None? ==>
      r.effects == [Emit(SoeUpdated(ToNumber(reply.body.value.percentage)))]
    ensures callback.AggregatesHandler? && reply.err.None? && reply.body.Some? && reply.body.value.error.None? ==>
      r.effects == [Emit(SolarUpdated(PowerOf(reply.body.value.solar))), Emit(GridUpdated(PowerOf(reply.body.value.site))),
                    Emit(BatteryUpdated(PowerOf(reply.body.value.battery))), Emit(LoadUpdated(PowerOf(reply.body.value.load)))]
    ensures callback.RetryCommand? && s.token.None? ==> r == Outcome(s, [Notice(NOT_AUTHENTICATED)])
    ensures callback.RetryCommand? && s.token.Some? && IsNormalised(callback.command) ==>
      |r.effects| == 1 && r.effects[0].PostOperation? && r.effects[0].bearer == s.token
      && r.effects[0].command == callback.command
    ensures callback.RetryCommand? ==> r == CommandStep(c, s, callback.command)
  {
    var err := EffectiveError(reply);
    match callback
    case NoCallback => Outcome(s, [])
    case CommitLogger => Outcome(s, [])
    case SoeHandler => Outcome(s, EmitAll(SoeEvents(err, reply.body)))
    case AggregatesHandler => Outcome(s, EmitAll(AggregateEvents(err, reply.body)))
    case RetryCommand(command) => CommandStep(c, s, command)
  }

  function Step(c: Config, s: Session, x: Input): (r: Outcome)
  {
    match x
    case SetMode(batteryMode) => SetModeStep(c, s, batteryMode)
    case SetReservePercent(percent) => SetReserveStep(c, s, percent)
    case Authenticate(callback) => AuthenticateStep(c, s, callback)
    case Poll => PollStep(c, s)
    case CommandReplied(command, reply) => CommandReplyStep(c, s, command, reply)
    case LoginReplied(callback, reply) => LoginReplyStep(c, s, callback, reply)
    case GetReplied(callback, reply) => GetReplyStep(c, s, callback, reply)
  }
}
