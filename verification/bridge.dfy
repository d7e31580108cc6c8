/**
 * The client object of lib/tesla.js: the two module-level variables `authToken` and
 * `reservePercent` as mutable fields, and one method per handler.  Each method does its
 * work step by step on the fields and is proved to agree with the handler's step
 * function in module Tesla, where the properties of the handlers are stated.
 */
module TeslaBridge {
  import opened Tesla

  class Bridge {
    const config: Config
    var authToken: Option<Token>
    var reservePercent: int

    /** The session the fields hold. */
    function Snapshot(): Session
      reads this
    {
      Session(authToken, reservePercent)
    }

    /** Module load: no token yet, the reserve at its default of 20. */
    constructor (config: Config)
      ensures this.config == config
      ensures Snapshot() == INITIAL_SESSION
    {
      this.config := config;
      authToken := None;
      reservePercent := DEFAULT_RESERVE_PERCENT;
    }

    method DoGet(authenticate: bool, path: string, callback: Callback) returns (effects: seq<Effect>)
      ensures effects == DoGetEffects(config, authToken, authenticate, path, callback)
    {
      var url := PowerwallURL(config.gatewayIP, path);
      if authenticate {
        if authToken.None? {
          effects := [Notice(ABORTING_POLL + path)];
        } else {
          effects := [Get(url, authToken, callback)];
        }
      } else {
        effects := [Get(url, None, callback)];
      }
    }

    method DoCommit() returns (effects: seq<Effect>)
      ensures effects == CommitEffects(config, authToken)
    {
      effects := DoGet(true, COMMIT_PATH, CommitLogger);
    }

    method DoQuery() returns (effects: seq<Effect>)
      ensures effects == PollStep(config, Snapshot()).effects
    {
      var soe := DoGet(true, SOE_PATH, SoeHandler);
      var aggregates := DoGet(true, AGGREGATES_PATH, AggregatesHandler);
      effects := soe + aggregates;
    }

    method Authenticate(callback: Callback) returns (effects: seq<Effect>)
      ensures effects == AuthenticateStep(config, Snapshot(), callback).effects
    {
      var form := LoginForm(false, config.username, config.password, "customer");
      effects := [PostLogin(PowerwallURL(config.gatewayIP, LOGIN_PATH), form, callback)];
    }

    /** The login callback: store the token on success, then the sitemaster GET. */
    method OnLoginReply(callback: Callback, reply: LoginReply) returns (effects: seq<Effect>)
      modifies this
      ensures Outcome(Snapshot(), effects) == LoginReplyStep(config, old(Snapshot()), callback, reply)
    {
      if reply.err.None? && reply.body.Json? {
        authToken := reply.body.token;
      }
      effects := DoGet(true, SITEMASTER_PATH, callback);
    }

    method SetMode(batteryMode: string) returns (effects: seq<Effect>)
      ensures effects == SetModeStep(config, Snapshot(), batteryMode).effects
    {
      if authToken.None? {
        effects := [Notice(NOT_AUTHENTICATED)];
        return;
      }
      var mode := batteryMode;
      if mode == "reserve" {
        mode := "backup";
      }
      var payload := Operation(mode, mode, if mode == "backup" then 100 else reservePercent);
      effects := [PostOperation(PowerwallURL(config.gatewayIP, OPERATION_PATH), payload, authToken, ModeCommand(mode))];
    }

    method SetReservePercent(percent: int) returns (effects: seq<Effect>)
      modifies this
      ensures Outcome(Snapshot(), effects) == SetReserveStep(config, old(Snapshot()), percent)
    {
      if authToken.None? {
        effects := [Notice(NOT_AUTHENTICATED)];
        return;
      }
      reservePercent := percent;
      var payload := Operation("self_consumption", "self_consumption", percent);
      effects := [PostOperation(PowerwallURL(config.gatewayIP, OPERATION_PATH), payload, authToken, ReserveCommand(percent))];
    }

    /** The callback of an operation POST. */
    method OnCommandReply(command: Command, reply: Reply) returns (effects: seq<Effect>)
      ensures effects == CommandReplyStep(config, Snapshot(), command, reply).effects
    {
      if reply.body.Some? && reply.body.value.code == Some(401) {
        effects := Authenticate(RetryCommand(command));
      } else {
        effects := DoCommit();
      }
    }

    /** `handleGETRequest` followed by the callback it was given. */
    method OnGetReply(callback: Callback, reply: Reply) returns (effects: seq<Effect>)
      modifies this
      ensures Outcome(Snapshot(), effects) == GetReplyStep(config, old(Snapshot()), callback, reply)
    {
      var err := reply.err;
      if reply.body.Some? && reply.body.value.error.Some? {
        err := reply.body.value.error;
      }
      match callback {
        case NoCallback =>
          effects := [];
        case CommitLogger =>
          effects := [];
        case SoeHandler =>
          effects := EmitAll(SoeEvents(err, reply.body));
        case AggregatesHandler =>
          effects := EmitAll(AggregateEvents(err, reply.body));
        case RetryCommand(ModeCommand(mode)) =>
          effects := SetMode(mode);
        case RetryCommand(ReserveCommand(percent)) =>
          effects := SetReservePercent(percent);
      }
    }
  }
}
