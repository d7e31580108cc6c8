/**
 * Sequences of calls and replies.  The client's handlers run one at a time (the
 * JavaScript event loop) and the last write to the session wins, so a run of the
 * client is the left fold of Tesla.Step over its inputs.  The lemmas here state what
 * holds of every run, whatever the interleaving of calls, polls and replies.
 */
module TeslaTrace {
  import opened Tesla

  /** The session after `inputs` and every effect they caused, in order. */
  function Run(c: Config, s: Session, inputs: seq<Input>): Outcome
    decreases |inputs|
  {
    if inputs == [] then Outcome(s, [])
    else
      var first := Step(c, s, inputs[0]);
      var rest := Run(c, first.session, inputs[1..]);
      Outcome(rest.session, first.effects + rest.effects)
  }

  /** Running one more input after a run. */
  lemma {:induction false} RunSnoc(c: Config, s: Session, inputs: seq<Input>, x: Input)
    ensures Run(c, s, inputs + [x]) ==
      Outcome(Step(c, Run(c, s, inputs).session, x).session,
              Run(c, s, inputs).effects + Step(c, Run(c, s, inputs).session, x).effects)
    decreases |inputs|
  {
    if inputs == [] {
      assert inputs + [x] == [x];
    } else {
      var first := Step(c, s, inputs[0]);
      assert (inputs + [x])[0] == inputs[0];
      assert (inputs + [x])[1..] == inputs[1..] + [x];
      RunSnoc(c, first.session, inputs[1..], x);
      var mid := Run(c, first.session, inputs[1..]);
      var last := Step(c, mid.session, x);
      assert first.effects + (mid.effects + last.effects) == (first.effects + mid.effects) + last.effects;
    }
  }

  // ---------------------------------------------------------------------------
  // The session after a run, by an independent reference definition.

  /** The token left by the last login reply that was error-free and parsed, or `t0`. */
  function LastToken(t0: Option<Token>, inputs: seq<Input>): Option<Token>
    decreases |inputs|
  {
    if inputs == [] then t0
    else
      var x := inputs[|inputs| - 1];
      var before := LastToken(t0, inputs[..|inputs| - 1]);
      if x.LoginReplied? && x.loginReply.err.None? && x.loginReply.body.Json? then x.loginReply.body.token
      else before
  }

  /** The percent an input asks to store: a `setReservePercent` call, direct or retried. */
  function RequestedReserve(x: Input): Option<int> {
    match x
    case SetReservePercent(percent) => Some(percent)
    case GetReplied(RetryCommand(ReserveCommand(percent)), _) => Some(percent)
    case _ => None
  }

  /** The reserve of the last request made while a token was held, or the initial one. */
  function StoredReserve(s0: Session, inputs: seq<Input>): int
    decreases |inputs|
  {
    if inputs == [] then s0.reserve
    else
      var x := inputs[|inputs| - 1];
      var before := inputs[..|inputs| - 1];
      if RequestedReserve(x).Some? && LastToken(s0.token, before).Some? then RequestedReserve(x).value
      else StoredReserve(s0, before)
  }

  /** What one step does to the session. */
  lemma StepSession(c: Config, s: Session, x: Input)
    ensures Step(c, s, x).session.token ==
      (if x.LoginReplied? && x.loginReply.err.None? && x.loginReply.body.Json? then x.loginReply.body.token else s.token)
    ensures Step(c, s, x).session.reserve ==
      (if RequestedReserve(x).Some? && s.token.Some? then RequestedReserve(x).value else s.reserve)
  {
    match x
    case GetReplied(callback, reply) =>
      if callback.RetryCommand? {
        assert Step(c, s, x) == CommandStep(c, s, callback.command);
      }
    case _ =>
  }

  /** Last writer wins: the session after any run is given by LastToken and StoredReserve. */
  lemma {:induction false} RunSession(c: Config, s: Session, inputs: seq<Input>)
    ensures Run(c, s, inputs).session == Session(LastToken(s.token, inputs), StoredReserve(s, inputs))
    decreases |inputs|
  {
    if inputs != [] {
      var before := inputs[..|inputs| - 1];
      var x := inputs[|inputs| - 1];
      assert inputs == before + [x];
      RunSnoc(c, s, before, x);
      RunSession(c, s, before);
      StepSession(c, Run(c, s, before).session, x);
    }
  }

  /** From the initial session, the reserve stays 20 until an authenticated reserve request. */
  lemma ReserveDefaultsTo20(c: Config, inputs: seq<Input>)
    requires forall i | 0 <= i < |inputs| :: RequestedReserve(inputs[i]).None?
    ensures Run(c, INITIAL_SESSION, inputs).session.reserve == 20
  {
    RunSession(c, INITIAL_SESSION, inputs);
    StoredReserveWithoutRequests(INITIAL_SESSION, inputs);
  }

  lemma {:induction false} StoredReserveWithoutRequests(s0: Session, inputs: seq<Input>)
    requires forall i | 0 <= i < |inputs| :: RequestedReserve(inputs[i]).None?
    ensures StoredReserve(s0, inputs) == s0.reserve
    decreases |inputs|
  {
    if inputs != [] {
      StoredReserveWithoutRequests(s0, inputs[..|inputs| - 1]);
    }
  }

  // ---------------------------------------------------------------------------
  // What the device receives.

  /** Every operation POST is well formed and carries a token. */
  predicate OperationsWellFormed(effects: seq<Effect>) {
    forall i | 0 <= i < |effects| && effects[i].PostOperation? ::
      WellFormedOperation(effects[i].payload) && effects[i].bearer.Some?
  }

  lemma StepOperationsWellFormed(c: Config, s: Session, x: Input)
    ensures OperationsWellFormed(Step(c, s, x).effects)
  {
    match x
    case GetReplied(callback, reply) =>
      if callback.RetryCommand? {
        assert Step(c, s, x) == CommandStep(c, s, callback.command);
      }
    case _ =>
  }

  /** In every run the device never sees the `reserve` alias, and `backup` always comes with 100. */
  lemma {:induction false} RunOperationsWellFormed(c: Config, s: Session, inputs: seq<Input>)
    ensures OperationsWellFormed(Run(c, s, inputs).effects)
    decreases |inputs|
  {
    if inputs != [] {
      StepOperationsWellFormed(c, s, inputs[0]);
      RunOperationsWellFormed(c, Step(c, s, inputs[0]).session, inputs[1..]);
    }
  }

  // ---------------------------------------------------------------------------
  // Without a token nothing authenticated is sent.

  predicate NoAuthenticatedRequest(effects: seq<Effect>) {
    forall i | 0 <= i < |effects| :: !IsAuthenticatedRequest(effects[i])
  }

  lemma StepWhileLoggedOut(c: Config, s: Session, x: Input)
    requires s.token.None? && !GrantsToken(x)
    ensures Step(c, s, x).session == s
    ensures NoAuthenticatedRequest(Step(c, s, x).effects)
  {
    match x
    case GetReplied(callback, reply) =>
      if callback.RetryCommand? {
        assert Step(c, s, x) == CommandStep(c, s, callback.command);
      }
    case _ =>
  }

  /** A client without a token that receives no login reply granting one stays logged out. */
  lemma {:induction false} LoggedOutRunKeepsSession(c: Config, s: Session, inputs: seq<Input>)
    requires s.token.None?
    requires forall i | 0 <= i < |inputs| :: !GrantsToken(inputs[i])
    ensures Run(c, s, inputs).session == s
    decreases |inputs|
  {
    if inputs != [] {
      StepWhileLoggedOut(c, s, inputs[0]);
      LoggedOutRunKeepsSession(c, s, inputs[1..]);
    }
  }

  /**
   * Such a client never presents a credential: it sends no operation POST and no GET
   * with a cookie.
   */
  lemma {:induction false} LoggedOutRunSendsNothingAuthenticated(c: Config, s: Session, inputs: seq<Input>)
    requires s.token.None?
    requires forall i | 0 <= i < |inputs| :: !GrantsToken(inputs[i])
    ensures NoAuthenticatedRequest(Run(c, s, inputs).effects)
    decreases |inputs|
  {
    if inputs != [] {
      StepWhileLoggedOut(c, s, inputs[0]);
      LoggedOutRunSendsNothingAuthenticated(c, s, inputs[1..]);
    }
  }

  // ---------------------------------------------------------------------------
  // Commits.

  /** A command reply that is not a 401: the one kind of input that commits. */
  predicate IsAcceptedReply(x: Input) {
    x.CommandReplied? && !IsUnauthorized(x.reply)
  }

  function AcceptedReplies(inputs: seq<Input>): nat {
    if inputs == [] then 0
    else (if IsAcceptedReply(inputs[0]) then 1 else 0) + AcceptedReplies(inputs[1..])
  }

  lemma {:induction false} CommitCountAppend(c: Config, a: seq<Effect>, b: seq<Effect>)
    ensures CommitCount(c, a + b) == CommitCount(c, a) + CommitCount(c, b)
    decreases |a|
  {
    if a != [] {
      assert (a + b)[0] == a[0];
      assert (a + b)[1..] == a[1..] + b;
      CommitCountAppend(c, a[1..], b);
    } else {
      assert a + b == b;
    }
  }

  lemma {:induction false} NoGetNoCommit(c: Config, effects: seq<Effect>)
    requires forall i | 0 <= i < |effects| :: !effects[i].Get?
    ensures CommitCount(c, effects) == 0
    decreases |effects|
  {
    if effects != [] {
      NoGetNoCommit(c, effects[1..]);
    }
  }

  /** A GET of a path other than the commit path is not a commit. */
  lemma OtherPathIsNoCommit(c: Config, path: string, token: Option<Token>, callback: Callback)
    requires path != COMMIT_PATH
    ensures !IsCommit(c, Get(PowerwallURL(c.gatewayIP, path), token, callback))
  {
    if PowerwallURL(c.gatewayIP, path) == PowerwallURL(c.gatewayIP, COMMIT_PATH) {
      URLDeterminesPath(c.gatewayIP, path, COMMIT_PATH);
    }
  }

  /** Only an accepted command reply commits, exactly once when a token is held. */
  lemma StepCommits(c: Config, s: Session, x: Input)
    ensures CommitCount(c, Step(c, s, x).effects) == (if IsAcceptedReply(x) && s.token.Some? then 1 else 0)
  {
    var effects := Step(c, s, x).effects;
    match x
    case Poll =>
      if s.token.Some? {
        OtherPathIsNoCommit(c, SOE_PATH, s.token, SoeHandler);
        OtherPathIsNoCommit(c, AGGREGATES_PATH, s.token, AggregatesHandler);
        assert effects[1..] == [effects[1]];
        assert effects[1..][1..] == [];
        assert CommitCount(c, effects[1..]) == 0;
      } else {
        NoGetNoCommit(c, effects);
      }
    case LoginReplied(callback, reply) =>
      var t := Step(c, s, x).session.token;
      if t.Some? {
        OtherPathIsNoCommit(c, SITEMASTER_PATH, t, callback);
        assert effects[1..] == [];
      } else {
        NoGetNoCommit(c, effects);
      }
    case CommandReplied(command, reply) =>
    case GetReplied(callback, reply) =>
      NoGetNoCommit(c, effects);
    case _ =>
      NoGetNoCommit(c, effects);
  }

  /** Over any run, there are never more commits than accepted command replies. */
  lemma {:induction false} RunCommits(c: Config, s: Session, inputs: seq<Input>)
    ensures CommitCount(c, Run(c, s, inputs).effects) <= AcceptedReplies(inputs)
    decreases |inputs|
  {
    if inputs != [] {
      var first := Step(c, s, inputs[0]);
      StepCommits(c, s, inputs[0]);
      RunCommits(c, first.session, inputs[1..]);
      CommitCountAppend(c, first.effects, Run(c, first.session, inputs[1..]).effects);
    }
  }

  // ---------------------------------------------------------------------------
  // Scenarios.

  /** `setReservePercent(35)` then `setMode("backup")`: the stored 35 does not override 100. */
  lemma ReserveThenBackupStillForces100(c: Config, t: Token, reserve: int)
    ensures Run(c, Session(Some(t), reserve), [SetReservePercent(35), SetMode("backup")]).session.reserve == 35
    ensures Run(c, Session(Some(t), reserve), [SetReservePercent(35), SetMode("backup")]).effects[1].payload
      == Operation("backup", "backup", 100)
  {
  }

  /**
   * The 401 path of a command, from the call to the retried POST: the rejected POST
   * triggers a login carrying the retry, a granted token leads to the sitemaster GET
   * carrying the retry, and its reply (whatever it is) re-sends the same payload with
   * the new token.  Nothing commits on the way.
   */
  lemma UnauthorizedCommandIsRetried(c: Config, s: Session, call: Input, rejection: Reply, t2: Token, sitemaster: Reply)
    requires call.SetMode? || call.SetReservePercent?
    requires s.token.Some?
    requires IsUnauthorized(rejection)
    ensures
      var sent := Step(c, s, call);
      var command := sent.effects[0].command;
      var login := CommandReplyStep(c, sent.session, command, rejection);
      var granted := LoginReplyStep(c, login.session, RetryCommand(command), LoginReply(None, Json(Some(t2))));
      var retried := GetReplyStep(c, granted.session, RetryCommand(command), sitemaster);
      && login.effects == [PostLogin(PowerwallURL(c.gatewayIP, LOGIN_PATH),
                                     LoginForm(false, c.username, c.password, "customer"), RetryCommand(command))]
      && granted.effects == [Get(PowerwallURL(c.gatewayIP, SITEMASTER_PATH), Some(t2), RetryCommand(command))]
      && retried.effects == [PostOperation(PowerwallURL(c.gatewayIP, OPERATION_PATH), sent.effects[0].payload, Some(t2), command)]
      && retried.session == sent.session.(token := Some(t2))
      && CommitCount(c, login.effects + granted.effects + retried.effects) == 0
  {
    var sent := Step(c, s, call);
    var command := sent.effects[0].command;
    var login := CommandReplyStep(c, sent.session, command, rejection);
    var granted := LoginReplyStep(c, login.session, RetryCommand(command), LoginReply(None, Json(Some(t2))));
    var retried := GetReplyStep(c, granted.session, RetryCommand(command), sitemaster);
    if call.SetMode? {
      assert NormaliseMode(NormaliseMode(call.batteryMode)) == NormaliseMode(call.batteryMode);
    }
    OtherPathIsNoCommit(c, SITEMASTER_PATH, Some(t2), RetryCommand(command));
    NoGetNoCommit(c, login.effects);
    NoGetNoCommit(c, retried.effects);
    CommitCountAppend(c, login.effects, granted.effects);
    CommitCountAppend(c, login.effects + granted.effects, retried.effects);
    assert granted.effects[1..] == [];
  }
}
