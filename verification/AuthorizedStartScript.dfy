/** The whole course of a start and of a shutdown, call by call, and what is to blame when one fails. */
module AuthorizedStartScript {
  import opened Prelude
  import opened AuthorizedStart
  import opened AuthorizedStartLaws

  // ---- the script of a start ------------------------------------------------------------------

  /** Every call a start makes before it has reached RUNNING, in order. */
  function Script(m: Memory): (calls: Trace)
    requires m.context.transport.Some?
  {
    [ReadCancelled, WaitTarget,
     ReadCancelled, RequireFresh(m.context.sessionId, m.context.installationKeyHash),
     ReadCancelled, SameTarget(m.target), StartHost, WaitControlChannel,
     ReadCatalog, Validate(m.selected), SameTarget(m.target),
     RequestChallenge, SameTarget(m.target),
     IssueAuthorization(m.context.transport.value, m.challenge),
     ReadCancelled, SameTarget(m.target),
     OwnedPid, StartAuthorized(m.command, m.bundle), OwnedPid]
  }

  /** How many calls the first `k` stages make: binding the target and looking at the status make none. */
  function CallsOf(k: nat): (n: nat)
    requires k <= STAGES
    ensures n <= 19
  {
    if k <= 13 then k else if k < STAGES then k - 1 else 19
  }

  lemma StageIsScripted(m: Memory, k: nat)
    requires k < STAGES && m.context.transport.Some?
    ensures Ask(StageAt(k), m) == if k == 13 || k == 20 then None else Some(Script(m)[CallsOf(k)])
    ensures CallsOf(k + 1) == if k == 13 || k == 20 then CallsOf(k) else CallsOf(k) + 1
  {}

  lemma {:induction false} CallsAreScripted(m: Memory, k: nat)
    requires k <= STAGES && m.context.transport.Some?
    ensures Calls(m, k) == Script(m)[..CallsOf(k)]
  {
    hide Script, StageAt, Ask;
    ScriptLength(m);
    if k > 0 {
      CallsAreScripted(m, k - 1);
      StageIsScripted(m, k - 1);
    }
  }

  lemma ScriptLength(m: Memory)
    requires m.context.transport.Some?
    ensures |Script(m)| == 19
  {}

  // ---- what is to blame -----------------------------------------------------------------------

  /** A refused session keeps its code and is not to be retried; anything else is a heartbeat that is not available, and
      may be. Only an invalid authorization can say that the sign-in itself was refused. */
  function HeartbeatFailure(e: Raised): Failure {
    if e.Typed? && e.code == AuthorizationInvalid then Failure(AuthorizationInvalid, false, e.authInvalid)
    else if e.Typed? && e.code == SessionInactive then Failure(SessionInactive, false, false)
    else if e.Typed? && e.code == EntitlementInactive then Failure(EntitlementInactive, false, false)
    else Failure(HeartbeatUnavailable, true, false)
  }

  function PermitFailure(r: Result<Option<Bundle>, Raised>): Failure {
    if r.Err? && r.error.Typed? && r.error.code == PermitUnavailable && r.error.diagnosed then
      Failure(PermitUnavailable, false, false)
    else Failure(AdapterFailure, false, false)
  }

  /** Stage `k`, its call the last of `t`, did not pass, and `f` is the failure that belongs to the answer it got. */
  ghost predicate Blames(a: Adapters, k: nat, m: Memory, t: Trace, f: Failure)
    requires k < STAGES
  {
    if k in {0, 2, 4, 15} then a.cancelled(t) && f == Failure(Cancelled, false, false)
    else if k == 1 then
      (a.waitTarget(t).Err? || a.waitTarget(t).value.None?) && f == Failure(TargetUnavailable, true, false)
    else if k == 3 then a.requireFresh(t).Err? && f == HeartbeatFailure(a.requireFresh(t).error)
    else if k in {5, 10, 12, 16} then
      && a.sameTarget(t) != Ok(true)
      && f == Failure(if a.sameTarget(t).Err? then ProcessObservationUnavailable else TargetExited, false, false)
    else if k == 6 then a.startHost(t).Err? && f == Failure(AdapterFailure, false, false)
    else if k == 7 then a.waitControlChannel(t).Err? && f == Failure(AdapterFailure, false, false)
    else if k == 8 then
      if a.catalog(t).Ok? && |a.catalog(t).value| > 1 then
        f == Failure(RuntimeConfigurationSelectionRequired, false, false)
      else (a.catalog(t).Err? || a.catalog(t).value == []) && f == Failure(RuntimeConfigurationUnavailable, true, false)
    else if k == 9 then a.validate(t) != Ok(m.selected) && f == Failure(RuntimeConfigurationUnavailable, true, false)
    else if k == 11 then a.challenge(t).Err? && f == Failure(ChallengeUnavailable, true, false)
    else if k == 13 then
      && !(exists command :: BoundTo(command, m.selected, m.target))
      && f == Failure(if m.target.pid.None? then TargetUnavailable else ConfigurationUnavailable, false, false)
    else if k == 14 then (a.authorize(t).Err? || a.authorize(t).value.None?) && f == PermitFailure(a.authorize(t))
    else if k == 18 then a.startAuthorized(t).Err? && f == Failure(AdapterFailure, false, false)
    else if k == 20 then m.status.kind != Running && StatusFailure(m.status) == Some(f)
    else a.ownedPid(t).Err? && f == Failure(AdapterFailure, false, false)
  }

  lemma JudgeBlames(a: Adapters, k: nat, m: Memory, t: Trace)
    requires k < STAGES && Judge(a, StageAt(k), m, t).Err?
    ensures Blames(a, k, m, t, Judge(a, StageAt(k), m, t).error)
  {
    hide StatusFailure, BindTarget, BoundTo, CORE_START_FAILURES;
    if k == 13 {
      BindingMeans(m.selected, m.target, m.command);
      forall command ensures !BoundTo(command, m.selected, m.target) { BindingMeans(m.selected, m.target, command); }
    }
  }

  // ---- the course of a start ------------------------------------------------------------------

  /** A start that gets past every stage has made the whole script, and returns the status the Core gave. One that
      does not get past stage `k` has made the script so far (and looked at the owned process once more after a START
      that was refused), blames what happened there, and has cleaned up if the host may have been created by then. */
  ghost predicate Course(a: Adapters, t: Trace, k: nat, m: Memory, t': Trace, r: Result<CoreStatus, Failure>)
    requires k <= STAGES && m.context.transport.Some? && |Script(m)| == 19
  {
    var u := t + [Acquire];
    if k == STAGES then
      && t' == u + Script(m) + [Release] && r == Ok(m.status)
      && a.startAuthorized(u + Script(m)[..18]) == Ok(m.status)
    else
      var asked := u + Script(m)[..CallsOf(k + 1)];
      var pipeline := if k == 18 then asked + [OwnedPid] else asked;
      && r.Err? && Blames(a, k, m, asked, r.error)
      && t' == (if k >= 6 then Shutdown(a, pipeline + [BeginCleanup]).0 else pipeline) + [Release]
  }

  lemma HostIsAttemptedFrom(t: Trace, m: Memory, n: nat, more: Trace)
    requires m.context.transport.Some? && n <= 19 == |Script(m)| && StartHost !in more
    ensures HostAttempted(t + [Acquire] + Script(m)[..n] + more, |t| + 1) <==> n >= 7
  {
    var p := t + [Acquire] + Script(m)[..n] + more;
    if n >= 7 { assert p[|t| + 1 + 6] == Script(m)[6] == StartHost; }
    if n < 7 {
      forall k | |t| + 1 <= k < |p| ensures p[k] != StartHost {
        if k < |t| + 1 + n { assert p[k] == Script(m)[k - |t| - 1]; } else { assert p[k] in more; }
      }
    }
  }

  lemma StatusIsAnswer(a: Adapters, m: Memory, u: Trace)
    requires m.context.transport.Some? && Passed(a, m, u, 18)
    ensures a.startAuthorized(u + Calls(m, 19)) == Ok(m.status)
  {
    hide Calls;
  }

  /** Whatever the adapters answer, an admitted start takes one of these courses. */
  lemma StartFollowsScript(a: Adapters, held: bool, command: Option<StartCommand>, context: AccessContext, t: Trace)
    returns (k: nat, m: Memory)
    requires Admitted(held, command, context)
    ensures k <= STAGES && m.context == context && |Script(m)| == 19
    ensures var (t', r) := Start(a, held, command, context, t); Course(a, t, k, m, t', r)
  {
    hide Judge, StageAt, Ask, RunFrom, Shutdown, Script, Blames, Calls, StatusFailure, HostAttempted;
    var u := t + [Acquire];
    k, m := WhereItStops(a, context, u);
    ScriptLength(m);
    if k == STAGES {
      CallsAreScripted(m, k);
      CallsAreScripted(m, 19);
      assert Passed(a, m, u, 18);
      StatusIsAnswer(a, m, u);
      assert Script(m)[..19] == Script(m);
    } else {
      CallsAreScripted(m, k + 1);
      JudgeBlames(a, k, m, u + Calls(m, k + 1));
      var more := if k == 18 then [OwnedPid] else [];
      HostIsAttemptedFrom(t, m, CallsOf(k + 1), more);
      assert u + Script(m)[..CallsOf(k + 1)] + [] == u + Script(m)[..CallsOf(k + 1)];
      AfterStage(k, u + Calls(m, k + 1));
    }
  }

  lemma AfterStage(k: nat, t: Trace)
    requires k < STAGES
    ensures AfterFailure(StageAt(k), t) == if k == 18 then t + [OwnedPid] else t
  {}

  /** A start is admitted when no other is under way, the command, if one is given, names well-formed references, and
      the context is that of a live session on a known installation. */
  lemma AdmittedMeans(held: bool, command: Option<StartCommand>, context: AccessContext)
    ensures Admitted(held, command, context) <==>
      && !held
      && (command.Some? ==> IsReference("profile-", command.value.profile)
                            && IsReference("server-", command.value.server))
      && context.authenticated && context.entitlementActive && context.sessionId != ""
      && context.installationKeyHash != "" && context.transport != None
  {}

  /** A start that is not admitted makes no call at all: a malformed command, a missing authorization context, or
      another start under way, in this order. */
  lemma GuardsRefuse(a: Adapters, held: bool, command: Option<StartCommand>, context: AccessContext, t: Trace)
    requires !Admitted(held, command, context)
    ensures var (t', r) := Start(a, held, command, context, t);
      && t' == t && r.Err? && !r.error.retrySafe && !r.error.authInvalid
      && (r.error.code == ConfigurationUnavailable <==>
            command.Some? && !(IsReference("profile-", command.value.profile)
                               && IsReference("server-", command.value.server)))
      && (r.error.code == DuplicateStart ==> held)
      && (r.error.code == AuthorizationContextUnavailable ==>
            !context.authenticated || !context.entitlementActive || context.sessionId == ""
              || context.installationKeyHash == "" || context.transport.None?)
      && r.error.code in {ConfigurationUnavailable, AuthorizationContextUnavailable, DuplicateStart}
  {}

  // ---- the course of a shutdown ---------------------------------------------------------------

  /** The code of a shutdown whose request was not answered with STOPPED. */
  function NotStopped(reply: Result<CoreStatus, Raised>): ShutdownCode {
    if reply == Err(Control(PipeUnavailable)) then CorePipeUnavailable
    else if reply == Err(Control(PipeIdentityMismatch)) then CorePipeIdentityMismatch
    else if reply == Err(Control(OperationTimeout)) then ShutdownTimeout
    else ShutdownRejected
  }

  /** An orderly shutdown finds the process it owns, asks the Core to stop, is told that it has stopped, and sees the
      process exit with code 0; and it is orderly whenever all this happens. Each way to fail has its code. */
  lemma ShutdownMeans(a: Adapters, t: Trace)
    ensures var (t', r) := Shutdown(a, t);
      var owned, asked := a.ownedPid(t + [OwnedPid]), t + [OwnedPid] + [ShutdownCore];
      && (owned.Err? ==> t' == t + [OwnedPid] && r == Err(Escaped))
      && (owned == Ok(None) ==> t' == t + [OwnedPid] && r == Err(ShutdownFailure(CoreAlreadyExited, false)))
      && (owned.Ok? && owned.value.Some? ==>
            var pid, reply := owned.value.value, a.shutdownCore(asked);
            var waited := asked + [WaitExit(pid)];
            var exit, stopped := a.waitExit(waited), reply.Ok? && reply.value.kind == Stopped;
            && waited <= t'
            && (r == Ok(0) <==> stopped && exit == Ok(0))
            && (r.Err? ==> r.error.ShutdownFailure?)
            && t' == (if exit.Ok? then waited else waited + [Terminate(pid)])
            && (r.Err? ==> (r.error.fallbackUsed <==> exit.Err? && a.terminate(waited + [Terminate(pid)]).Ok?))
            && (stopped && exit.Ok? && exit.value != 0 ==> r == Err(ShutdownFailure(ShutdownRejected, false)))
            && (stopped && exit.Err? ==> r.Err? && r.error.code == ProcessExitTimeout)
            && (!stopped ==> r.Err? && r.error.code == NotStopped(reply)))
  {
    var owned := a.ownedPid(t + [OwnedPid]);
    if owned.Ok? && owned.value.Some? {
      var pid, asked := owned.value.value, t + [OwnedPid] + [ShutdownCore];
      var waited := asked + [WaitExit(pid)];
      assert waited <= waited + [Terminate(pid)];
    }
  }
}
