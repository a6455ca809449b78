/** The single-flight, fail-closed pipeline that starts the Core process with an authorization. */
module AuthorizedStart {
  import opened Prelude

  datatype ErrorCode =
    | AdapterFailure | AuthorizationContextUnavailable | AuthorizationRequired | AuthorizationInvalid
    | AuthorizationExpired | AuthorizationReplay | AuthorizationUnavailable | SessionInactive | EntitlementInactive
    | HeartbeatStale | ConfigurationUnavailable | ConfigurationMismatch | DuplicateStart | Cancelled
    | TargetUnavailable | TargetExited | HeartbeatUnavailable | AlreadyRunning | ProtocolInvalid | StartTimeout
    | StartFailed | StopFailed | RunningNotReached | PermitUnavailable | ChallengeUnavailable
    | ProcessObservationUnavailable | RuntimeConfigurationUnavailable | RuntimeConfigurationSelectionRequired

  /** A failed start: its code, whether the caller may simply try again, whether the sign-in was refused. */
  datatype Failure = Failure(code: ErrorCode, retrySafe: bool, authInvalid: bool)

  /** What an adapter may raise: one of the typed failures (with a permit diagnosis or without), a control-channel
      failure, or anything else. */
  datatype Raised = Typed(code: ErrorCode, authInvalid: bool,
      diagnosed: bool) | Control(reason: ControlFailure) | Unexpected

  datatype ControlFailure = PipeUnavailable | PipeIdentityMismatch | PipeClosed | OperationTimeout | ResponseRejected

  // ---- values ---------------------------------------------------------------------------------

  /** A detected process; `pid` is absent when the attribute is missing or not an integer. */
  datatype Target = Target(handle: int, pid: Option<int>)

  /** A configuration offered by the Core; `identity` tells one object from another with the same references. */
  datatype Candidate = Candidate(identity: int, profile: string, server: string)

  datatype StatusKind = Running | Stopped | Failed
  datatype CoreStatus = CoreStatus(kind: StatusKind, errorCode: Option<string>)

  datatype Bundle = Bundle(permit: string, config: string)

  datatype AccessContext = AccessContext(
    authenticated: bool, entitlementActive: bool, sessionId: string, installationKeyHash: string,
      transport: Option<int>)

  datatype StartCommand = StartCommand(profile: string, server: string)
  datatype BoundCommand = BoundCommand(profile: string, server: string, pid: int)

  predicate IsReference(prefix: string, s: string) {
    && |prefix| < |s| <= |prefix| + 6 && prefix <= s
    && forall k :: |prefix| <= k < |s| ==> '0' <= s[k] <= '9'
  }

  predicate CommandAvailable(c: StartCommand) { IsReference("profile-", c.profile) && IsReference("server-", c.server) }

  predicate ContextAvailable(c: AccessContext) {
    c.authenticated && c.entitlementActive && c.sessionId != "" && c.installationKeyHash != "" && c.transport.Some?
  }

  // ---- the outside world ----------------------------------------------------------------------

  /** Calls on the adapters and the events of the single-flight lock, in the order they happen. `BeginCleanup` marks
      the start of the best-effort shutdown that follows a failure. */
  datatype Op =
    | Acquire | Release | BeginCleanup
    | ReadCancelled
    | WaitTarget
    | RequireFresh(sessionId: string, installationKeyHash: string)
    | SameTarget(target: Target)
    | StartHost
    | WaitControlChannel
    | ReadCatalog
    | Validate(candidate: Candidate)
    | RequestChallenge
    | IssueAuthorization(transport: int, challenge: string)
    | StartAuthorized(command: BoundCommand, bundle: Bundle)
    | OwnedPid
    | ShutdownCore
    | WaitExit(pid: int)
    | Terminate(pid: int)

  type Trace = seq<Op>

  /** Every answer may depend on everything done so far, the call itself being the last entry of the trace: any
      behaviour of the adapters is one such record of functions. */
  datatype Adapters = Adapters(
    cancelled: Trace -> bool,
    waitTarget: Trace -> Result<Option<Target>, Raised>,
    requireFresh: Trace -> Result<(), Raised>,
    sameTarget: Trace -> Result<bool, Raised>,
    startHost: Trace -> Result<(), Raised>,
    waitControlChannel: Trace -> Result<(), Raised>,
    catalog: Trace -> Result<seq<Candidate>, Raised>,
    validate: Trace -> Result<Candidate, Raised>,
    challenge: Trace -> Result<string, Raised>,
    authorize: Trace -> Result<Option<Bundle>, Raised>,
    startAuthorized: Trace -> Result<CoreStatus, Raised>,
    ownedPid: Trace -> Result<Option<int>, Raised>,
    shutdownCore: Trace -> Result<CoreStatus, Raised>,
    waitExit: Trace -> Result<int, Raised>,
    terminate: Trace -> Result<int, Raised>)

  // ---- error tables ---------------------------------------------------------------------------

  /** How an adapter failure surfaces: a diagnosed permit refusal and a refused session keep their code, everything
      else becomes the code of its stage. */
  datatype Keep = KeepNothing | KeepPermit | KeepAuthority

  function Surface(e: Raised, code: ErrorCode, retrySafe: bool, keep: Keep): Failure {
    if keep == KeepPermit && e.Typed? && e.code == PermitUnavailable && e.diagnosed then
      Failure(PermitUnavailable, false, false)
    else if keep == KeepAuthority && e.Typed?
      && e.code in {AuthorizationInvalid, SessionInactive, EntitlementInactive} then
      Failure(e.code, false, e.authInvalid && e.code == AuthorizationInvalid)
    else
      Failure(code, retrySafe, false)
  }

  const CORE_START_FAILURES: map<string, ErrorCode> := map[
    "AuthorizationRequired" := AuthorizationRequired,
    "AuthorizationInvalid" := AuthorizationInvalid,
    "AuthorizationExpired" := AuthorizationExpired,
    "AuthorizationReplay" := AuthorizationReplay,
    "AuthorizationUnavailable" := AuthorizationUnavailable,
    "SessionInactive" := SessionInactive,
    "EntitlementInactive" := EntitlementInactive,
    "HeartbeatStale" := HeartbeatStale,
    "ProcessNotFound" := TargetUnavailable,
    "ProcessExited" := TargetExited,
    "ConfigurationMismatch" := ConfigurationMismatch,
    "AlreadyRunning" := AlreadyRunning,
    "ProtocolInvalid" := ProtocolInvalid,
    "StartTimeout" := StartTimeout,
    "Cancelled" := Cancelled,
    "StartFailed" := StartFailed,
    "StopFailed" := StopFailed]

  function Plain(code: ErrorCode): Failure { Failure(code, false, false) }

  /** The failure a Core status stands for, if it is not RUNNING. */
  function StatusFailure(status: CoreStatus): (f: Option<Failure>)
    ensures f.None? <==> status.kind == Running
    ensures f.Some? ==> !f.value.retrySafe && !f.value.authInvalid
    ensures forall name :: name in CORE_START_FAILURES && status == CoreStatus(Failed, Some(name)) ==>
              f == Some(Plain(CORE_START_FAILURES[name]))
    ensures f.Some? && f.value.code !in CORE_START_FAILURES.Values ==>
      f.value.code in {AdapterFailure, RunningNotReached}
    ensures status.kind == Failed && (status.errorCode.None? || status.errorCode.value !in CORE_START_FAILURES) ==>
              f == Some(Plain(AdapterFailure))
    ensures status.kind == Stopped ==> f == Some(Plain(RunningNotReached))
  {
    match status.kind
    case Running => None
    case Stopped => Some(Plain(RunningNotReached))
    case Failed =>
      var name := if status.errorCode.Some? then status.errorCode.value else "";
      Some(Plain(if name in CORE_START_FAILURES then CORE_START_FAILURES[name] else AdapterFailure))
  }

  // ---- the pipeline as a table ----------------------------------------------------------------

  /** The stages of one start, each a single call on an adapter or (Bind, RequireRunning) a local check. */
  datatype Stage =
    | NotCancelled | AwaitTarget | Heartbeat | Recheck | HostStart | ControlChannel | Catalog | Freeze
    | Challenge | Bind | Permit | NoteOwner | StartCore | ConfirmOwner | RequireRunning

  const STAGES := 21

  /** The order of the stages. */
  function StageAt(k: nat): Stage
    requires k < STAGES
  {
    match k
    case 0 => NotCancelled
    case 1 => AwaitTarget
    case 2 => NotCancelled
    case 3 => Heartbeat
    case 4 => NotCancelled
    case 5 => Recheck
    case 6 => HostStart
    case 7 => ControlChannel
    case 8 => Catalog
    case 9 => Freeze
    case 10 => Recheck
    case 11 => Challenge
    case 12 => Recheck
    case 13 => Bind
    case 14 => Permit
    case 15 => NotCancelled
    case 16 => Recheck
    case 17 => NoteOwner
    case 18 => StartCore
    case 19 => ConfirmOwner
    case _ => RequireRunning
  }

  /** What later stages use of earlier ones. */
  datatype Memory = Memory(
    context: AccessContext, target: Target, selected: Candidate, challenge: string,
    command: BoundCommand, bundle: Bundle, status: CoreStatus)

  /** The call a stage makes, if any. */
  function Ask(s: Stage, m: Memory): Option<Op>
    requires m.context.transport.Some?
  {
    match s
    case NotCancelled => Some(ReadCancelled)
    case AwaitTarget => Some(WaitTarget)
    case Heartbeat => Some(RequireFresh(m.context.sessionId, m.context.installationKeyHash))
    case Recheck => Some(SameTarget(m.target))
    case HostStart => Some(StartHost)
    case ControlChannel => Some(WaitControlChannel)
    case Catalog => Some(ReadCatalog)
    case Freeze => Some(Validate(m.selected))
    case Challenge => Some(RequestChallenge)
    case Bind => None
    case Permit => Some(IssueAuthorization(m.context.transport.value, m.challenge))
    case NoteOwner => Some(OwnedPid)
    case StartCore => Some(StartAuthorized(m.command, m.bundle))
    case ConfirmOwner => Some(OwnedPid)
    case RequireRunning => None
  }

  function BindTarget(candidate: Candidate, target: Target): Result<BoundCommand, Failure> {
    if target.pid.None? then Err(Plain(TargetUnavailable))
    else if !CommandAvailable(StartCommand(candidate.profile, candidate.server)) then
      Err(Plain(ConfigurationUnavailable))
    else if !(1 <= target.pid.value <= 4_294_967_295) then Err(Plain(ConfigurationUnavailable))
    else Ok(BoundCommand(candidate.profile, candidate.server, target.pid.value))
  }

  /** Whether a stage passes given the trace that ends with its call, and what it leaves behind. */
  function Judge(a: Adapters, s: Stage, m: Memory, t: Trace): (r: Result<Memory, Failure>)
    ensures r.Ok? ==> r.value.context == m.context
  {
    match s
    case NotCancelled => if a.cancelled(t) then Err(Plain(Cancelled)) else Ok(m)
    case AwaitTarget =>
      (match a.waitTarget(t)
       case Err(e) => Err(Surface(e, TargetUnavailable, true, KeepNothing))
       case Ok(None) => Err(Failure(TargetUnavailable, true, false))
       case Ok(Some(target)) => Ok(m.(target := target)))
    case Heartbeat =>
      (match a.requireFresh(t)
       case Err(e) => Err(Surface(e, HeartbeatUnavailable, true, KeepAuthority))
       case Ok(_) => Ok(m))
    case Recheck =>
      (match a.sameTarget(t)
       case Err(e) => Err(Surface(e, ProcessObservationUnavailable, false, KeepNothing))
       case Ok(running) => if running then Ok(m) else Err(Plain(TargetExited)))
    case HostStart =>
      (match a.startHost(t) case Err(e) => Err(Surface(e, AdapterFailure, false, KeepNothing)) case Ok(_) => Ok(m))
    case ControlChannel =>
      (match a.waitControlChannel(t) case Err(e) => Err(Surface(e, AdapterFailure, false, KeepNothing))
        case Ok(_) => Ok(m))
    case Catalog =>
      (match a.catalog(t)
       case Err(e) => Err(Surface(e, RuntimeConfigurationUnavailable, true, KeepNothing))
       case Ok(candidates) =>
         if |candidates| == 0 then Err(Failure(RuntimeConfigurationUnavailable, true, false))
         else if |candidates| != 1 then Err(Plain(RuntimeConfigurationSelectionRequired))
         else Ok(m.(selected := candidates[0])))
    case Freeze =>
      (match a.validate(t)
       case Err(e) => Err(Surface(e, RuntimeConfigurationUnavailable, true, KeepNothing))
       case Ok(frozen) => if frozen != m.selected then Err(Failure(RuntimeConfigurationUnavailable, true, false))
         else Ok(m))
    case Challenge =>
      (match a.challenge(t)
       case Err(e) => Err(Surface(e, ChallengeUnavailable, true, KeepNothing))
       case Ok(challenge) => Ok(m.(challenge := challenge)))
    case Bind =>
      (match BindTarget(m.selected, m.target) case Err(f) => Err(f) case Ok(command) => Ok(m.(command := command)))
    case Permit =>
      (match a.authorize(t)
       case Err(e) => Err(Surface(e, AdapterFailure, false, KeepPermit))
       case Ok(None) => Err(Plain(AdapterFailure))
       case Ok(Some(bundle)) => Ok(m.(bundle := bundle)))
    case NoteOwner =>
      (match a.ownedPid(t) case Err(e) => Err(Surface(e, AdapterFailure, false, KeepNothing)) case Ok(_) => Ok(m))
    case StartCore =>
      (match a.startAuthorized(t)
       case Err(e) => Err(Surface(e, AdapterFailure, false, KeepNothing))
       case Ok(status) => Ok(m.(status := status)))
    case ConfirmOwner =>
      (match a.ownedPid(t) case Err(e) => Err(Surface(e, AdapterFailure, false, KeepNothing)) case Ok(_) => Ok(m))
    case RequireRunning =>
      var f := StatusFailure(m.status);
      if f.Some? then Err(f.value) else Ok(m)
  }

  function Called(s: Stage, m: Memory, t: Trace): (t': Trace)
    requires m.context.transport.Some?
    ensures t <= t'
  {
    var op := Ask(s, m);
    if op.Some? then t + [op.value] else t
  }

  /** A rejected START is followed by one more look at the owned process, for the record. */
  function AfterFailure(s: Stage, t: Trace): Trace { if s.StartCore? then t + [OwnedPid] else t }

  /** The stages from `k` on, up to the first that does not pass. */
  function RunFrom(a: Adapters, k: nat, m: Memory, t: Trace): (r: (Trace, Result<Memory, Failure>))
    requires k <= STAGES && m.context.transport.Some?
    ensures r.1.Ok? ==> r.1.value.context == m.context
    decreases STAGES - k
  {
    if k == STAGES then (t, Ok(m))
    else
      var t' := Called(StageAt(k), m, t);
      match Judge(a, StageAt(k), m, t')
      case Err(f) => (AfterFailure(StageAt(k), t'), Err(f))
      case Ok(m') => RunFrom(a, k + 1, m', t')
  }

  // ---- shutdown -------------------------------------------------------------------------------

  datatype ShutdownCode = CoreAlreadyExited | CorePipeUnavailable | CorePipeIdentityMismatch
                        | ShutdownRejected | ShutdownTimeout | ProcessExitTimeout

  /** `Escaped`: the first look at the owned process itself failed. */
  datatype ShutdownFailure = ShutdownFailure(code: ShutdownCode, fallbackUsed: bool) | Escaped

  function ControlToShutdown(e: Raised): ShutdownCode {
    match e
    case Control(PipeUnavailable) => CorePipeUnavailable
    case Control(PipeIdentityMismatch) => CorePipeIdentityMismatch
    case Control(OperationTimeout) => ShutdownTimeout
    case _ => ShutdownRejected
  }

  function Terminated(a: Adapters, pid: int, t: Trace): (Trace, bool) {
    var t' := t + [Terminate(pid)];
    (t', a.terminate(t').Ok?)
  }

  function EmergencyTerminate(a: Adapters, pid: int, expired: bool, t: Trace): (Trace, bool) {
    if expired then Terminated(a, pid, t)
    else
      var t' := t + [WaitExit(pid)];
      if a.waitExit(t').Ok? then (t', false) else Terminated(a, pid, t')
  }

  function Shutdown(a: Adapters, t: Trace): (Trace, Result<int, ShutdownFailure>) {
    var t0 := t + [OwnedPid];
    match a.ownedPid(t0)
    case Err(_) => (t0, Err(Escaped))
    case Ok(None) => (t0, Err(ShutdownFailure(CoreAlreadyExited, false)))
    case Ok(Some(pid)) =>
      var t1 := t0 + [ShutdownCore];
      var reply := a.shutdownCore(t1);
      if reply.Err? then
        var (t2, used) := EmergencyTerminate(a, pid, false, t1);
        (t2, Err(ShutdownFailure(ControlToShutdown(reply.error), used)))
      else if reply.value.kind != Stopped then
        var (t2, used) := EmergencyTerminate(a, pid, false, t1);
        (t2, Err(ShutdownFailure(ShutdownRejected, used)))
      else
        var t2 := t1 + [WaitExit(pid)];
        match a.waitExit(t2)
        case Err(_) =>
          var (t3, used) := EmergencyTerminate(a, pid, true, t2);
          (t3, Err(ShutdownFailure(ProcessExitTimeout, used)))
        case Ok(code) => (t2, if code != 0 then Err(ShutdownFailure(ShutdownRejected, false)) else Ok(code))
  }

  // ---- one start ------------------------------------------------------------------------------

  /** Where the host may have been created: from this stage on a failure is followed by cleanup. */
  const HOST_START := 6

  predicate HostAttempted(t: Trace, from: nat) { exists k :: from <= k < |t| && t[k] == StartHost }

  const NO_TARGET := Target(0, None)
  const NO_CANDIDATE := Candidate(0, "", "")

  function Fresh(context: AccessContext): Memory {
    Memory(context, NO_TARGET, NO_CANDIDATE, "", BoundCommand("", "", 0), Bundle("", ""), CoreStatus(Failed, None))
  }

  /** A whole start: guards, lock, pipeline, cleanup when a host may exist, release. `held` says that another start
      holds the lock. */
  function Start(a: Adapters, held: bool, command: Option<StartCommand>, context: AccessContext, t: Trace)
    : (Trace, Result<CoreStatus, Failure>)
  {
    if command.Some? && !CommandAvailable(command.value) then (t, Err(Plain(ConfigurationUnavailable)))
    else if !ContextAvailable(context) then (t, Err(Plain(AuthorizationContextUnavailable)))
    else if held then (t, Err(Plain(DuplicateStart)))
    else
      var (t1, r) := RunFrom(a, 0, Fresh(context), t + [Acquire]);
      match r
      case Ok(m) => (t1 + [Release], Ok(m.status))
      case Err(f) =>
        var t2 := if HostAttempted(t1, |t| + 1) then Shutdown(a, t1 + [BeginCleanup]).0 else t1;
        (t2 + [Release], Err(f))
  }

  // ---- the orchestrator -----------------------------------------------------------------------

  /** `trace` logs every call; the adapters answer from it. */
  class AuthorizedCoreOrchestrator {
    const adapters: Adapters
    var singleFlight: bool
    var trace: Trace

    constructor (adapters: Adapters)
      ensures this.adapters == adapters && !singleFlight && trace == []
    {
      this.adapters := adapters;
      singleFlight := false;
      trace := [];
    }

    method RequireNotCancelled() returns (failure: Option<Failure>)
      modifies this`trace
      ensures trace == old(trace) + [ReadCancelled]
      ensures failure == if adapters.cancelled(trace) then Some(Plain(Cancelled)) else None
    {
      trace := trace + [ReadCancelled];
      failure := if adapters.cancelled(trace) then Some(Plain(Cancelled)) else None;
    }

    method RequireTarget(target: Target) returns (failure: Option<Failure>)
      modifies this`trace
      ensures trace == old(trace) + [SameTarget(target)]
      ensures var answer := adapters.sameTarget(trace);
              && (failure.None? <==> answer == Ok(true))
              && (answer == Ok(false) ==> failure == Some(Plain(TargetExited)))
              && (answer.Err? ==> failure == Some(Plain(ProcessObservationUnavailable)))
    {
      trace := trace + [SameTarget(target)];
      var answer := adapters.sameTarget(trace);
      if answer.Err? { return Some(Surface(answer.error, ProcessObservationUnavailable, false, KeepNothing)); }
      failure := if answer.value then None else Some(Plain(TargetExited));
    }

    /** Kills the process seen when shutdown began, unless it can still be waited for. */
    method EmergencyTerminateExactChild(pid: int, expired: bool) returns (used: bool)
      modifies this`trace
      ensures (trace, used) == EmergencyTerminate(adapters, pid, expired, old(trace))
    {
      if !expired {
        trace := trace + [WaitExit(pid)];
        if adapters.waitExit(trace).Ok? { return false; }
      }
      trace := trace + [Terminate(pid)];
      used := adapters.terminate(trace).Ok?;
    }

    method ShutdownOwnedHost() returns (r: Result<int, ShutdownFailure>)
      modifies this`trace
      ensures (trace, r) == Shutdown(adapters, old(trace))
    {
      trace := trace + [OwnedPid];
      var owned := adapters.ownedPid(trace);
      if owned.Err? { return Err(Escaped); }
      if owned.value.None? { return Err(ShutdownFailure(CoreAlreadyExited, false)); }
      var pid := owned.value.value;

      trace := trace + [ShutdownCore];
      var reply := adapters.shutdownCore(trace);
      if reply.Err? {
        var used := EmergencyTerminateExactChild(pid, false);
        return Err(ShutdownFailure(ControlToShutdown(reply.error), used));
      }
      if reply.value.kind != Stopped {
        var used := EmergencyTerminateExactChild(pid, false);
        return Err(ShutdownFailure(ShutdownRejected, used));
      }

      trace := trace + [WaitExit(pid)];
      var exit := adapters.waitExit(trace);
      if exit.Err? {
        var used := EmergencyTerminateExactChild(pid, true);
        return Err(ShutdownFailure(ProcessExitTimeout, used));
      }
      if exit.value != 0 { return Err(ShutdownFailure(ShutdownRejected, false)); }
      return Ok(exit.value);
    }

    /** The guarded block of a start: every step of the pipeline in order, up to the first that fails. */
    method Attempt(context: AccessContext) returns (r: Result<CoreStatus, Failure>, hostStartAttempted: bool)
      requires ContextAvailable(context)
      modifies this`trace
      ensures var (t, out) := RunFrom(adapters, 0, Fresh(context), old(trace));
              trace == t && r == if out.Ok? then Ok(out.value.status) else Err(out.error)
      ensures hostStartAttempted <==> HostAttempted(trace, |old(trace)|)
    {
      hide RunFrom, Judge, Called, Ask, AfterFailure, BindTarget, StatusFailure, CORE_START_FAILURES, StageAt,
        CommandAvailable, IsReference;
      hostStartAttempted := false;
      ghost var m, t := Fresh(context), trace;

      AtNotCancelled(adapters, 0, m, t);
      var f := RequireNotCancelled();
      if f.Some? { return Err(f.value), false; }

      t := trace; AtAwaitTarget(adapters, m, t);
      trace := trace + [WaitTarget];
      var found := adapters.waitTarget(trace);
      if found.Err? { return Err(Surface(found.error, TargetUnavailable, true, KeepNothing)), false; }
      if found.value.None? { return Err(Failure(TargetUnavailable, true, false)), false; }
      var target := found.value.value;
      m := m.(target := target);

      t := trace; AtNotCancelled(adapters, 2, m, t);
      f := RequireNotCancelled();
      if f.Some? { return Err(f.value), false; }

      t := trace; AtHeartbeat(adapters, m, t);
      trace := trace + [RequireFresh(context.sessionId, context.installationKeyHash)];
      var fresh_ := adapters.requireFresh(trace);
      if fresh_.Err? { return Err(Surface(fresh_.error, HeartbeatUnavailable, true, KeepAuthority)), false; }

      ghost var calls := [ReadCancelled, WaitTarget, ReadCancelled,
        RequireFresh(context.sessionId, context.installationKeyHash)];
      assert trace == old(trace) + calls;
      OnlyExtends(adapters, 4, m, trace);
      EarlierCallsStartNoHost(old(trace), calls, RunFrom(adapters, 4, m, trace).0);
      r, hostStartAttempted := Admit(context, target, m);
    }

    /** The last look before the host may be created. */
    method Admit(context: AccessContext, target: Target, ghost before: Memory)
      returns (r: Result<CoreStatus, Failure>, hostStartAttempted: bool)
      requires ContextAvailable(context) && before.context == context && before.target == target
      modifies this`trace
      ensures var (t, out) := RunFrom(adapters, 4, before, old(trace));
              trace == t && r == if out.Ok? then Ok(out.value.status) else Err(out.error)
      ensures hostStartAttempted <==> HostAttempted(trace, |old(trace)|)
    {
      hide RunFrom, Judge, Called, Ask, AfterFailure, BindTarget, StatusFailure, CORE_START_FAILURES, StageAt,
        CommandAvailable, IsReference;
      ghost var m, t := before, trace;

      AtNotCancelled(adapters, 4, m, t);
      var f := RequireNotCancelled();
      if f.Some? { return Err(f.value), false; }

      t := trace; AtRecheck(adapters, 5, m, t);
      f := RequireTarget(target);
      if f.Some? { return Err(f.value), false; }

      hostStartAttempted := true;
      HostIsAttempted(adapters, m, trace, old(trace));
      r := Launch(context, target, m);
    }

    /** The part of a start that may leave a host behind. */
    method Launch(context: AccessContext, target: Target, ghost before: Memory) returns (r: Result<CoreStatus, Failure>)
      requires ContextAvailable(context) && before.context == context && before.target == target
      modifies this`trace
      ensures var (t, out) := RunFrom(adapters, HOST_START, before, old(trace));
              trace == t && r == if out.Ok? then Ok(out.value.status) else Err(out.error)
    {
      hide RunFrom, Judge, Called, Ask, AfterFailure, BindTarget, StatusFailure, CORE_START_FAILURES, StageAt,
        CommandAvailable, IsReference;
      ghost var m, t := before, trace;

      AtHostStart(adapters, m, t);
      trace := trace + [StartHost];
      var started := adapters.startHost(trace);
      if started.Err? { return Err(Surface(started.error, AdapterFailure, false, KeepNothing)); }

      t := trace; AtControlChannel(adapters, m, t);
      trace := trace + [WaitControlChannel];
      var channel := adapters.waitControlChannel(trace);
      if channel.Err? { return Err(Surface(channel.error, AdapterFailure, false, KeepNothing)); }

      t := trace; AtCatalog(adapters, m, t);
      trace := trace + [ReadCatalog];
      var candidates := adapters.catalog(trace);
      if candidates.Err? { return Err(Surface(candidates.error, RuntimeConfigurationUnavailable, true, KeepNothing)); }
      if |candidates.value| == 0 { return Err(Failure(RuntimeConfigurationUnavailable, true, false)); }
      if |candidates.value| != 1 { return Err(Plain(RuntimeConfigurationSelectionRequired)); }
      var selected := candidates.value[0];
      m := m.(selected := selected);

      t := trace; AtFreeze(adapters, m, t);
      trace := trace + [Validate(selected)];
      var frozen := adapters.validate(trace);
      if frozen.Err? { return Err(Surface(frozen.error, RuntimeConfigurationUnavailable, true, KeepNothing)); }
      if frozen.value != selected { return Err(Failure(RuntimeConfigurationUnavailable, true, false)); }

      r := Confirm(context, target, frozen.value, m);
    }

    /** The challenge, and the target bound to the configuration. */
    method Confirm(context: AccessContext, target: Target, frozen: Candidate, ghost before: Memory)
      returns (r: Result<CoreStatus, Failure>)
      requires ContextAvailable(context) && before.context == context && before.target == target
      requires before.selected == frozen
      modifies this`trace
      ensures var (t, out) := RunFrom(adapters, 10, before, old(trace));
              trace == t && r == if out.Ok? then Ok(out.value.status) else Err(out.error)
    {
      hide RunFrom, Judge, Called, Ask, AfterFailure, BindTarget, StatusFailure, CORE_START_FAILURES, StageAt,
        CommandAvailable, IsReference;
      ghost var m, t := before, trace;

      AtRecheck(adapters, 10, m, t);
      var f := RequireTarget(target);
      if f.Some? { return Err(f.value); }

      t := trace; AtChallenge(adapters, m, t);
      trace := trace + [RequestChallenge];
      var challenge := adapters.challenge(trace);
      if challenge.Err? { return Err(Surface(challenge.error, ChallengeUnavailable, true, KeepNothing)); }
      m := m.(challenge := challenge.value);

      t := trace; AtRecheck(adapters, 12, m, t);
      f := RequireTarget(target);
      if f.Some? { return Err(f.value); }

      t := trace; AtBind(adapters, m, t);
      var bound := BindTarget(frozen, target);
      if bound.Err? { return Err(bound.error); }
      m := m.(command := bound.value);

      r := Authorize(context, target, challenge.value, bound.value, m);
    }

    /** The permit, the last checks and the START itself. */
    method Authorize(context: AccessContext, target: Target, challenge: string, command: BoundCommand,
        ghost before: Memory)
      returns (r: Result<CoreStatus, Failure>)
      requires ContextAvailable(context) && before.context == context && before.target == target
      requires before.challenge == challenge && before.command == command
      modifies this`trace
      ensures var (t, out) := RunFrom(adapters, 14, before, old(trace));
              trace == t && r == if out.Ok? then Ok(out.value.status) else Err(out.error)
    {
      hide RunFrom, Judge, Called, Ask, AfterFailure, BindTarget, StatusFailure, CORE_START_FAILURES, StageAt,
        CommandAvailable, IsReference;
      ghost var m, t := before, trace;

      AtPermit(adapters, m, t);
      trace := trace + [IssueAuthorization(context.transport.value, challenge)];
      var authorization := adapters.authorize(trace);
      if authorization.Err? { return Err(Surface(authorization.error, AdapterFailure, false, KeepPermit)); }
      if authorization.value.None? { return Err(Plain(AdapterFailure)); }
      m := m.(bundle := authorization.value.value);

      t := trace; AtNotCancelled(adapters, 15, m, t);
      var f := RequireNotCancelled();
      if f.Some? { return Err(f.value); }

      t := trace; AtRecheck(adapters, 16, m, t);
      f := RequireTarget(target);
      if f.Some? { return Err(f.value); }

      r := SendStart(command, authorization.value.value, m);
    }

    /** The START command, framed by two looks at the owned process. */
    method SendStart(command: BoundCommand, bundle: Bundle, ghost before: Memory)
      returns (r: Result<CoreStatus, Failure>)
      requires before.context.transport.Some? && before.command == command && before.bundle == bundle
      modifies this`trace
      ensures var (t, out) := RunFrom(adapters, 17, before, old(trace));
              trace == t && r == if out.Ok? then Ok(out.value.status) else Err(out.error)
    {
      hide RunFrom, Judge, Called, Ask, AfterFailure, BindTarget, StatusFailure, CORE_START_FAILURES, StageAt,
        CommandAvailable, IsReference;
      ghost var m, t := before, trace;

      AtOwnerCheck(adapters, 17, m, t);
      trace := trace + [OwnedPid];
      var owned := adapters.ownedPid(trace);
      if owned.Err? { return Err(Surface(owned.error, AdapterFailure, false, KeepNothing)); }

      t := trace; AtStartCore(adapters, m, t);
      trace := trace + [StartAuthorized(command, bundle)];
      var status := adapters.startAuthorized(trace);
      if status.Err? {
        trace := trace + [OwnedPid];
        return Err(Surface(status.error, AdapterFailure, false, KeepNothing));
      }
      m := m.(status := status.value);

      t := trace; AtOwnerCheck(adapters, 19, m, t);
      trace := trace + [OwnedPid];
      var confirmed := adapters.ownedPid(trace);
      if confirmed.Err? { return Err(Surface(confirmed.error, AdapterFailure, false, KeepNothing)); }

      t := trace; AtRequireRunning(adapters, m, t); Finished(adapters, m, t);
      var f := StatusFailure(status.value);
      if f.Some? { return Err(f.value); }
      return Ok(status.value);
    }

    /** The lock is free again after every start that took it. */
    method StartOnce(command: Option<StartCommand>, context: AccessContext) returns (r: Result<CoreStatus, Failure>)
      modifies this
      ensures (trace, r) == Start(adapters, old(singleFlight), command, context, old(trace))
      ensures singleFlight == old(singleFlight)
    {
      if command.Some? && !CommandAvailable(command.value) { return Err(Plain(ConfigurationUnavailable)); }
      if !ContextAvailable(context) { return Err(Plain(AuthorizationContextUnavailable)); }
      if singleFlight { return Err(Plain(DuplicateStart)); }
      singleFlight := true;
      trace := trace + [Acquire];

      hide RunFrom;
      var hostStartAttempted;
      r, hostStartAttempted := Attempt(context);
      if r.Err? && hostStartAttempted {
        trace := trace + [BeginCleanup];
        var outcome := ShutdownOwnedHost();
      }
      singleFlight := false;
      trace := trace + [Release];
    }
  }

  lemma Unroll(a: Adapters, k: nat, m: Memory, t: Trace)
    requires k < STAGES && m.context.transport.Some?
    ensures var t' := Called(StageAt(k), m, t);
      var judged := Judge(a, StageAt(k), m, t');
      RunFrom(a, k, m, t) == if judged.Ok? then RunFrom(a, k + 1, judged.value, t')
        else (AfterFailure(StageAt(k), t'), Err(judged.error))
  {
    hide Called, Judge, AfterFailure, StageAt;
  }

  // What each stage leads to, for each answer it may get.

  lemma AtNotCancelled(a: Adapters, k: nat, m: Memory, t: Trace)
    requires k in {0, 2, 4, 15} && m.context.transport.Some?
    ensures var u := t + [ReadCancelled];
      RunFrom(a, k, m, t) == if a.cancelled(u) then (u, Err(Plain(Cancelled))) else RunFrom(a, k + 1, m, u)
  {
    hide RunFrom, BindTarget, StatusFailure, CORE_START_FAILURES;
    Unroll(a, k, m, t);
  }

  lemma AtAwaitTarget(a: Adapters, m: Memory, t: Trace)
    requires m.context.transport.Some?
    ensures var u := t + [WaitTarget];
      RunFrom(a, 1, m, t) ==
        if a.waitTarget(u).Err? then (u, Err(Surface(a.waitTarget(u).error, TargetUnavailable, true, KeepNothing)))
        else if a.waitTarget(u).value.None? then (u, Err(Failure(TargetUnavailable, true, false)))
        else RunFrom(a, 2, m.(target := a.waitTarget(u).value.value), u)
  {
    hide RunFrom, BindTarget, StatusFailure, CORE_START_FAILURES;
    Unroll(a, 1, m, t);
  }

  lemma AtHeartbeat(a: Adapters, m: Memory, t: Trace)
    requires m.context.transport.Some?
    ensures var u := t + [RequireFresh(m.context.sessionId, m.context.installationKeyHash)];
      RunFrom(a, 3, m, t) ==
        if a.requireFresh(u).Err? then
          (u, Err(Surface(a.requireFresh(u).error, HeartbeatUnavailable, true, KeepAuthority)))
        else RunFrom(a, 4, m, u)
  {
    hide RunFrom, BindTarget, StatusFailure, CORE_START_FAILURES;
    Unroll(a, 3, m, t);
  }

  lemma AtRecheck(a: Adapters, k: nat, m: Memory, t: Trace)
    requires k in {5, 10, 12, 16} && m.context.transport.Some?
    ensures var u := t + [SameTarget(m.target)];
      RunFrom(a, k, m, t) ==
        if a.sameTarget(u).Err? then (u, Err(Plain(ProcessObservationUnavailable)))
        else if !a.sameTarget(u).value then (u, Err(Plain(TargetExited)))
        else RunFrom(a, k + 1, m, u)
  {
    hide RunFrom, BindTarget, StatusFailure, CORE_START_FAILURES;
    Unroll(a, k, m, t);
  }

  lemma AtHostStart(a: Adapters, m: Memory, t: Trace)
    requires m.context.transport.Some?
    ensures var u := t + [StartHost];
      RunFrom(a, 6, m, t) == if a.startHost(u).Err? then (u, Err(Plain(AdapterFailure))) else RunFrom(a, 7, m, u)
  {
    hide RunFrom, BindTarget, StatusFailure, CORE_START_FAILURES;
    Unroll(a, 6, m, t);
  }

  lemma AtControlChannel(a: Adapters, m: Memory, t: Trace)
    requires m.context.transport.Some?
    ensures var u := t + [WaitControlChannel];
      RunFrom(a, 7, m, t) == if a.waitControlChannel(u).Err? then (u, Err(Plain(AdapterFailure)))
        else RunFrom(a, 8, m, u)
  {
    hide RunFrom, BindTarget, StatusFailure, CORE_START_FAILURES;
    Unroll(a, 7, m, t);
  }

  lemma AtCatalog(a: Adapters, m: Memory, t: Trace)
    requires m.context.transport.Some?
    ensures var u := t + [ReadCatalog];
      RunFrom(a, 8, m, t) ==
        if a.catalog(u).Err? || |a.catalog(u).value| == 0 then
          (u, Err(Failure(RuntimeConfigurationUnavailable, true, false)))
        else if |a.catalog(u).value| != 1 then (u, Err(Plain(RuntimeConfigurationSelectionRequired)))
        else RunFrom(a, 9, m.(selected := a.catalog(u).value[0]), u)
  {
    hide RunFrom, BindTarget, StatusFailure, CORE_START_FAILURES;
    Unroll(a, 8, m, t);
  }

  lemma AtFreeze(a: Adapters, m: Memory, t: Trace)
    requires m.context.transport.Some?
    ensures var u := t + [Validate(m.selected)];
      RunFrom(a, 9, m, t) ==
        if a.validate(u) != Ok(m.selected) then (u, Err(Failure(RuntimeConfigurationUnavailable, true, false)))
        else RunFrom(a, 10, m, u)
  {
    hide RunFrom, BindTarget, StatusFailure, CORE_START_FAILURES;
    Unroll(a, 9, m, t);
  }

  lemma AtChallenge(a: Adapters, m: Memory, t: Trace)
    requires m.context.transport.Some?
    ensures var u := t + [RequestChallenge];
      RunFrom(a, 11, m, t) ==
        if a.challenge(u).Err? then (u, Err(Failure(ChallengeUnavailable, true, false)))
        else RunFrom(a, 12, m.(challenge := a.challenge(u).value), u)
  {
    hide RunFrom, BindTarget, StatusFailure, CORE_START_FAILURES;
    Unroll(a, 11, m, t);
  }

  lemma AtBind(a: Adapters, m: Memory, t: Trace)
    requires m.context.transport.Some?
    ensures
      RunFrom(a, 13, m, t) ==
        if BindTarget(m.selected, m.target).Err? then (t, Err(BindTarget(m.selected, m.target).error))
        else RunFrom(a, 14, m.(command := BindTarget(m.selected, m.target).value), t)
  {
    hide RunFrom, BindTarget, StatusFailure, CORE_START_FAILURES;
    Unroll(a, 13, m, t);
  }

  lemma AtPermit(a: Adapters, m: Memory, t: Trace)
    requires m.context.transport.Some?
    ensures var u := t + [IssueAuthorization(m.context.transport.value, m.challenge)];
      RunFrom(a, 14, m, t) ==
        if a.authorize(u).Err? then (u, Err(Surface(a.authorize(u).error, AdapterFailure, false, KeepPermit)))
        else if a.authorize(u).value.None? then (u, Err(Plain(AdapterFailure)))
        else RunFrom(a, 15, m.(bundle := a.authorize(u).value.value), u)
  {
    hide RunFrom, BindTarget, StatusFailure, CORE_START_FAILURES;
    Unroll(a, 14, m, t);
  }

  lemma AtOwnerCheck(a: Adapters, k: nat, m: Memory, t: Trace)
    requires k in {17, 19} && m.context.transport.Some?
    ensures var u := t + [OwnedPid];
      RunFrom(a, k, m, t) == if a.ownedPid(u).Err? then (u, Err(Plain(AdapterFailure))) else RunFrom(a, k + 1, m, u)
  {
    hide RunFrom, BindTarget, StatusFailure, CORE_START_FAILURES;
    Unroll(a, k, m, t);
  }

  lemma AtStartCore(a: Adapters, m: Memory, t: Trace)
    requires m.context.transport.Some?
    ensures var u := t + [StartAuthorized(m.command, m.bundle)];
      RunFrom(a, 18, m, t) ==
        if a.startAuthorized(u).Err? then (u + [OwnedPid], Err(Plain(AdapterFailure)))
        else RunFrom(a, 19, m.(status := a.startAuthorized(u).value), u)
  {
    hide RunFrom, BindTarget, StatusFailure, CORE_START_FAILURES;
    Unroll(a, 18, m, t);
  }

  lemma AtRequireRunning(a: Adapters, m: Memory, t: Trace)
    requires m.context.transport.Some?
    ensures
      RunFrom(a, 20, m, t) ==
        if StatusFailure(m.status).Some? then (t, Err(StatusFailure(m.status).value)) else RunFrom(a, 21, m, t)
  {
    hide RunFrom, BindTarget, StatusFailure, CORE_START_FAILURES;
    Unroll(a, 20, m, t);
  }

  lemma {:induction false} OnlyExtends(a: Adapters, k: nat, m: Memory, t: Trace)
    requires k <= STAGES && m.context.transport.Some?
    ensures t <= RunFrom(a, k, m, t).0
    decreases STAGES - k
  {
    hide StageAt, Judge, Ask;
    if k < STAGES {
      var t' := Called(StageAt(k), m, t);
      var judged := Judge(a, StageAt(k), m, t');
      if judged.Ok? { OnlyExtends(a, k + 1, judged.value, t'); }
    }
  }

  lemma EarlierCallsStartNoHost(before: Trace, calls: Trace, t: Trace)
    requires before + calls <= t && StartHost !in calls
    ensures HostAttempted(t, |before|) <==> HostAttempted(t, |before| + |calls|)
  {
    forall k | |before| <= k < |before| + |calls| ensures t[k] != StartHost {
      assert t[k] == calls[k - |before|];
    }
  }

  lemma HostIsAttempted(a: Adapters, m: Memory, t: Trace, before: Trace)
    requires m.context.transport.Some? && before <= t
    ensures HostAttempted(RunFrom(a, HOST_START, m, t).0, |before|)
  {
    AtHostStart(a, m, t);
    var u := t + [StartHost];
    if a.startHost(u).Ok? { OnlyExtends(a, HOST_START + 1, m, u); }
    assert RunFrom(a, HOST_START, m, t).0[|t|] == StartHost;
  }

  lemma Finished(a: Adapters, m: Memory, t: Trace)
    requires m.context.transport.Some?
    ensures RunFrom(a, STAGES, m, t) == (t, Ok(m))
  {
  }
}
