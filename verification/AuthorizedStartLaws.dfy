/** What one authorized start guarantees, whatever the adapters answer. */
module AuthorizedStartLaws {
  import opened Prelude
  import opened AuthorizedStart

  // ---- the pipeline, told without running it --------------------------------------------------

  /** The calls of the first `k` stages when the run gathers `m`. */
  function Calls(m: Memory, k: nat): (calls: Trace)
    requires k <= STAGES && m.context.transport.Some?
    ensures |calls| == if k <= 13 then k else if k < STAGES then k - 1 else k - 2
  {
    if k == 0 then [] else Called(StageAt(k - 1), m, Calls(m, k - 1))
  }

  /** What is known before stage `k`: the answers still to come are blank. */
  function Before(m: Memory, k: nat): Memory {
    var none := Fresh(m.context);
    Memory(m.context,
      if k > 1 then m.target else none.target,
      if k > 8 then m.selected else none.selected,
      if k > 11 then m.challenge else none.challenge,
      if k > 13 then m.command else none.command,
      if k > 14 then m.bundle else none.bundle,
      if k > 18 then m.status else none.status)
  }

  /** Stage `j` is passed: judged on the answer it got, it changes nothing in the final memory. */
  predicate Passed(a: Adapters, m: Memory, t: Trace, j: nat)
    requires j < STAGES && m.context.transport.Some?
  {
    Judge(a, StageAt(j), m, t + Calls(m, j + 1)) == Ok(m)
  }

  /** A run is determined by where it stops: the first `k` stages pass on the answers gathered in `m`, and stage `k`,
      if there is one left, does not. */
  predicate Stops(a: Adapters, m: Memory, t: Trace, k: nat, r: (Trace, Result<Memory, Failure>))
    requires k <= STAGES && m.context.transport.Some?
  {
    && (forall j | 0 <= j < k :: Passed(a, m, t, j))
    && (k == STAGES ==> r == (t + Calls(m, k), Ok(m)))
    && (k < STAGES ==>
          && Before(m, k) == m
          && var t' := t + Calls(m, k + 1);
             var judged := Judge(a, StageAt(k), m, t');
             judged.Err? && r == (AfterFailure(StageAt(k), t'), Err(judged.error)))
  }

  lemma StageSeesOnlyThePast(a: Adapters, m: Memory, t: Trace, k: nat)
    requires k < STAGES && m.context.transport.Some?
    ensures Ask(StageAt(k), Before(m, k)) == Ask(StageAt(k), m)
    ensures Judge(a, StageAt(k), m, t) == Ok(m) <==> Judge(a, StageAt(k), Before(m, k), t) == Ok(Before(m, k + 1))
    ensures Judge(a, StageAt(k), m, t).Err? ==> Judge(a, StageAt(k), m, t) == Judge(a, StageAt(k), Before(m, k), t)
  {
  }

  lemma StageAddsItsAnswer(a: Adapters, m: Memory, t: Trace, k: nat)
    requires k < STAGES && Before(m, k) == m
    ensures Judge(a, StageAt(k), m, t).Ok? ==>
      var m' := Judge(a, StageAt(k), m, t).value;
      Before(m', k + 1) == m' && Before(m', k) == m
  {
  }

  lemma {:induction false} CallsLookBack(m: Memory, m': Memory, k: nat)
    requires k <= STAGES && m.context.transport.Some? && Before(m, k) == Before(m', k)
    ensures m'.context == m.context && Calls(m, k) == Calls(m', k)
  {
    if k > 0 {
      assert Before(m, k - 1) == Before(Before(m, k), k - 1) && Before(m', k - 1) == Before(Before(m', k), k - 1);
      CallsLookBack(m, m', k - 1);
      AsksLookBack(m, m', k - 1);
    }
  }

  lemma AsksLookBack(m: Memory, m': Memory, k: nat)
    requires k < STAGES && m.context.transport.Some? && Before(m, k) == Before(m', k)
    ensures m'.context == m.context && Ask(StageAt(k), m) == Ask(StageAt(k), m')
  {
  }

  lemma {:induction false} RunStops(a: Adapters, k: nat, m: Memory, t: Trace) returns (n: nat, whole: Memory)
    requires k <= STAGES && m.context.transport.Some? && Before(m, k) == m
    ensures k <= n <= STAGES && whole.context == m.context && Before(whole, k) == m
    ensures forall j | k <= j < n :: Passed(a, whole, t, j)
    ensures n == STAGES ==> RunFrom(a, k, m, t + Calls(m, k)) == (t + Calls(whole, n), Ok(whole))
    ensures n < STAGES ==>
      && Before(whole, n) == whole
      && var t' := t + Calls(whole, n + 1);
         var judged := Judge(a, StageAt(n), whole, t');
         judged.Err? && RunFrom(a, k, m, t + Calls(m, k)) == (AfterFailure(StageAt(n), t'), Err(judged.error))
    decreases STAGES - k
  {
    hide Judge, StageAt, Ask, AfterFailure;
    if k == STAGES { return k, m; }
    var t' := Called(StageAt(k), m, t + Calls(m, k));
    assert t' == t + Calls(m, k + 1);
    var judged := Judge(a, StageAt(k), m, t');
    if judged.Err? { return k, m; }
    var m' := judged.value;
    StageAddsItsAnswer(a, m, t', k);
    assert Before(m', k) == m;
    CallsLookBack(m, m', k);
    AsksLookBack(m, m', k);
    assert t' == t + Calls(m', k + 1);
    n, whole := RunStops(a, k + 1, m', t);
    assert Before(whole, k) == Before(Before(whole, k + 1), k);
    CallsLookBack(whole, m', k + 1);
    StageSeesOnlyThePast(a, whole, t', k);
    assert Passed(a, whole, t, k);
  }

  lemma {:induction false} StopsIsRun(a: Adapters, m: Memory, t: Trace, n: nat, r: (Trace, Result<Memory, Failure>),
      k: nat)
    requires k <= n <= STAGES && m.context.transport.Some? && Stops(a, m, t, n, r)
    ensures RunFrom(a, k, Before(m, k), t + Calls(m, k)) == r
    decreases n - k
  {
    hide Judge, StageAt, Ask, AfterFailure;
    if k == STAGES {
      assert Before(m, k) == m;
    } else {
      var t' := t + Calls(m, k + 1);
      AsksLookBack(m, Before(m, k), k);
      assert t' == Called(StageAt(k), Before(m, k), t + Calls(m, k));
      if k < n {
        assert Passed(a, m, t, k);
        StageSeesOnlyThePast(a, m, t', k);
        StopsIsRun(a, m, t, n, r, k + 1);
      }
    }
  }

  /** The pipeline meets its declarative reading: it ends in a result exactly when some memory and some stopping stage
      account for that result. */
  lemma RunMeans(a: Adapters, context: AccessContext, t: Trace, r: (Trace, Result<Memory, Failure>))
    requires context.transport.Some?
    ensures RunFrom(a, 0, Fresh(context), t) == r
      <==> exists k: nat, m: Memory :: k <= STAGES && m.context == context && Stops(a, m, t, k, r)
  {
    hide Judge, StageAt, Ask, AfterFailure, RunFrom;
    var m0 := Fresh(context);
    assert t + Calls(m0, 0) == t;
    var n, whole := RunStops(a, 0, m0, t);
    if RunFrom(a, 0, m0, t) == r {
      assert Stops(a, whole, t, n, r);
    }
    forall k: nat, m: Memory | k <= STAGES && m.context == context && Stops(a, m, t, k, r)
      ensures RunFrom(a, 0, m0, t) == r
    {
      StopsIsRun(a, m, t, k, r, 0);
      assert Before(m, 0) == m0 && t + Calls(m, 0) == t;
    }
  }

  // ---- which calls appear where ---------------------------------------------------------------

  /** A call the pipeline itself makes, as opposed to the lock and the shutdown. */
  predicate OfPipeline(op: Op) {
    !op.Acquire? && !op.Release? && !op.BeginCleanup? && !op.ShutdownCore? && !op.WaitExit? && !op.Terminate?
  }

  lemma {:induction false} CallsKinds(m: Memory, k: nat)
    requires k <= STAGES && m.context.transport.Some?
    ensures forall i :: 0 <= i < |Calls(m, k)| ==>
      var op := Calls(m, k)[i];
      && OfPipeline(op)
      && (op.StartHost? ==> k > HOST_START)
      && (op.IssueAuthorization? ==> k > 14)
      && (op.StartAuthorized? ==> k > 18 && i == 17)
  {
    if k > 0 { CallsKinds(m, k - 1); }
  }

  lemma {:induction false} CallsGrow(m: Memory, j: nat, k: nat)
    requires j <= k <= STAGES && m.context.transport.Some?
    ensures Calls(m, j) <= Calls(m, k)
  {
    if j < k { CallsGrow(m, j, k - 1); }
  }

  /** The calls of a shutdown, all aimed at the process seen when it began. */
  predicate OfShutdown(op: Op, pid: Option<int>) {
    op == OwnedPid || op == ShutdownCore || (pid.Some? && (op == WaitExit(pid.value) || op == Terminate(pid.value)))
  }

  function OwnedAtEntry(a: Adapters, t: Trace): Option<int> {
    match a.ownedPid(t + [OwnedPid]) case Ok(pid) => pid case Err(_) => None
  }

  lemma EmergencyIsLastResort(a: Adapters, pid: int, expired: bool, t: Trace)
    requires expired ==> t != [] && t[|t| - 1] == WaitExit(pid) && a.waitExit(t).Err?
    ensures var (t', used) := EmergencyTerminate(a, pid, expired, t);
      && t <= t' && (expired || t < t')
      && (forall i :: |t| <= i < |t'| ==> t'[i] == WaitExit(pid) || (t'[i] == Terminate(pid) && i == |t'| - 1))
      && (|t| < |t'| && t'[|t'| - 1].Terminate? ==>
            |t'| >= 2 && t'[|t'| - 2] == WaitExit(pid) && a.waitExit(t'[..|t'| - 1]).Err?)
      && (used <==> |t| < |t'| && t'[|t'| - 1].Terminate? && a.terminate(t').Ok?)
  {
    var waited := if expired then t else t + [WaitExit(pid)];
    var killed := waited + [Terminate(pid)];
    assert killed[..|killed| - 1] == waited && killed[|killed| - 2] == WaitExit(pid);
    if !expired && a.waitExit(waited).Ok? {
      assert EmergencyTerminate(a, pid, expired, t) == (waited, false);
    } else {
      assert EmergencyTerminate(a, pid, expired, t) == (killed, a.terminate(killed).Ok?);
    }
  }

  /** Forced termination is the last resort: it is the last call of the shutdown, it follows a wait for exit that
      failed, it aims at the process owned when the shutdown began, and an orderly shutdown never uses it. */
  lemma TerminatesOnlyTheOwnedChild(a: Adapters, t: Trace)
    ensures var (t', r) := Shutdown(a, t);
      && t + [OwnedPid] <= t'
      && (forall i :: |t| <= i < |t'| ==> OfShutdown(t'[i], OwnedAtEntry(a, t)))
      && (forall i :: |t| <= i < |t'| && t'[i].Terminate? ==>
            && i == |t'| - 1 && i > |t| + 1
            && t'[i - 1] == WaitExit(t'[i].pid) && a.waitExit(t'[..i]).Err?)
      && (r.Ok? ==> r.value == 0 && !t'[|t'| - 1].Terminate?)
      && ((r.Err? && r.error.ShutdownFailure? && r.error.fallbackUsed)
           <==> t'[|t'| - 1].Terminate? && a.terminate(t').Ok?)
  {
    hide EmergencyTerminate;
    var t0 := t + [OwnedPid];
    var owned := a.ownedPid(t0);
    if owned.Ok? && owned.value.Some? {
      var pid, t1 := owned.value.value, t0 + [ShutdownCore];
      var reply := a.shutdownCore(t1);
      if reply.Err? || reply.value.kind != Stopped {
        EmergencyIsLastResort(a, pid, false, t1);
      } else if a.waitExit(t1 + [WaitExit(pid)]).Err? {
        EmergencyIsLastResort(a, pid, true, t1 + [WaitExit(pid)]);
      }
    }
  }

  // ---- the guarantees of a start --------------------------------------------------------------

  /** A start got past its guards and took the lock. */
  predicate Admitted(held: bool, command: Option<StartCommand>, context: AccessContext) {
    (command.Some? ==> CommandAvailable(command.value)) && ContextAvailable(context) && !held
  }

  lemma OnlyTheAdmittedCall(a: Adapters, held: bool, command: Option<StartCommand>, context: AccessContext, t: Trace)
    ensures !Admitted(held, command, context) ==> Start(a, held, command, context, t).0 == t
  {}

  /** Either the pipeline's calls and nothing else, or those followed by one cleanup; then the lock is given back. */
  predicate Shape(a: Adapters, t: Trace, t': Trace, pipeline: Trace, cleaned: bool) {
    && t + [Acquire] <= pipeline
    && (forall i :: |t| < i < |pipeline| ==> OfPipeline(pipeline[i]))
    && t' == (if cleaned then Shutdown(a, pipeline + [BeginCleanup]).0 else pipeline) + [Release]
  }

  /** Where and with what the pipeline stops. */
  lemma WhereItStops(a: Adapters, context: AccessContext, t: Trace) returns (k: nat, m: Memory)
    requires context.transport.Some?
    ensures k <= STAGES && m.context == context && Stops(a, m, t, k, RunFrom(a, 0, Fresh(context), t))
  {
    hide Judge, StageAt, Ask, RunFrom, Stops, AfterFailure;
    RunMeans(a, context, t, RunFrom(a, 0, Fresh(context), t));
    k, m :| k <= STAGES && m.context == context && Stops(a, m, t, k, RunFrom(a, 0, Fresh(context), t));
  }

  lemma StartShape(a: Adapters, held: bool, command: Option<StartCommand>, context: AccessContext, t: Trace)
    requires Admitted(held, command, context)
    ensures var (t', r) := Start(a, held, command, context, t);
      var p := RunFrom(a, 0, Fresh(context), t + [Acquire]).0;
      Shape(a, t, t', p, r.Err? && HostAttempted(p, |t| + 1))
  {
    hide Judge, StageAt, Ask, RunFrom, Shutdown;
    var u := t + [Acquire];
    var k, m := WhereItStops(a, context, u);
    CallsKinds(m, if k < STAGES then k + 1 else k);
  }

  /** Cleanup happens exactly once, after the pipeline and before the lock is released, when a start fails after the
      host may have been created; in every other case not at all. */
  lemma CleanupExactlyOnce(a: Adapters, held: bool, command: Option<StartCommand>, context: AccessContext, t: Trace)
    requires Admitted(held, command, context)
    ensures var (t', r) := Start(a, held, command, context, t);
      exists pipeline, cleaned :: Shape(a, t, t', pipeline, cleaned)
        && (cleaned <==> r.Err? && HostAttempted(pipeline, |t| + 1))
  {
    hide *;
    StartShape(a, held, command, context, t);
  }

  /** A start that returns has reached RUNNING. */
  lemma ReturnsRunning(a: Adapters, held: bool, command: Option<StartCommand>, context: AccessContext, t: Trace)
    ensures var r := Start(a, held, command, context, t).1;
      r.Ok? ==> r.value.kind == Running
  {
    if Admitted(held, command, context) {
      hide StageAt, Ask, RunFrom, Shutdown, Judge;
      var k, m := WhereItStops(a, context, t + [Acquire]);
      if k == STAGES {
        assert Passed(a, m, t + [Acquire], 20);
        LastStage(a, m, t + [Acquire]);
      }
    }
  }

  lemma LastStage(a: Adapters, m: Memory, t: Trace)
    requires m.context.transport.Some? && Passed(a, m, t, 20)
    ensures m.status.kind == Running
  {
  }

  /** A failure the caller may simply retry leaves no permit behind: none was requested in that attempt. */
  lemma RetrySafeMeansNoPermit(a: Adapters, held: bool, command: Option<StartCommand>, context: AccessContext, t: Trace)
    ensures var (t', r) := Start(a, held, command, context, t);
      r.Err? && r.error.retrySafe ==> forall i :: |t| <= i < |t'| ==> !t'[i].IssueAuthorization?
  {
    if Admitted(held, command, context) {
      var (t', r) := Start(a, held, command, context, t);
      var u := t + [Acquire];
      var p := RunFrom(a, 0, Fresh(context), u);
      assert p.1.Err? <==> r.Err?;
      assert r.Err? ==> p.1 == Err(r.error);
      hide StageAt, Ask, RunFrom, Start, Shutdown, Judge, Shape;
      var k, m := WhereItStops(a, context, u);
      if r.Err? && r.error.retrySafe {
        RetrySafeStages(a, m, u + Calls(m, k + 1), k);
        CallsKinds(m, k + 1);
        StartShape(a, held, command, context, t);
        var cleaned :| Shape(a, t, t', p.0, cleaned);
        forall i | |t| <= i < |t'| ensures !t'[i].IssueAuthorization? {
          if t'[i].IssueAuthorization? { InPipeline(a, t, t', p.0, cleaned, i); }
        }
      }
    }
  }

  lemma RetrySafeStages(a: Adapters, m: Memory, t: Trace, k: nat)
    requires k < STAGES && Judge(a, StageAt(k), m, t).Err? && Judge(a, StageAt(k), m, t).error.retrySafe
    ensures k < 14 && AfterFailure(StageAt(k), t) == t
  {
  }

  /** The calls of a start by their place in its trace. */
  lemma ShapeAt(a: Adapters, t: Trace, t': Trace, pipeline: Trace, cleaned: bool, i: nat)
    requires Shape(a, t, t', pipeline, cleaned) && |t| <= i < |t'|
    ensures |t| < |pipeline| && pipeline < t' && pipeline[|t|] == Acquire
    ensures i < |pipeline| ==> t'[i] == pipeline[i] && (t'[i] == Acquire || OfPipeline(t'[i]))
    ensures !cleaned ==> |t'| == |pipeline| + 1
    ensures i == |t'| - 1 ==> t'[i] == Release
    ensures cleaned ==>
      var s := pipeline + [BeginCleanup];
      var end := Shutdown(a, s).0;
      && s <= end < t' && |t'| == |end| + 1
      && (i >= |s| && t'[i] != Release ==> t'[i] == end[i] && OfShutdown(t'[i], OwnedAtEntry(a, s)))
  {
    hide Shutdown, OwnedAtEntry;
    if cleaned {
      var s := pipeline + [BeginCleanup];
      TerminatesOnlyTheOwnedChild(a, s);
      assert s <= Shutdown(a, s).0;
    }
  }

  lemma InPipeline(a: Adapters, t: Trace, t': Trace, pipeline: Trace, cleaned: bool, i: nat)
    requires Shape(a, t, t', pipeline, cleaned) && |t| <= i < |t'|
    requires t'[i].StartAuthorized? || t'[i].IssueAuthorization?
    ensures |t| < i < |pipeline| && pipeline < t' && t'[i] == pipeline[i]
  {
    hide Shape, Shutdown;
    ShapeAt(a, t, t', pipeline, cleaned, i);
  }

  /** In a start, only a cleanup terminates, and only the process owned when that cleanup began, after waiting for it
      in vain. */
  lemma StartTerminatesOnlyItsChild(a: Adapters, held: bool, command: Option<StartCommand>, context: AccessContext,
      t: Trace, i: nat)
    requires var t' := Start(a, held, command, context, t).0;
      |t| <= i < |t'| && t'[i].Terminate?
    ensures var t' := Start(a, held, command, context, t).0;
      exists c :: |t| < c < i - 2 && t'[c] == BeginCleanup
        && a.ownedPid(t'[..c + 1] + [OwnedPid]) == Ok(Some(t'[i].pid))
        && t'[i - 1] == WaitExit(t'[i].pid) && a.waitExit(t'[..i]).Err?
  {
    hide Start, RunFrom, Shutdown, Shape, Admitted;
    var t' := Start(a, held, command, context, t).0;
    OnlyTheAdmittedCall(a, held, command, context, t);
    CleanupExactlyOnce(a, held, command, context, t);
    var pipeline, cleaned :| Shape(a, t, t', pipeline, cleaned);
    ShapeAt(a, t, t', pipeline, cleaned, i);
    var s := pipeline + [BeginCleanup];
    var end := Shutdown(a, s).0;
    TerminatesOnlyTheOwnedChild(a, s);
    assert t'[..i] == end[..i] && t'[..|pipeline| + 1] == s && t'[|pipeline|] == BeginCleanup;
  }

  /** What stands behind a START command sent at `t'[i]`: `m` is what was learnt on the way. */
  predicate Cleared(a: Adapters, t: Trace, t': Trace, i: nat, m: Memory)
    requires i < |t'| && |t| + 18 <= i && m.context.transport.Some?
  {
    && i == |t| + 18 && t'[i] == StartAuthorized(m.command, m.bundle)
    && Admissible(a, t', |t| + 1, m)
    && Configured(a, t', |t| + 1, m)
    && Permitted(a, t', |t| + 1, m)
  }

  /** One process was found, the session was alive, the process still runs, nothing was cancelled. */
  predicate Admissible(a: Adapters, t: Trace, u: nat, m: Memory)
    requires u + 17 < |t| && m.context.transport.Some?
  {
    && !a.cancelled(t[..u + 1]) && !a.cancelled(t[..u + 3]) && !a.cancelled(t[..u + 5])
    && a.waitTarget(t[..u + 2]) == Ok(Some(m.target))
    && t[u + 3] == RequireFresh(m.context.sessionId, m.context.installationKeyHash) && a.requireFresh(t[..u + 4]).Ok?
    && StillRunning(a, t, u + 5, m.target)
  }

  /** The command names the configuration, by well-formed references, and the very process, by a pid of 32 bits. */
  predicate BoundTo(command: BoundCommand, candidate: Candidate, target: Target) {
    && command.profile == candidate.profile && IsReference("profile-", command.profile)
    && command.server == candidate.server && IsReference("server-", command.server)
    && target.pid == Some(command.pid) && 1 <= command.pid <= 4_294_967_295
  }

  /** Binding gives that command exactly when there is one. Without a pid the target is unavailable; with one, it is the
      configuration. Neither failure may simply be retried. */
  lemma BindingMeans(candidate: Candidate, target: Target, command: BoundCommand)
    ensures BindTarget(candidate, target) == Ok(command) <==> BoundTo(command, candidate, target)
    ensures BindTarget(candidate, target).Err? ==>
      BindTarget(candidate, target).error
        == Failure(if target.pid.None? then TargetUnavailable else ConfigurationUnavailable, false, false)
  {}

  /** A reference is its prefix and one to six decimal digits. */
  lemma ReferenceMeans(prefix: string, s: string)
    ensures IsReference(prefix, s)
      <==> exists digits :: s == prefix + digits && 1 <= |digits| <= 6 && forall k :: 0 <= k < |digits| ==>
             '0' <= digits[k] <= '9'
  {
    if IsReference(prefix, s) {
      var digits := s[|prefix|..];
      assert s == prefix + digits;
      assert forall k :: 0 <= k < |digits| ==> digits[k] == s[|prefix| + k];
    }
    forall digits: string | s == prefix + digits && 1 <= |digits| <= 6
      && forall k :: 0 <= k < |digits| ==> '0' <= digits[k] <= '9'
      ensures IsReference(prefix, s)
    {
      assert forall k :: |prefix| <= k < |s| ==> s[k] == digits[k - |prefix|];
    }
  }

  /** The Core offered one configuration and gave that very object back when asked to validate it; the command is that
      configuration bound to the process found. */
  predicate Configured(a: Adapters, t: Trace, u: nat, m: Memory)
    requires u + 17 < |t| && m.context.transport.Some?
  {
    && a.catalog(t[..u + 9]) == Ok([m.selected])
    && t[u + 9] == Validate(m.selected) && a.validate(t[..u + 10]) == Ok(m.selected)
    && StillRunning(a, t, u + 10, m.target)
    && BoundTo(m.command, m.selected, m.target)
  }

  /** The permit answers the Core's own challenge, and after it came the process is still the one running and the start
      still wanted. */
  predicate Permitted(a: Adapters, t: Trace, u: nat, m: Memory)
    requires u + 17 < |t| && m.context.transport.Some?
  {
    && a.challenge(t[..u + 12]) == Ok(m.challenge)
    && StillRunning(a, t, u + 12, m.target)
    && t[u + 13] == IssueAuthorization(m.context.transport.value, m.challenge)
    && a.authorize(t[..u + 14]) == Ok(Some(m.bundle))
    && !a.cancelled(t[..u + 15])
    && StillRunning(a, t, u + 15, m.target)
  }

  predicate StillRunning(a: Adapters, t: Trace, i: nat, target: Target)
    requires i < |t|
  {
    t[i] == SameTarget(target) && a.sameTarget(t[..i + 1]) == Ok(true)
  }

  /** No START command is ever sent that the pipeline has not cleared, and at most one is sent. */
  lemma NothingStartsUncleared(a: Adapters, held: bool, command: Option<StartCommand>, context: AccessContext, t: Trace,
      i: nat)
    requires var t' := Start(a, held, command, context, t).0;
      |t| <= i < |t'| && t'[i].StartAuthorized?
    ensures i == |t| + 18
    ensures context.transport.Some?
    ensures exists m: Memory ::
              m.context == context && Cleared(a, t, Start(a, held, command, context, t).0, i, m)
  {
    OnlyTheAdmittedCall(a, held, command, context, t);
    hide Judge, StageAt, Ask, RunFrom, Start, Shutdown, Shape, Stops, Passed, Cleared;
    var u := t + [Acquire];
    var t' := Start(a, held, command, context, t).0;
    var p := RunFrom(a, 0, Fresh(context), u);
    var k, m := WhereItStops(a, context, u);
    StartShape(a, held, command, context, t);
    var cleaned :| Shape(a, t, t', p.0, cleaned);
    InPipeline(a, t, t', p.0, cleaned, i);
    StartReached(a, m, u, k, p, i);
    assert u + Calls(m, 19) <= p.0 <= t';
    PassedIsCleared(a, m, t, t');
  }

  lemma StartReached(a: Adapters, m: Memory, u: Trace, k: nat, r: (Trace, Result<Memory, Failure>), i: nat)
    requires k <= STAGES && m.context.transport.Some? && Stops(a, m, u, k, r)
    requires |u| <= i < |r.0| && r.0[i].StartAuthorized?
    ensures i == |u| + 17 && u + Calls(m, 19) <= r.0
    ensures forall j: nat | j < 18 :: Passed(a, m, u, j)
  {
    hide Judge, StageAt, Ask, Passed;
    var n := if k < STAGES then k + 1 else k;
    CallsKinds(m, n);
    assert u + Calls(m, n) <= r.0;
    assert r.0[i] == Calls(m, n)[i - |u|];
    CallsGrow(m, 19, n);
  }

  /** What a passed stage, its call at `t[x]`, has learnt. */
  predicate StageCleared(a: Adapters, m: Memory, t: Trace, s: Stage, x: nat)
    requires x < |t| && m.context.transport.Some?
  {
    match s
    case NotCancelled => !a.cancelled(t[..x + 1])
    case AwaitTarget => a.waitTarget(t[..x + 1]) == Ok(Some(m.target))
    case Heartbeat => t[x] == RequireFresh(m.context.sessionId, m.context.installationKeyHash)
      && a.requireFresh(t[..x + 1]).Ok?
    case Recheck => StillRunning(a, t, x, m.target)
    case Catalog => a.catalog(t[..x + 1]) == Ok([m.selected])
    case Freeze => t[x] == Validate(m.selected) && a.validate(t[..x + 1]) == Ok(m.selected)
    case Challenge => a.challenge(t[..x + 1]) == Ok(m.challenge)
    case Bind => BoundTo(m.command, m.selected, m.target)
    case Permit =>
      t[x] == IssueAuthorization(m.context.transport.value, m.challenge)
        && a.authorize(t[..x + 1]) == Ok(Some(m.bundle))
    case _ => true
  }

  lemma StagePassed(a: Adapters, m: Memory, u: Trace, t: Trace, j: nat)
    requires j < 18 && m.context.transport.Some? && Passed(a, m, u, j)
    requires u + Calls(m, j + 1) <= t && |u| + |Calls(m, j)| < |t|
    ensures StageCleared(a, m, t, StageAt(j), |u| + |Calls(m, j)|)
  {
    var x := |u| + |Calls(m, j)|;
    var whole := u + Calls(m, j + 1);
    if Ask(StageAt(j), m).None? {
      assert j == 13 && StageAt(j) == Bind;
      var bound := BindTarget(m.selected, m.target);
      assert bound.Ok? && m.(command := bound.value) == m;
      assert bound.value == m.command;
    } else {
      assert whole[x] == Ask(StageAt(j), m).value && t[x] == whole[x];
      assert t[..x + 1] == whole;
      if StageAt(j) == Catalog {
        var offered := a.catalog(whole).value;
        assert offered == [offered[0]] && m.(selected := offered[0]) == m;
      }
    }
  }

  lemma SentCommand(m: Memory, u: Trace, t: Trace)
    requires m.context.transport.Some? && u + Calls(m, 19) <= t
    ensures t[|u| + 17] == StartAuthorized(m.command, m.bundle)
  {
    assert Ask(StageAt(18), m) == Some(StartAuthorized(m.command, m.bundle));
    assert Calls(m, 19)[17] == StartAuthorized(m.command, m.bundle);
  }

  lemma PassedIsCleared(a: Adapters, m: Memory, t: Trace, t': Trace)
    requires m.context.transport.Some? && t + [Acquire] + Calls(m, 19) <= t'
    requires forall j: nat | j < 18 :: Passed(a, m, t + [Acquire], j)
    ensures Cleared(a, t, t', |t| + 18, m)
  {
    hide Judge, StageAt, Ask, Passed, StageCleared, Admissible, Configured, Permitted, Called;
    forall j: nat | j < 18
      ensures StageCleared(a, m, t', StageAt(j), |t| + 1 + if j <= 13 then j else j - 1)
    {
      CallsGrow(m, j + 1, 19);
      StagePassed(a, m, t + [Acquire], t', j);
    }
    SentCommand(m, t + [Acquire], t');
    StagesClear(a, m, t', |t| + 1);
    LaterStagesClear(a, m, t', |t| + 1);
    assert Cleared(a, t, t', |t| + 18, m);
  }

  predicate StagesCleared(a: Adapters, m: Memory, t: Trace, u: nat)
    requires m.context.transport.Some? && u + 17 < |t|
  {
    forall j: nat | j < 18 :: StageCleared(a, m, t, StageAt(j), u + if j <= 13 then j else j - 1)
  }

  lemma StagesClear(a: Adapters, m: Memory, t: Trace, u: nat)
    requires m.context.transport.Some? && u + 17 < |t| && StagesCleared(a, m, t, u)
    ensures Admissible(a, t, u, m)
  {
    hide BindTarget, StillRunning;
    assert StageCleared(a, m, t, StageAt(0), u) && StageCleared(a, m, t, StageAt(1), u + 1);
    assert StageCleared(a, m, t, StageAt(2), u + 2) && StageCleared(a, m, t, StageAt(3), u + 3);
    assert StageCleared(a, m, t, StageAt(4), u + 4) && StageCleared(a, m, t, StageAt(5), u + 5);
  }

  lemma LaterStagesClear(a: Adapters, m: Memory, t: Trace, u: nat)
    requires m.context.transport.Some? && u + 17 < |t| && StagesCleared(a, m, t, u)
    ensures Configured(a, t, u, m) && Permitted(a, t, u, m)
  {
    hide BindTarget, StillRunning;
    assert Configured(a, t, u, m) by {
      assert StageCleared(a, m, t, StageAt(8), u + 8) && StageCleared(a, m, t, StageAt(9), u + 9);
      assert StageCleared(a, m, t, StageAt(10), u + 10) && StageCleared(a, m, t, StageAt(13), u + 13);
    }
    assert StageCleared(a, m, t, StageAt(11), u + 11) && StageCleared(a, m, t, StageAt(12), u + 12);
    assert StageCleared(a, m, t, StageAt(14), u + 13) && StageCleared(a, m, t, StageAt(15), u + 14);
    assert StageCleared(a, m, t, StageAt(16), u + 15);
  }
}
