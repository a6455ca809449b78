/** The bounded scheduler that reconnects the launcher's proxy by itself. */
module Reconnect {
  import opened Prelude

  datatype AuthStatus = SignedOut | Authenticating | Authenticated | Failed
                      | RecoveryCodeEntry | RecoveryVerifying | RecoveryPasswordChange

  /** What the scheduler reads of the application state; whether the entitlement is active already depends on the
      clock. */
  datatype AppState = AppState(
    shuttingDown: bool, suppressed: bool, gameRunning: bool,
    auth: AuthStatus, sessionId: Option<string>, entitlementActive: bool)

  datatype Attempt = Attempt(generation: int, attempt: int, delay: real)

  datatype Completion = Succeeded | Retry | Exhausted | Blocked | Failure

  const SECURITY_DENIALS: set<string> := {
    "AuthorizationRequired", "AuthorizationInvalid", "AuthorizationExpired", "AuthorizationReplay",
    "SessionInactive", "EntitlementInactive", "HeartbeatStale"}

  predicate Eligible(state: AppState, shuttingDown: bool) {
    && !shuttingDown && !state.shuttingDown && !state.suppressed
    && state.gameRunning && state.auth == Authenticated && state.sessionId.Some? && state.entitlementActive
  }

  predicate ValidBackoff(backoff: seq<real>) {
    backoff != [] && forall k :: 0 <= k < |backoff| ==> backoff[k] > 0.0
  }

  // ---- the scheduler as a state machine -----------------------------------------------------

  /** `holding` says that a cancellation event is outstanding. */
  datatype State = State(
    generation: int, attempts: int, armed: bool, blocked: bool,
    scheduled: Option<Attempt>, inFlight: Option<Attempt>, holding: bool)

  datatype Call =
    | ObserveRunning
    | Request(state: AppState, shuttingDown: bool)
    | Begin(attempt: Attempt, state: AppState, shuttingDown: bool)
    | Complete(attempt: Attempt, succeeded: bool, retrySafe: bool, code: Option<string>)
    | Cancel(resetAttempts: bool)

  /** What a call gives back: an attempt, a fresh cancellation event, a verdict, or nothing. */
  datatype Answer = Nothing | Issued(attempt: Attempt) | Started | Completed(verdict: Completion)

  const INITIAL := State(0, 0, false, false, None, None, false)

  predicate Idle(s: State) { s.scheduled.None? && s.inFlight.None? }

  function Step(backoff: seq<real>, s: State, c: Call): (State, Answer)
    requires s.attempts >= 0
  {
    match c
    case ObserveRunning =>
      if Idle(s) then (s.(armed := true, blocked := false, attempts := 0, holding := false), Nothing) else (s, Nothing)
    case Request(state, shuttingDown) =>
      if s.armed && !s.blocked && Idle(s) && s.attempts < |backoff| && Eligible(state, shuttingDown) then
        var a := Attempt(s.generation + 1, s.attempts + 1, backoff[s.attempts]);
        (s.(attempts := s.attempts + 1, generation := s.generation + 1, scheduled := Some(a)), Issued(a))
      else (s, Nothing)
    case Begin(a, state, shuttingDown) =>
      if s.scheduled != Some(a) then (s, Nothing)
      else if !Eligible(state, shuttingDown) then (s.(scheduled := None), Nothing)
      else (s.(scheduled := None, inFlight := Some(a), holding := true), Started)
    case Complete(a, succeeded, retrySafe, code) =>
      if s.inFlight != Some(a) then (s, Completed(Blocked))
      else
        var t := s.(inFlight := None, holding := false);
        if succeeded then (t.(attempts := 0, blocked := false, armed := false), Completed(Succeeded))
        else if code.Some? && code.value in SECURITY_DENIALS then
          (t.(blocked := true, armed := false), Completed(Blocked))
        else if retrySafe && t.attempts < |backoff| then (t, Completed(Retry))
        else (t.(blocked := true, armed := false), Completed(if retrySafe then Exhausted else Failure))
    case Cancel(resetAttempts) =>
      (State(s.generation + 1, if resetAttempts then 0 else s.attempts, false, false, None, None, false), Nothing)
  }

  // ---- every call sequence ------------------------------------------------------------------

  /** What every reachable state satisfies: at most one live attempt, it carries the current generation, its event is
      held exactly while it runs, and the scheduler stays armed while it lives. */
  predicate Consistent(backoff: seq<real>, s: State) {
    && 0 <= s.attempts <= |backoff|
    && (s.scheduled.None? || s.inFlight.None?)
    && (s.scheduled.Some? ==> s.scheduled.value.generation == s.generation)
    && (s.inFlight.Some? ==> s.inFlight.value.generation == s.generation)
    && (s.holding <==> s.inFlight.Some?)
    && (!Idle(s) ==> s.armed && s.attempts > 0)
    && (s.blocked ==> !s.armed)
  }

  lemma StepStaysConsistent(backoff: seq<real>, s: State, c: Call)
    requires Consistent(backoff, s)
    ensures Consistent(backoff, Step(backoff, s, c).0)
    ensures s.generation <= Step(backoff, s, c).0.generation
  {
  }

  function Run(backoff: seq<real>, s: State, calls: seq<Call>): (t: State)
    requires Consistent(backoff, s)
    ensures Consistent(backoff, t)
    ensures s.generation <= t.generation
    decreases |calls|
  {
    if calls == [] then s
    else
      StepStaysConsistent(backoff, s, calls[0]);
      Run(backoff, Step(backoff, s, calls[0]).0, calls[1..])
  }

  /** The delays handed out since the last `observe_running` that took effect, `sofar` being those before the calls. */
  function Delays(backoff: seq<real>, s: State, calls: seq<Call>, sofar: seq<real>): seq<real>
    requires Consistent(backoff, s)
    decreases |calls|
  {
    if calls == [] then sofar
    else
      StepStaysConsistent(backoff, s, calls[0]);
      var (t, answer) := Step(backoff, s, calls[0]);
      var next := if calls[0].ObserveRunning? && Idle(s) then []
        else if answer.Issued? then sofar + [answer.attempt.delay] else sofar;
      Delays(backoff, t, calls[1..], next)
  }

  /** While it is armed the scheduler counts exactly the delays it has handed out. */
  predicate Counts(backoff: seq<real>, s: State, sofar: seq<real>) {
    sofar <= backoff && (s.armed ==> s.attempts == |sofar|)
  }

  lemma {:induction false} DelaysFollowBackoffFrom(backoff: seq<real>, s: State, calls: seq<Call>, sofar: seq<real>)
    requires Consistent(backoff, s) && Counts(backoff, s, sofar)
    ensures Counts(backoff, Run(backoff, s, calls), Delays(backoff, s, calls, sofar))
    decreases |calls|
  {
    if calls != [] {
      StepStaysConsistent(backoff, s, calls[0]);
      var (t, answer) := Step(backoff, s, calls[0]);
      var next := if calls[0].ObserveRunning? && Idle(s) then []
        else if answer.Issued? then sofar + [answer.attempt.delay] else sofar;
      DelaysFollowBackoffFrom(backoff, t, calls[1..], next);
    }
  }

  /** In every call sequence, the delays handed out since the last effective `observe_running` are the first entries
      of the configured backoff, in order; before the first one there are none. */
  lemma DelaysFollowBackoff(backoff: seq<real>, calls: seq<Call>)
    ensures Delays(backoff, INITIAL, calls, []) <= backoff
    ensures (forall k :: 0 <= k < |calls| ==> !calls[k].ObserveRunning?) ==> Delays(backoff, INITIAL, calls, []) == []
  {
    DelaysFollowBackoffFrom(backoff, INITIAL, calls, []);
    if forall k :: 0 <= k < |calls| ==> !calls[k].ObserveRunning? { UnarmedIssuesNothing(backoff, INITIAL, calls, []); }
  }

  /** What completing the running attempt announces: RETRY exactly when the next eligible request is granted, and
      EXHAUSTED only when every delay of the backoff has been handed out. */
  lemma VerdictTellsWhatFollows(backoff: seq<real>, calls: seq<Call>, c: Call, state: AppState)
    requires c.Complete? && Run(backoff, INITIAL, calls).inFlight == Some(c.attempt) && Eligible(state, false)
    ensures var (t, answer) := Step(backoff, Run(backoff, INITIAL, calls), c);
      && answer.Completed?
      && t.attempts >= 0
      && (answer.verdict == Retry <==> Step(backoff, t, Request(state, false)).1.Issued?)
      && (answer.verdict == Exhausted ==> Delays(backoff, INITIAL, calls, []) == backoff)
  {
    DelaysFollowBackoffFrom(backoff, INITIAL, calls, []);
  }

  /** In every run, a request is granted exactly when the scheduler is armed, nothing is under way, a delay is left
      and the application wants its proxy back; and then with the next delay of the backoff, under a generation of
      its own. */
  lemma RequestMeans(backoff: seq<real>, calls: seq<Call>, app: AppState, shuttingDown: bool)
    ensures var s, handedOut := Run(backoff, INITIAL, calls), |Delays(backoff, INITIAL, calls, [])|;
      s.attempts >= 0 &&
      var (t, answer) := Step(backoff, s, Request(app, shuttingDown));
      && (answer.Issued? <==>
            && s.armed && s.scheduled == None && s.inFlight == None && handedOut < |backoff|
            && !shuttingDown && !app.shuttingDown && !app.suppressed && app.gameRunning && app.auth == Authenticated
            && app.sessionId != None && app.entitlementActive)
      && (answer.Issued? ==>
            && answer.attempt == Attempt(generation := s.generation + 1, attempt := handedOut + 1,
                 delay := backoff[handedOut])
            && t == s.(scheduled := Some(answer.attempt), generation := s.generation + 1, attempts := handedOut + 1))
      && (!answer.Issued? ==> t == s && answer == Nothing)
  {
    DelaysFollowBackoffFrom(backoff, INITIAL, calls, []);
  }

  /** The scheduled attempt begins exactly when the application still wants its proxy back; one that may not begin is
      dropped. */
  lemma BeginMeans(backoff: seq<real>, s: State, a: Attempt, app: AppState, shuttingDown: bool)
    requires Consistent(backoff, s) && s.scheduled == Some(a)
    ensures var (t, answer) := Step(backoff, s, Begin(a, app, shuttingDown));
      && (answer == Started <==>
            && !shuttingDown && !app.shuttingDown && !app.suppressed && app.gameRunning && app.auth == Authenticated
            && app.sessionId != None && app.entitlementActive)
      && t == s.(scheduled := None, inFlight := if answer == Started then Some(a) else None,
           holding := answer == Started)
  {}

  /** In every run, the completion of the attempt in flight is a success, a refusal for security, a failure not worth
      retrying, or one to retry while a delay is left. Only a retry leaves the scheduler armed, and only success
      leaves it neither armed nor blocked. */
  lemma CompletionMeans(backoff: seq<real>, calls: seq<Call>, c: Call)
    requires c.Complete? && Run(backoff, INITIAL, calls).inFlight == Some(c.attempt)
    ensures var s, handedOut := Run(backoff, INITIAL, calls), |Delays(backoff, INITIAL, calls, [])|;
      s.attempts >= 0 &&
      var (t, answer) := Step(backoff, s, c);
      var verdict := if c.succeeded then Succeeded
        else if c.code.Some? && c.code.value in SECURITY_DENIALS then Blocked
        else if !c.retrySafe then Failure
        else if handedOut < |backoff| then Retry else Exhausted;
      && answer == Completed(verdict)
      && t == State(generation := s.generation, attempts := if c.succeeded then 0 else s.attempts,
           armed := verdict == Retry, blocked := verdict !in {Retry, Succeeded}, scheduled := None, inFlight := None,
           holding := false)
  {
    DelaysFollowBackoffFrom(backoff, INITIAL, calls, []);
  }

  /** After a cancellation, and after every completion that is not to be retried, nothing is handed out until the
      proxy is seen running again; then the backoff starts over. */
  lemma StopsUntilObserved(backoff: seq<real>, s: State, c: Call, calls: seq<Call>, app: AppState)
    requires Consistent(backoff, s) && ValidBackoff(backoff)
    requires c.Cancel? || (c.Complete? && s.inFlight == Some(c.attempt) && Step(backoff, s, c).1 != Completed(Retry))
    requires forall k :: 0 <= k < |calls| ==> !calls[k].ObserveRunning?
    ensures Consistent(backoff, Step(backoff, s, c).0) && Idle(Step(backoff, s, c).0)
    ensures c.Cancel? ==> Step(backoff, s, c).0 == INITIAL.(generation := s.generation + 1,
      attempts := if c.resetAttempts then 0 else s.attempts)
    ensures Delays(backoff, Step(backoff, s, c).0, calls, []) == []
    ensures Eligible(app, false) ==>
      var t := Run(backoff, Step(backoff, s, c).0, calls + [ObserveRunning]);
      var first := Attempt(generation := t.generation + 1, attempt := 1, delay := backoff[0]);
      Step(backoff, t, Request(app, false)).1 == Issued(first)
  {
    StepStaysConsistent(backoff, s, c);
    var stopped := Step(backoff, s, c).0;
    UnarmedIssuesNothing(backoff, stopped, calls, []);
    StaysUnarmed(backoff, stopped, calls);
    RunConcat(backoff, stopped, calls, ObserveRunning);
  }

  lemma {:induction false} StaysUnarmed(backoff: seq<real>, s: State, calls: seq<Call>)
    requires Consistent(backoff, s) && !s.armed
    requires forall k :: 0 <= k < |calls| ==> !calls[k].ObserveRunning?
    ensures !Run(backoff, s, calls).armed && Idle(Run(backoff, s, calls))
    decreases |calls|
  {
    if calls != [] {
      StepStaysConsistent(backoff, s, calls[0]);
      StaysUnarmed(backoff, Step(backoff, s, calls[0]).0, calls[1..]);
    }
  }

  lemma {:induction false} RunConcat(backoff: seq<real>, s: State, calls: seq<Call>, c: Call)
    requires Consistent(backoff, s)
    ensures Run(backoff, s, calls + [c]) == Step(backoff, Run(backoff, s, calls), c).0
    decreases |calls|
  {
    var all := calls + [c];
    if calls == [] {
      StepStaysConsistent(backoff, s, c);
      assert all[1..] == [];
    } else {
      StepStaysConsistent(backoff, s, calls[0]);
      assert all[0] == calls[0] && all[1..] == calls[1..] + [c];
      RunConcat(backoff, Step(backoff, s, calls[0]).0, calls[1..], c);
    }
  }

  lemma {:induction false} UnarmedIssuesNothing(backoff: seq<real>, s: State, calls: seq<Call>, sofar: seq<real>)
    requires Consistent(backoff, s) && !s.armed
    requires forall k :: 0 <= k < |calls| ==> !calls[k].ObserveRunning?
    ensures Delays(backoff, s, calls, sofar) == sofar
    decreases |calls|
  {
    if calls != [] {
      StepStaysConsistent(backoff, s, calls[0]);
      UnarmedIssuesNothing(backoff, Step(backoff, s, calls[0]).0, calls[1..], sofar);
    }
  }

  // ---- spent attempts -----------------------------------------------------------------------

  predicate Live(s: State, a: Attempt) { s.scheduled == Some(a) || s.inFlight == Some(a) }

  /** An attempt issued no later than now that is no longer scheduled or running. */
  predicate Spent(s: State, a: Attempt) { a.generation <= s.generation && !Live(s, a) }

  lemma {:induction false} SpentForever(backoff: seq<real>, s: State, a: Attempt, calls: seq<Call>)
    requires Consistent(backoff, s) && Spent(s, a)
    ensures Spent(Run(backoff, s, calls), a)
    decreases |calls|
  {
    if calls != [] {
      StepStaysConsistent(backoff, s, calls[0]);
      SpentForever(backoff, Step(backoff, s, calls[0]).0, a, calls[1..]);
    }
  }

  /** Whatever is called after an attempt is spent, beginning or completing it then fails and changes nothing. */
  lemma SpentIsInert(backoff: seq<real>, s: State, calls: seq<Call>, c: Call)
    requires Consistent(backoff, s)
    requires c.Begin? || c.Complete?
    requires Spent(s, c.attempt)
    ensures var t := Run(backoff, s, calls);
            Step(backoff, t, c) == (t, if c.Begin? then Nothing else Completed(Blocked))
  {
    SpentForever(backoff, s, c.attempt, calls);
  }

  /** An attempt that has begun never begins again. */
  lemma {:induction false} BegunOnce(backoff: seq<real>, s: State, a: Attempt, calls: seq<Call>)
    requires Consistent(backoff, s) && s.inFlight == Some(a)
    ensures forall state, down :: !Step(backoff, Run(backoff, s, calls), Begin(a, state, down)).1.Started?
    decreases |calls|
  {
    if calls != [] {
      StepStaysConsistent(backoff, s, calls[0]);
      var t := Step(backoff, s, calls[0]).0;
      if t.inFlight == Some(a) {
        BegunOnce(backoff, t, a, calls[1..]);
      } else {
        SpentForever(backoff, t, a, calls[1..]);
      }
    }
  }

  /** Cancelling, completing, a refused begin and every later request each leave the earlier attempt spent. */
  lemma CancelledOrReplacedIsSpent(backoff: seq<real>, s: State, a: Attempt, c: Call)
    requires Consistent(backoff, s) && a.generation <= s.generation
    ensures c.Cancel? ==> Spent(Step(backoff, s, c).0, a)
    ensures Step(backoff, s, c).1.Issued? ==> Spent(Step(backoff, s, c).0, a) && Step(backoff, s, c).1.attempt != a
    ensures c.Complete? && c.attempt == a ==> (Spent(Step(backoff, s, c).0, a) <==> s.scheduled != Some(a))
    ensures c.Begin? && c.attempt == a && Step(backoff, s, c).1 == Nothing ==>
      (Spent(Step(backoff, s, c).0, a) <==> s.inFlight != Some(a))
  {
  }

  // ---- the object ---------------------------------------------------------------------------

  class CancellationEvent {
    var isSet: bool

    constructor ()
      ensures !isSet
    { isSet := false; }

    method Set()
      modifies this
      ensures isSet
    { isSet := true; }
  }

  class AutomaticProxyReconnectController {
    const backoff: seq<real>
    var generation: int
    var attempts: int
    var armed: bool
    var blocked: bool
    var scheduled: Option<Attempt>
    var inFlight: Option<Attempt>
    var cancellation: CancellationEvent?

    function Abstract(): State
      reads this
    {
      State(generation, attempts, armed, blocked, scheduled, inFlight, cancellation != null)
    }

    ghost predicate Valid()
      reads this
    {
      ValidBackoff(backoff) && Consistent(backoff, Abstract())
    }

    constructor (backoff: seq<real>)
      requires ValidBackoff(backoff)
      ensures Valid() && this.backoff == backoff && Abstract() == INITIAL
    {
      this.backoff := backoff;
      generation, attempts, armed, blocked := 0, 0, false, false;
      scheduled, inFlight, cancellation := None, None, null;
    }

    method ObserveRunning()
      requires Valid()
      modifies this
      ensures Valid() && Abstract() == Step(backoff, old(Abstract()), Call.ObserveRunning).0
    {
      if scheduled.Some? || inFlight.Some? { return; }
      armed := true;
      blocked := false;
      attempts := 0;
      cancellation := null;
    }

    method Request(state: AppState, shuttingDown: bool) returns (issued: Option<Attempt>)
      requires Valid()
      modifies this
      ensures Valid() && cancellation == old(cancellation)
      ensures (Abstract(), if issued.Some? then Issued(issued.value) else Nothing)
           == Step(backoff, old(Abstract()), Call.Request(state, shuttingDown))
    {
      if !armed || blocked || scheduled.Some? || inFlight.Some? || attempts >= |backoff|
        || !Eligible(state, shuttingDown) {
        return None;
      }
      attempts := attempts + 1;
      generation := generation + 1;
      var a := Attempt(generation, attempts, backoff[attempts - 1]);
      scheduled := Some(a);
      return Some(a);
    }

    /** The event handed out is new, unset and the one held while the attempt runs. */
    method Begin(attempt: Attempt, state: AppState, shuttingDown: bool) returns (event: CancellationEvent?)
      requires Valid()
      modifies this
      ensures Valid()
      ensures (Abstract(), if event != null then Started else Nothing)
           == Step(backoff, old(Abstract()), Call.Begin(attempt, state, shuttingDown))
      ensures event != null ==> fresh(event) && !event.isSet && cancellation == event
      ensures event == null ==> cancellation == old(cancellation)
    {
      if scheduled != Some(attempt) { return null; }
      scheduled := None;
      if !Eligible(state, shuttingDown) { return null; }
      event := new CancellationEvent();
      inFlight := Some(attempt);
      cancellation := event;
    }

    method Complete(attempt: Attempt, succeeded: bool, retrySafe: bool, code: Option<string>)
      returns (verdict: Completion)
      requires Valid()
      modifies this
      ensures Valid()
      ensures (Abstract(), Completed(verdict))
        == Step(backoff, old(Abstract()), Call.Complete(attempt, succeeded, retrySafe, code))
    {
      if inFlight != Some(attempt) { return Blocked; }
      inFlight := None;
      cancellation := null;
      if succeeded {
        attempts := 0;
        blocked := false;
        armed := false;
        return Succeeded;
      }
      if code.Some? && code.value in SECURITY_DENIALS {
        blocked := true;
        armed := false;
        return Blocked;
      }
      if retrySafe && attempts < |backoff| { return Retry; }
      blocked := true;
      armed := false;
      if retrySafe && attempts >= |backoff| { return Exhausted; }
      return Failure;
    }

    /** The event of the attempt in flight, and no other, is set. */
    method Cancel(resetAttempts: bool)
      requires Valid()
      modifies this, cancellation
      ensures Valid() && Abstract() == Step(backoff, old(Abstract()), Call.Cancel(resetAttempts)).0
      ensures old(inFlight).Some? ==> old(cancellation) != null && old(cancellation).isSet
    {
      if cancellation != null { cancellation.Set(); }
      generation := generation + 1;
      scheduled := None;
      inFlight := None;
      cancellation := null;
      armed := false;
      blocked := false;
      if resetAttempts { attempts := 0; }
    }
  }

  /** A controller exists exactly for a non-empty backoff of positive delays. */
  method NewController(backoff: seq<real>) returns (controller: AutomaticProxyReconnectController?)
    ensures controller != null <==> backoff != [] && forall k :: 0 <= k < |backoff| ==> backoff[k] > 0.0
    ensures controller != null ==>
              && fresh(controller) && controller.Valid()
              && controller.backoff == backoff && controller.Abstract() == INITIAL
  {
    var k := 0;
    while k < |backoff|
      invariant k <= |backoff|
      invariant forall j :: 0 <= j < k ==> backoff[j] > 0.0
    {
      if backoff[k] <= 0.0 { return null; }
      k := k + 1;
    }
    if backoff == [] { return null; }
    controller := new AutomaticProxyReconnectController(backoff);
  }
}
