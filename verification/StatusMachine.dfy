/** The anti-flap monitor: two agreeing samples to confirm a status, alerts under a cooldown. */
module StatusMachine {
  import opened Prelude

  datatype Status = Online | Degraded | Stale | Unknown

  datatype Alert = RecoveryAlert | DegradedAlert | StaleAlert

  /** `alert` may be set without being sent: it was suppressed by the cooldown. */
  datatype Decision = Decision(send: bool, alert: Option<Alert>, before: Status, after: Status)

  datatype Sample = Sample(status: Status, at: real)

  // ---- one update -----------------------------------------------------------------------------

  datatype State = State(
    confirmed: Status, pending: Option<Status>, pendingCount: int,
    lastStatus: Option<Status>, lastAt: Option<real>, initialized: bool)

  /** The state a worker starts from, `confirmed` being Unknown when nothing was stored. */
  function Started(confirmed: Status, lastStatus: Option<Status>, lastAt: Option<real>): State {
    State(confirmed, None, 0, lastStatus, lastAt, confirmed != Unknown)
  }

  function RequiredSamples(s: Status): int { if s == Stale then 1 else 2 }

  function AlertFor(before: Status, after: Status): Option<Alert> {
    if after == Online && (before == Degraded || before == Stale) then Some(RecoveryAlert)
    else if after == Degraded then Some(DegradedAlert)
    else if after == Stale then Some(StaleAlert)
    else None
  }

  predicate Suppressed(s: State, cooldown: real, alert: Alert, x: Sample) {
    alert != RecoveryAlert && s.lastStatus == Some(x.status) && s.lastAt.Some? && x.at - s.lastAt.value < cooldown
  }

  function Update(s: State, cooldown: real, x: Sample): (State, Decision) {
    if !s.initialized then
      (s.(confirmed := x.status, lastStatus := Some(x.status), lastAt := Some(x.at), initialized := true),
       Decision(false, None, Unknown, x.status))
    else if x.status == s.confirmed then
      (s.(pending := None, pendingCount := 0), Decision(false, None, s.confirmed, x.status))
    else
      var count := if s.pending == Some(x.status) then s.pendingCount + 1 else 1;
      if count < RequiredSamples(x.status) then
        (s.(pending := Some(x.status), pendingCount := count), Decision(false, None, s.confirmed, x.status))
      else
        var t := s.(confirmed := x.status, pending := None, pendingCount := 0);
        var alert := AlertFor(s.confirmed, x.status);
        if alert.None? || Suppressed(s, cooldown, alert.value, x) then
          (t, Decision(false, alert, s.confirmed, x.status))
        else (t.(lastStatus := Some(x.status), lastAt := Some(x.at)), Decision(true, alert, s.confirmed, x.status))
  }

  class StatusStateMachine {
    const cooldown: real
    var confirmed: Status
    var pending: Option<Status>
    var pendingCount: int
    var lastStatus: Option<Status>
    var lastAt: Option<real>
    var initialized: bool

    function Abstract(): State
      reads this
    {
      State(confirmed, pending, pendingCount, lastStatus, lastAt, initialized)
    }

    constructor (confirmed: Status, lastStatus: Option<Status>, lastAt: Option<real>, cooldown: real)
      ensures Abstract() == Started(confirmed, lastStatus, lastAt) && this.cooldown == cooldown
    {
      this.confirmed := confirmed;
      pending := None;
      pendingCount := 0;
      this.lastStatus := lastStatus;
      this.lastAt := lastAt;
      this.cooldown := cooldown;
      initialized := confirmed != Unknown;
    }

    method UpdateStatus(x: Sample) returns (decision: Decision)
      modifies this
      ensures (Abstract(), decision) == Update(old(Abstract()), cooldown, x)
    {
      if !initialized {
        confirmed := x.status;
        lastStatus := Some(x.status);
        lastAt := Some(x.at);
        initialized := true;
        return Decision(false, None, Unknown, x.status);
      }
      if x.status == confirmed {
        pending := None;
        pendingCount := 0;
        return Decision(false, None, confirmed, x.status);
      }
      if pending == Some(x.status) {
        pendingCount := pendingCount + 1;
      } else {
        pending := Some(x.status);
        pendingCount := 1;
      }
      var requiredSamples := if x.status == Stale then 1 else 2;
      if pendingCount < requiredSamples { return Decision(false, None, confirmed, x.status); }

      var before := confirmed;
      confirmed := x.status;
      pending := None;
      pendingCount := 0;

      var alert := None;
      if x.status == Online && (before == Degraded || before == Stale) {
        alert := Some(RecoveryAlert);
      } else if x.status == Degraded {
        alert := Some(DegradedAlert);
      } else if x.status == Stale {
        alert := Some(StaleAlert);
      }
      if alert.None? { return Decision(false, None, before, x.status); }
      if alert != Some(RecoveryAlert) {
        if lastStatus == Some(x.status) && lastAt.Some? && x.at - lastAt.value < cooldown {
          return Decision(false, alert, before, x.status);
        }
      }
      lastStatus := Some(x.status);
      lastAt := Some(x.at);
      return Decision(true, alert, before, x.status);
    }
  }

  // ---- the confirmed status, told from the whole history --------------------------------------

  /** A sample settles the status when it is the very first of a worker that knew none, when it says STALE, or when
      it agrees with the sample before it. */
  predicate Settles(known: bool, history: seq<Sample>, i: nat)
    requires i < |history|
  {
    || (i == 0 && !known)
    || history[i].status == Stale
    || (i > 0 && history[i].status == history[i - 1].status)
  }

  /** The status of the last sample that settles it, or the one the worker started with. */
  function SettledStatus(start: Status, history: seq<Sample>): Status {
    if history == [] then start
    else
      var last := |history| - 1;
      if Settles(start != Unknown, history, last) then history[last].status
      else SettledStatus(start, history[..last])
  }

  function Run(s: State, cooldown: real, history: seq<Sample>): State {
    if history == [] then s
    else Update(Run(s, cooldown, history[..|history| - 1]), cooldown, history[|history| - 1]).0
  }

  /** The machine keeps no history, yet always confirms what the history settles: no single outlying sample moves it,
      two in a row or one STALE do, and a pending status is always the last sample seen. */
  lemma {:induction false} ConfirmsWhatIsSettled(start: Status, lastStatus: Option<Status>, lastAt: Option<real>,
      cooldown: real, history: seq<Sample>)
    ensures var s := Run(Started(start, lastStatus, lastAt), cooldown, history);
      && s.confirmed == SettledStatus(start, history)
      && (s.initialized <==> start != Unknown || history != [])
      && (s.pending.Some? ==> s.pendingCount == 1 && s.pending.value != Stale)
      && (s.pending.Some? ==> history != [] && s.pending.value == history[|history| - 1].status)
      && (s.pending.None? && history != [] ==> s.confirmed == history[|history| - 1].status)
  {
    if history != [] {
      ConfirmsWhatIsSettled(start, lastStatus, lastAt, cooldown, history[..|history| - 1]);
    }
  }

  // ---- alerts ---------------------------------------------------------------------------------

  /** What the machine decides on the `i`-th sample. */
  function Decide(s: State, cooldown: real, samples: seq<Sample>, i: nat): Decision
    requires i < |samples|
  {
    Update(Run(s, cooldown, samples[..i]), cooldown, samples[i]).1
  }

  predicate Sent(d: Decision, alert: Alert) { d.send && d.alert == Some(alert) }

  lemma OneMore(s: State, cooldown: real, samples: seq<Sample>, i: nat)
    requires i < |samples|
    ensures Run(s, cooldown, samples[..i + 1]) == Update(Run(s, cooldown, samples[..i]), cooldown, samples[i]).0
  {
    assert samples[..i + 1][..i] == samples[..i];
  }

  /** Whatever the state, an alert names the change of the confirmed status that calls for it, and is there whenever
      such a change is: into DEGRADED, into STALE, or from either of them to ONLINE. In terms of the history, `b`
      being the status settled before the sample and `d` the one settled with it. */
  lemma AlertsNameTheChange(start: Status, lastStatus: Option<Status>, lastAt: Option<real>, cooldown: real,
      samples: seq<Sample>, i: nat)
    requires i < |samples|
    ensures var b, d := SettledStatus(start, samples[..i]), SettledStatus(start, samples[..i + 1]);
      var decision := Decide(Started(start, lastStatus, lastAt), cooldown, samples, i);
      var known := start != Unknown || i > 0;
      && (decision.alert == Some(DegradedAlert) <==> known && b != Degraded && d == Degraded)
      && (decision.alert == Some(StaleAlert) <==> known && b != Stale && d == Stale)
      && (decision.alert == Some(RecoveryAlert) <==> known && (b == Degraded || b == Stale) && d == Online)
      && decision.before == b && decision.after == samples[i].status && (decision.alert.Some? ==> decision.after == d)
      && (decision.send ==> decision.alert.Some?)
  {
    ConfirmsWhatIsSettled(start, lastStatus, lastAt, cooldown, samples[..i]);
    ConfirmsWhatIsSettled(start, lastStatus, lastAt, cooldown, samples[..i + 1]);
    OneMore(Started(start, lastStatus, lastAt), cooldown, samples, i);
  }

  predicate TroubleSent(d: Decision) { Sent(d, DegradedAlert) || Sent(d, StaleAlert) }

  /** A recovery was the last thing announced, and nothing is wrong. */
  predicate Quiet(s: State) {
    s.initialized && s.lastStatus == Some(Online) && s.confirmed != Degraded && s.confirmed != Stale
  }

  lemma RecoveryQuiets(s: State, cooldown: real, x: Sample)
    ensures var (t, d) := Update(s, cooldown, x);
      && (Sent(d, RecoveryAlert) ==> Quiet(t) && !Quiet(s))
      && (Quiet(s) && !TroubleSent(d) ==> Quiet(t))
  {
  }

  lemma {:induction false} QuietAfterRecovery(s: State, cooldown: real, samples: seq<Sample>, i: nat, j: nat)
    requires i < j <= |samples| && Sent(Decide(s, cooldown, samples, i), RecoveryAlert)
    requires forall k :: i < k < j ==> !TroubleSent(Decide(s, cooldown, samples, k))
    ensures Quiet(Run(s, cooldown, samples[..j]))
    decreases j
  {
    hide Update, Run, Quiet, Sent, TroubleSent;
    OneMore(s, cooldown, samples, j - 1);
    RecoveryQuiets(Run(s, cooldown, samples[..j - 1]), cooldown, samples[j - 1]);
    if i < j - 1 {
      QuietAfterRecovery(s, cooldown, samples, i, j - 1);
      assert !TroubleSent(Decide(s, cooldown, samples, j - 1));
    }
  }

  /** Between any two recoveries announced, a DEGRADED or STALE alert is sent, from whatever state the worker
      started. */
  lemma RecoveriesAlternate(s: State, cooldown: real, samples: seq<Sample>, i: nat, j: nat)
    requires i < j < |samples|
    requires Sent(Decide(s, cooldown, samples, i), RecoveryAlert)
    requires Sent(Decide(s, cooldown, samples, j), RecoveryAlert)
    ensures exists k :: i < k < j && TroubleSent(Decide(s, cooldown, samples, k))
  {
    if forall k :: i < k < j ==> !TroubleSent(Decide(s, cooldown, samples, k)) {
      QuietAfterRecovery(s, cooldown, samples, i, j);
      RecoveryQuiets(Run(s, cooldown, samples[..j]), cooldown, samples[j]);
    }
  }

  /** The last alert sent among the first `i` samples, counting the baseline of a worker that knew nothing as one, or
      the one stored before the worker started. */
  function LastAlert(s: State, cooldown: real, samples: seq<Sample>, i: nat): (Option<Status>, Option<real>)
    requires i <= |samples|
  {
    if i == 0 then (s.lastStatus, s.lastAt)
    else if Decide(s, cooldown, samples, i - 1).send || (i == 1 && !s.initialized) then
      (Some(samples[i - 1].status), Some(samples[i - 1].at))
    else LastAlert(s, cooldown, samples, i - 1)
  }

  lemma {:induction false} LastAlertIsKept(s: State, cooldown: real, samples: seq<Sample>, i: nat)
    requires i <= |samples|
    ensures var t := Run(s, cooldown, samples[..i]);
      && (t.lastStatus, t.lastAt) == LastAlert(s, cooldown, samples, i)
      && (t.initialized <==> s.initialized || i > 0)
  {
    if i > 0 {
      LastAlertIsKept(s, cooldown, samples, i - 1);
      OneMore(s, cooldown, samples, i - 1);
    }
  }

  /** A confirmed change that calls for an alert is announced exactly when it is a recovery or the last alert was for
      another status or is at least the cooldown old. */
  lemma SentUnlessRepeated(s: State, cooldown: real, samples: seq<Sample>, i: nat)
    requires i < |samples| && Decide(s, cooldown, samples, i).alert.Some?
    ensures var (status, at) := LastAlert(s, cooldown, samples, i);
      Decide(s, cooldown, samples, i).send <==>
        || Decide(s, cooldown, samples, i).alert == Some(RecoveryAlert)
        || status != Some(samples[i].status)
        || at.None?
        || samples[i].at - at.value >= cooldown
  {
    LastAlertIsKept(s, cooldown, samples, i);
  }

  /** Two alerts for the same status with none sent between them are at least the cooldown apart. */
  lemma RepeatsWaitForCooldown(s: State, cooldown: real, samples: seq<Sample>, i: nat, j: nat)
    requires i < j < |samples|
    requires Decide(s, cooldown, samples, i).send && Decide(s, cooldown, samples, j).send
    requires samples[i].status == samples[j].status
    requires forall k :: i < k < j ==> !Decide(s, cooldown, samples, k).send
    ensures samples[j].at - samples[i].at >= cooldown
  {
    if Sent(Decide(s, cooldown, samples, j), RecoveryAlert) {
      SameStatusSameAlert(s, cooldown, samples, i, j);
      RecoveriesAlternate(s, cooldown, samples, i, j);
    } else {
      NoneSince(s, cooldown, samples, i, j);
      SentUnlessRepeated(s, cooldown, samples, j);
    }
  }

  lemma SameStatusSameAlert(s: State, cooldown: real, samples: seq<Sample>, i: nat, j: nat)
    requires i < |samples| && j < |samples| && samples[i].status == samples[j].status
    requires Decide(s, cooldown, samples, i).send && Decide(s, cooldown, samples, j).send
    ensures Decide(s, cooldown, samples, i).alert == Decide(s, cooldown, samples, j).alert
  {
    hide Run;
  }

  lemma {:induction false} NoneSince(s: State, cooldown: real, samples: seq<Sample>, i: nat, j: nat)
    requires i < j <= |samples| && Decide(s, cooldown, samples, i).send
    requires forall k :: i < k < j ==> !Decide(s, cooldown, samples, k).send
    ensures LastAlert(s, cooldown, samples, j) == (Some(samples[i].status), Some(samples[i].at))
    decreases j
  {
    if i < j - 1 {
      NoneSince(s, cooldown, samples, i, j - 1);
      assert !Decide(s, cooldown, samples, j - 1).send;
    }
  }
}
