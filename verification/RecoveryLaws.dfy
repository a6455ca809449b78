/** What one more event does to a reconciled ledger, and why recovery ends after at most two
    appends. */
module RecoveryLaws {
  import opened Prelude
  import opened Ledger
  import opened LedgerLaws
  import opened Reconcile

  function Extend(l: VerifiedLedger, e: Event, head: Digest): VerifiedLedger {
    VerifiedLedger(l.genesis, l.events + [e], head)
  }

  lemma LatestSnoc(events: seq<Event>, e: Event, s: int)
    ensures Latest(events + [e], s) == if e.sequence == s then Some(e) else Latest(events, s)
  {
    assert (events + [e])[..|events|] == events;
  }

  lemma {:induction false} LatestMember(events: seq<Event>, s: int)
    ensures Latest(events, s).Some? ==> Latest(events, s).value in events && Latest(events, s).value.sequence == s
    ensures Latest(events, s).None? <==> forall e :: e in events ==> e.sequence != s
  {
    if events != [] {
      LatestMember(events[..|events| - 1], s);
      assert events == events[..|events| - 1] + [events[|events| - 1]];
    }
  }

  /** One more event keeps ledger and history coherent exactly when its own sequence stays
      accounted for and does not become a second pending one. */
  lemma CoherentAfter(l: VerifiedLedger, s: Snapshot, e: Event, head: Digest)
    requires Coherent(l, s)
    ensures var m := Extend(l, e, head);
      Coherent(m, s) <==>
        && (Recorded(e.status) && e.sequence > l.genesis.floor.sequence ==> e.sequence in s.bindings)
        && (e.sequence in s.bindings ==> Accounted(m, s, e.sequence))
        && (PendingOf(m, s, e.sequence) != NoRecovery ==> forall n :: n != e.sequence ==>
             PendingOf(l, s, n) == NoRecovery)
    ensures forall n :: n != e.sequence ==> PendingOf(Extend(l, e, head), s, n) == PendingOf(l, s, n)
  {
    var m := Extend(l, e, head);
    forall n ensures Latest(m.events, n) == if e.sequence == n then Some(e) else Latest(l.events, n) {
      LatestSnoc(l.events, e, n);
    }
    assert e in m.events;
    RecordedAfter(l, s, e, head);
    assert forall n :: n != e.sequence ==> PendingOf(m, s, n) == PendingOf(l, s, n);
    assert forall n :: n in s.bindings && n != e.sequence ==> Accounted(m, s, n);
  }

  lemma RecordedAfter(l: VerifiedLedger, s: Snapshot, e: Event, head: Digest)
    requires RecordedIsAuthenticated(l, s)
    ensures RecordedIsAuthenticated(Extend(l, e, head), s)
            <==> (Recorded(e.status) && e.sequence > l.genesis.floor.sequence ==> e.sequence in s.bindings)
  {
    var m := Extend(l, e, head);
    forall n ensures Latest(m.events, n) == if e.sequence == n then Some(e) else Latest(l.events, n) {
      LatestSnoc(l.events, e, n);
    }
    assert e in m.events;
    forall x | x in m.events && x.sequence != e.sequence ensures x in l.events {}
  }

  lemma ConsumedAfter(l: VerifiedLedger, e: Event, head: Digest, default: int)
    ensures MaxKey(ConsumedBy(Extend(l, e, head).events), default)
            == if l.events == [] then e.sequence else Max(MaxKey(ConsumedBy(l.events), default), e.sequence)
  {
    var keys := ConsumedBy(l.events + [e]);
    assert keys == ConsumedBy(l.events) + [e.sequence];
    assert keys[..|l.events|] == ConsumedBy(l.events);
  }

  /** An event of a sequence the ledger already mentions does not move the next unused one. */
  lemma NextUnusedStays(l: VerifiedLedger, s: Snapshot, e: Event, head: Digest, r: Recovery, q: Recovery)
    requires Latest(l.events, e.sequence).Some?
    ensures AuthorityOf(Extend(l, e, head), s, r).nextUnused == AuthorityOf(l, s, q).nextUnused
  {
    LatestMember(l.events, e.sequence);
    NextUnusedExceedsAll(l, s, q);
    ConsumedAfter(l, e, head, l.genesis.floor.sequence);
  }

  // ---- the two repairs -------------------------------------------------------------------

  /** The SIGNED event a recovery appends: the allocation of the ledger, the authenticated binding. */
  function SignedEvent(state: Event, b: Binding, timestamp: string, previous: Digest): Event {
    state.(status := Signed, payloadSha := Some(b.payloadSha), envelopeSha := Some(b.envelopeSha),
           keyId := Some(b.keyId), timestamp := timestamp, previous := previous)
  }

  function PublishedEvent(state: Event, b: Binding, timestamp: string, previous: Digest): Event {
    SignedEvent(state, b, timestamp, previous).(status := Published)
  }

  lemma LatestEndsLifeline(l: VerifiedLedger, s: int)
    requires AllLifelines(l.genesis.floor.sequence, l.events) && Latest(l.events, s).Some?
    ensures var h := OfSequence(l.events, s);
      h != [] && h[|h| - 1] == Latest(l.events, s).value && Lifeline(h) && s > l.genesis.floor.sequence
  {
    LatestIsLastOfSequence(l.events, s);
    LatestMember(l.events, s);
  }

  lemma ReservedIsAlone(h: seq<Event>)
    requires Lifeline(h) && h != [] && h[|h| - 1].status.Reserved?
    ensures |h| == 1
  {
    RankGrows(h, 0, |h| - 1);
  }

  /** What a reported recovery says of its sequence. */
  lemma PendingFacts(l: VerifiedLedger, s: Snapshot) returns (n: int, b: Binding, state: Event)
    requires ReconcileLedger(l, s).Ok? && ReconcileLedger(l, s).value.recovery != NoRecovery
    ensures n == ReconcileLedger(l, s).value.recovery.sequence
    ensures n in s.bindings && b == s.bindings[n] && Latest(l.events, n) == Some(state)
    ensures state.sequence == n && n > l.genesis.floor.sequence && Agrees(b, state)
    ensures n in s.provenance ==> s.provenance[n] == state.sourceCommit
    ensures if ReconcileLedger(l, s).value.recovery.SignedAppendRequired? then state.status.Reserved?
      else state.status.Signed? && n in s.live
  {
    ReconcileMeans(l, s);
    n := ReconcileLedger(l, s).value.recovery.sequence;
    b, state := s.bindings[n], Latest(l.events, n).value;
    LatestMember(l.events, n);
    assert Accounted(l, s, n);
  }

  lemma SignedAccepted(l: VerifiedLedger, state: Event, b: Binding, timestamp: string)
    requires AllLifelines(l.genesis.floor.sequence, l.events)
    requires Latest(l.events, state.sequence) == Some(state) && state.status.Reserved?
    ensures AppendError(l, SignedEvent(state, b, timestamp, l.head), l.head) == None
            <==> b.payloadSha != "" && b.envelopeSha != "" && b.keyId != ""
  {
    var e := SignedEvent(state, b, timestamp, l.head);
    LatestEndsLifeline(l, state.sequence);
    var h := OfSequence(l.events, state.sequence);
    ReservedIsAlone(h);
    AppendErrorProlongs(l, e);
    var g := h + [e];
    assert g[0] == state && g[1] == e;
  }

  lemma PublishedAccepted(l: VerifiedLedger, state: Event, b: Binding, timestamp: string)
    requires AllLifelines(l.genesis.floor.sequence, l.events)
    requires Latest(l.events, state.sequence) == Some(state) && state.status.Signed? && Agrees(b, state)
    ensures AppendError(l, PublishedEvent(state, b, timestamp, l.head), l.head) == None
    ensures Fields(PublishedEvent(state, b, timestamp, l.head)) == Fields(state)
  {
    var e := PublishedEvent(state, b, timestamp, l.head);
    LatestEndsLifeline(l, state.sequence);
    var h := OfSequence(l.events, state.sequence);
    assert HasSignedFields(h[|h| - 1]);
    PublishedProlongs(h, e);
    AppendErrorProlongs(l, e);
  }

  /** When a sequence is authenticated but only RESERVED, the SIGNED event built from the ledger's
      allocation and the authenticated binding is accepted exactly when the binding's fields are
      not empty; the same snapshot then reconciles again, the next unused sequence has not moved,
      and what remains is one PUBLISHED append if the sequence is live and nothing otherwise. */
  lemma SignedRecoveryConverges(l: VerifiedLedger, s: Snapshot, timestamp: string, head: Digest)
    requires AllLifelines(l.genesis.floor.sequence, l.events)
    requires ReconcileLedger(l, s).Ok? && ReconcileLedger(l, s).value.recovery.SignedAppendRequired?
    ensures var n := ReconcileLedger(l, s).value.recovery.sequence;
      && n in s.bindings && Latest(l.events, n).Some?
      && var b := s.bindings[n];
      var e := SignedEvent(Latest(l.events, n).value, b, timestamp, l.head);
      && (AppendError(l, e, l.head) == None <==> b.payloadSha != "" && b.envelopeSha != "" && b.keyId != "")
      && Reconciles(Extend(l, e, head), s, ReconcileLedger(l, s).value.nextUnused,
                    if n in s.live then PublishedAppendRequired(n) else NoRecovery)
  {
    var n, b, state := PendingFacts(l, s);
    SignedAccepted(l, state, b, timestamp);
    RepairReconciles(l, s, state, SignedEvent(state, b, timestamp, l.head), head);
  }

  /** When a signed sequence is live but not recorded as published, the PUBLISHED event is always
      accepted, and nothing remains to be repaired. */
  lemma PublishedRecoveryConverges(l: VerifiedLedger, s: Snapshot, timestamp: string, head: Digest)
    requires AllLifelines(l.genesis.floor.sequence, l.events)
    requires ReconcileLedger(l, s).Ok? && ReconcileLedger(l, s).value.recovery.PublishedAppendRequired?
    ensures var n := ReconcileLedger(l, s).value.recovery.sequence;
      && n in s.bindings && Latest(l.events, n).Some?
      && var e := PublishedEvent(Latest(l.events, n).value, s.bindings[n], timestamp, l.head);
      && AppendError(l, e, l.head) == None
      && Reconciles(Extend(l, e, head), s, ReconcileLedger(l, s).value.nextUnused, NoRecovery)
  {
    var n, b, state := PendingFacts(l, s);
    PublishedAccepted(l, state, b, timestamp);
    RepairReconciles(l, s, state, PublishedEvent(state, b, timestamp, l.head), head);
  }

  ghost predicate Reconciles(l: VerifiedLedger, s: Snapshot, nextUnused: int, recovery: Recovery) {
    && ReconcileLedger(l, s).Ok?
    && ReconcileLedger(l, s).value.nextUnused == nextUnused
    && ReconcileLedger(l, s).value.recovery == recovery
  }

  lemma PublishedProlongs(h: seq<Event>, e: Event)
    requires Lifeline(h) && h != [] && h[|h| - 1].status.Signed?
    requires e.status.Published? && SameAllocation(e, h[|h| - 1]) && Fields(e) == Fields(h[|h| - 1])
    ensures Lifeline(h + [e])
  {
    var g := h + [e];
    assert forall i :: 0 <= i < |h| ==> g[i] == h[i];
    assert SameAllocation(h[|h| - 1], h[0]);
  }

  /** The common part: the new event agrees with the binding, and only its sequence was pending. */
  lemma RepairReconciles(l: VerifiedLedger, s: Snapshot, state: Event, e: Event, head: Digest)
    requires ReconcileLedger(l, s).Ok?
    requires ReconcileLedger(l, s).value.recovery == NoRecovery
      || ReconcileLedger(l, s).value.recovery.sequence == e.sequence
    requires Latest(l.events, e.sequence) == Some(state) && e.sourceCommit == state.sourceCommit
    requires e.sequence > l.genesis.floor.sequence
    requires e.sequence in s.bindings && Agrees(s.bindings[e.sequence], e)
    requires e.status.Signed? || e.status.Published?
    ensures Reconciles(Extend(l, e, head), s, ReconcileLedger(l, s).value.nextUnused,
              if e.status.Signed? && e.sequence in s.live then PublishedAppendRequired(e.sequence) else NoRecovery)
  {
    hide ReconcileLedger, AuthorityOf;
    var m := Extend(l, e, head);
    ReconcileMeans(l, s);
    assert Accounted(l, s, e.sequence);
    CoherentAfter(l, s, e, head);
    LatestSnoc(l.events, e, e.sequence);
    assert forall n :: n != e.sequence ==> PendingOf(l, s, n) == NoRecovery;
    ReconcileMeans(m, s);
    NextUnusedStays(l, s, e, head, ReconcileLedger(m, s).value.recovery, ReconcileLedger(l, s).value.recovery);
  }
}
