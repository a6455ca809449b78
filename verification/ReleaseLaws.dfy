/** Safety of the release protocol: what every action keeps, whatever its outcome and wherever it
    dies, and so what holds in every run. */
module ReleaseLaws {
  import opened Prelude
  import opened Text
  import opened Sorting
  import opened Ledger
  import opened LedgerLaws
  import opened Reconcile
  import opened RecoveryLaws
  import opened History
  import opened Custody
  import opened Release

  /** Canonical JSON reads back what it prints, SHA-256 has no collisions, and digests, payload
      digests and key ids are not empty. */
  ghost predicate Laws(env: Env) {
    var er := env.cr.er;
    && Faithful(env.c)
    && (forall x, y :: er.sha(x) == er.sha(y) ==> x == y)
    && (forall b :: er.sha(b) != "")
    && (forall b :: er.verify(b).Some? ==> er.verify(b).value.payloadSha != "" && er.verify(b).value.keyId != "")
  }

  // ---- the invariant ---------------------------------------------------------------------

  /** Every sequence above the floor that is authenticated has an envelope in custody. */
  ghost predicate Backed(env: Env, w: World, floor: int, s: Snapshot) {
    LoadCustody(env.cr.er, w.custody).Ok? &&
    forall n :: n in s.bindings && n > floor ==> Mentions(env.cr.er, LoadCustody(env.cr.er, w.custody).value, n)
  }

  ghost predicate FailedIsAuthenticated(l: VerifiedLedger, s: Snapshot) {
    forall n :: Latest(l.events, n).Some? && Latest(l.events, n).value.status.Failed? ==> n in s.bindings
  }

  /** Every allocation handed out has its RESERVED event. */
  ghost predicate Allocated(l: VerifiedLedger, issued: seq<Allocation>) {
    forall a :: a in issued ==> exists e :: e in l.events && Reserves(e, a)
  }

  ghost predicate Reserves(e: Event, a: Allocation) {
    e.status.Reserved? && e.sequence == a.sequence && e.releaseId == a.releaseId && e.componentSet == a.componentSet
  }

  ghost predicate WellAllocated(e: Event) {
    && e.releaseId == ReleaseId(e.sequence)
    && (e.status.Reserved? ==> Fields(e) == SignedFields(None, None, None))
  }

  ghost predicate StrictlyIncreasing(events: seq<Event>, status: Status) {
    forall i, j :: 0 <= i < j < |events| && events[i].status == status && events[j].status == status
      ==> events[i].sequence < events[j].sequence
  }

  /** A sequence that waits for a repair is the newest of the ledger and of the history. */
  ghost predicate PendingIsNewest(l: VerifiedLedger, s: Snapshot) {
    forall n :: PendingOf(l, s, n) != NoRecovery ==> Newest(l, s, n)
  }

  ghost predicate Newest(l: VerifiedLedger, s: Snapshot, n: int) {
    (forall x :: x in l.events ==> x.sequence <= n) && (forall m :: m in s.bindings ==> m <= n)
  }

  ghost predicate Inv(env: Env, w: World) {
    && Check(env, w).Ok?
    && var l, s := Check(env, w).value.ledger, Check(env, w).value.snapshot;
    && Backed(env, w, l.genesis.floor.sequence, s)
    && FailedIsAuthenticated(l, s)
    && PendingIsNewest(l, s)
    && Allocated(l, w.issued)
    && (forall e :: e in l.events ==> WellAllocated(e))
    && StrictlyIncreasing(l.events, Reserved)
    && StrictlyIncreasing(l.events, Published)
  }

  lemma Checks(env: Env, w: World) returns (l: VerifiedLedger, s: Snapshot, a: Authority)
    requires Check(env, w).Ok?
    ensures Check(env, w) == Ok(Checked(l, s, a))
    ensures Verify(env.c, w.ledger) == Ok(l) && FreshHistory(env, w) == Ok(s) && ReconcileLedger(l, s) == Ok(a)
    ensures AllLifelines(l.genesis.floor.sequence, l.events) && l.genesis.floor.sequence > 0
    ensures Coherent(l, s) && a == AuthorityOf(l, s, a.recovery)
    ensures w.ledger != []
  {
    l, s, a := Check(env, w).value.ledger, Check(env, w).value.snapshot, Check(env, w).value.authority;
    VerifyMeans(env.c, w.ledger);
    ReconcileMeans(l, s);
  }

  lemma InvChecks(env: Env, w: World) returns (l: VerifiedLedger, s: Snapshot, a: Authority)
    requires Inv(env, w)
    ensures Check(env, w) == Ok(Checked(l, s, a))
    ensures Verify(env.c, w.ledger) == Ok(l) && FreshHistory(env, w) == Ok(s) && ReconcileLedger(l, s) == Ok(a)
    ensures AllLifelines(l.genesis.floor.sequence, l.events) && (forall x :: x in l.events ==> WellAllocated(x))
    ensures Coherent(l, s) && RecordedIsAuthenticated(l, s) && FailedIsAuthenticated(l, s) && Allocated(l, w.issued)
    ensures PendingIsNewest(l, s)
  {
    l, s, a := Checks(env, w);
  }

  // ---- one ledger append -----------------------------------------------------------------

  function Appended(env: Env, w: World, e: Event): World {
    w.(ledger := w.ledger + [EventLine(env.c, e)])
  }

  lemma AppendLaw(env: Env, w: World, l: VerifiedLedger, e: Event, writes: nat)
    requires Laws(env) && Verify(env.c, w.ledger) == Ok(l) && e.previous == l.head
    ensures AppendError(l, e, l.head) == None ==>
              && Verify(env.c, Appended(env, w, e).ledger) == Ok(Extend(l, e, EventLine(env.c, e).entrySha))
              && AppendReadBack(env, w, e, l.head, writes)
                 == (if writes == 0 then w else Appended(env, w, e),
                     if writes < 2 then Crashed else Done(EventLine(env.c, e).entrySha))
    ensures AppendError(l, e, l.head) != None ==> AppendReadBack(env, w, e, l.head, writes).0 == w
    ensures AppendError(l, e, l.head) != None ==> AppendReadBack(env, w, e, l.head, writes).1.Raised?
  {
    AppendAgreesWithVerify(env.c, w.ledger, e);
  }

  /** What a new event must satisfy so that the invariant survives it. */
  ghost predicate Fits(l: VerifiedLedger, s: Snapshot, e: Event) {
    && AppendError(l, e, l.head) == None && e.previous == l.head
    && ReconcileLedger(Extend(l, e, ""), s).Ok?
    && WellAllocated(e)
    && (e.status.Failed? ==> e.sequence in s.bindings)
    && PendingIsNewest(Extend(l, e, ""), s)
    && (forall x :: x in l.events && x.status == e.status && (x.status.Reserved? || x.status.Published?) ==>
         x.sequence < e.sequence)
  }

  lemma ReconcileIgnoresHead(l: VerifiedLedger, s: Snapshot, head: Digest)
    ensures ReconcileLedger(l.(head := head), s).Ok? <==> ReconcileLedger(l, s).Ok?
    ensures ReconcileLedger(l, s).Ok? ==>
              ReconcileLedger(l.(head := head), s) == Ok(ReconcileLedger(l, s).value.(head := head))
  {
    var m := l.(head := head);
    ReconcileMeans(l, s);
    ReconcileMeans(m, s);
    assert forall n :: PendingOf(l, s, n) == PendingOf(m, s, n);
    assert forall n :: n in s.bindings ==> Accounted(l, s, n) == Accounted(m, s, n);
    if Coherent(l, s) {
      var a, b := ReconcileLedger(l, s).value, ReconcileLedger(m, s).value;
      if a.recovery != NoRecovery { assert PendingOf(m, s, a.recovery.sequence) != NoRecovery; }
      if b.recovery != NoRecovery { assert PendingOf(l, s, b.recovery.sequence) != NoRecovery; }
    }
  }

  lemma NewestIgnoresHead(l: VerifiedLedger, s: Snapshot, head: Digest)
    requires PendingIsNewest(l, s)
    ensures PendingIsNewest(l.(head := head), s)
  {
    forall n | PendingOf(l.(head := head), s, n) != NoRecovery ensures Newest(l.(head := head), s, n) {
      assert PendingOf(l, s, n) != NoRecovery;
    }
  }

  lemma IncreasingSnoc(events: seq<Event>, e: Event, status: Status)
    requires StrictlyIncreasing(events, status)
    requires e.status == status ==> forall x :: x in events && x.status == status ==> x.sequence < e.sequence
    ensures StrictlyIncreasing(events + [e], status)
  {
    var all := events + [e];
    forall i, j | 0 <= i < j < |all| && all[i].status == status && all[j].status == status
      ensures all[i].sequence < all[j].sequence
    {
      if j == |events| { assert all[i] in events; }
    }
  }

  lemma AppendKeepsInv(env: Env, w: World, e: Event)
    requires Laws(env) && Inv(env, w)
    requires Fits(Check(env, w).value.ledger, Check(env, w).value.snapshot, e)
    ensures Inv(env, Appended(env, w, e))
    ensures var ch := Check(env, w).value; var after := Check(env, Appended(env, w, e)).value;
      after.ledger == Extend(ch.ledger, e, EventLine(env.c, e).entrySha) && after.snapshot == ch.snapshot
  {
    hide Verify, LoadCustody, Load, ReconcileLedger, AppendError, AppendReadBack;
    var l, s, a := Checks(env, w);
    var after := Appended(env, w, e);
    AppendLaw(env, w, l, e, 2);
    var m := Extend(l, e, EventLine(env.c, e).entrySha);
    assert FreshHistory(env, after) == Ok(s);
    ReconcileIgnoresHead(Extend(l, e, ""), s, m.head);
    assert m == Extend(l, e, "").(head := m.head);
    assert Check(env, after).Ok?;
    forall n ensures Latest(m.events, n) == if e.sequence == n then Some(e) else Latest(l.events, n) {
      LatestSnoc(l.events, e, n);
    }
    assert FailedIsAuthenticated(m, s);
    NewestIgnoresHead(Extend(l, e, ""), s, m.head);
    forall x | x in w.issued ensures exists r :: r in m.events && Reserves(r, x) {
      var r :| r in l.events && Reserves(r, x);
      assert r in m.events;
    }
    IncreasingSnoc(l.events, e, Reserved);
    IncreasingSnoc(l.events, e, Published);
  }

  lemma AppendReadBackKeepsInv(env: Env, w: World, ch: Checked, e: Event, writes: nat)
    requires Laws(env) && Inv(env, w) && Check(env, w) == Ok(ch) && e.previous == ch.ledger.head
    requires AppendError(ch.ledger, e, ch.ledger.head) == None ==> Fits(ch.ledger, ch.snapshot, e)
    ensures Inv(env, AppendReadBack(env, w, e, ch.ledger.head, writes).0)
  {
    var l, s, a := Checks(env, w);
    AppendLaw(env, w, l, e, writes);
    if AppendError(l, e, l.head) == None { AppendKeepsInv(env, w, e); }
  }

  // ---- reserve ---------------------------------------------------------------------------

  /** The next unused sequence is free in the ledger and in the history. */
  lemma NextIsFree(l: VerifiedLedger, s: Snapshot, a: Authority)
    requires ReconcileLedger(l, s) == Ok(a)
    ensures a.nextUnused > l.genesis.floor.sequence && a.nextUnused !in s.bindings
    ensures forall x :: x in l.events ==> x.sequence < a.nextUnused
    ensures OfSequence(l.events, a.nextUnused) == []
  {
    hide ReconcileLedger, AuthorityOf, OfSequence;
    ReconcileMeans(l, s);
    NextUnusedExceedsAll(l, s, a.recovery);
    OfSequenceEmpty(l.events, a.nextUnused);
  }

  /** A RESERVED event of a free sequence is accepted and leaves ledger and history in order. */
  lemma FreeIsAccepted(l: VerifiedLedger, s: Snapshot, e: Event)
    requires OfSequence(l.events, e.sequence) == [] && e.sequence > l.genesis.floor.sequence && e.previous == l.head
    requires Coherent(l, s) && e.sequence !in s.bindings && e.status.Reserved?
    ensures AppendError(l, e, l.head) == None && Coherent(Extend(l, e, ""), s)
    ensures forall n :: PendingOf(Extend(l, e, ""), s, n) == PendingOf(l, s, n)
  {
    hide AppendError, OfSequence, Coherent, Latest;
    assert Lifeline([e]) && [] + [e] == [e];
    AppendErrorProlongs(l, e);
    CoherentAfter(l, s, e, "");
  }

  /** The RESERVED event of the next unused sequence fits. */
  lemma ReservedFits(l: VerifiedLedger, s: Snapshot, a: Authority, t: Target, timestamp: string)
    requires ReconcileLedger(l, s) == Ok(a) && a.recovery == NoRecovery
    ensures var e := ReservedEvent(a.nextUnused, t, timestamp, l.head);
      && Fits(l, s, e)
      && e.sequence > l.genesis.floor.sequence
      && e.sequence !in s.bindings
      && (forall x :: x in l.events ==> x.sequence < e.sequence)
      && ReconcileLedger(Extend(l, e, ""), s).Ok? && ReconcileLedger(Extend(l, e, ""), s).value.recovery == NoRecovery
  {
    hide VersionOf, Format04, ReconcileLedger, AppendError, AuthorityOf, OfSequence, Coherent, PendingOf;
    var e := ReservedEvent(a.nextUnused, t, timestamp, l.head);
    NextIsFree(l, s, a);
    ReconcileMeans(l, s);
    FreeIsAccepted(l, s, e);
    ReconcileMeans(Extend(l, e, ""), s);
  }

  lemma ReserveKeepsInv(env: Env, w: World, t: Target, timestamp: string, writes: nat)
    requires Laws(env) && Inv(env, w)
    ensures Inv(env, Reserve(env, w, t, timestamp, writes).0)
  {
    hide Verify, LoadCustody, Load, ReconcileLedger, AppendError, VersionOf;
    var l, s, a := Checks(env, w);
    if a.recovery == NoRecovery {
      var e := ReservedEvent(a.nextUnused, t, timestamp, l.head);
      ReservedFits(l, s, a, t, timestamp);
      AppendLaw(env, w, l, e, writes);
      AppendKeepsInv(env, w, e);
      var after := Appended(env, w, e);
      if writes >= 2 {
        var allocation := Allocation(e.sequence, e.releaseId, EventLine(env.c, e).entrySha, t.componentSet,
          a.bindingsSha, a.snapshotSha);
        IssueKeepsInv(env, after, e, allocation);
      }
    }
  }

  lemma IssueKeepsInv(env: Env, w: World, e: Event, allocation: Allocation)
    requires Inv(env, w) && e in Check(env, w).value.ledger.events && Reserves(e, allocation)
    ensures Inv(env, w.(issued := w.issued + [allocation]))
  {
    var after := w.(issued := w.issued + [allocation]);
    assert Check(env, after) == Check(env, w);
    var l := Check(env, w).value.ledger;
    forall x | x in after.issued ensures exists r :: r in l.events && Reserves(r, x) {
      if x in w.issued {} else { assert Reserves(e, x); }
    }
  }

  // ---- sign and publish: an event for an authenticated sequence --------------------------

  /** The first RESERVED event of a sequence is the one its life begins with. */
  lemma {:induction false} FindReservedMeans(events: seq<Event>, n: int)
    ensures FindReserved(events, n).Some? ==>
              var r := FindReserved(events, n).value; r in events && r.sequence == n && r.status.Reserved?
    ensures FindReserved(events, n).None? ==> forall e :: e in events && e.sequence == n ==> !e.status.Reserved?
  {
    if events != [] {
      assert events == [events[0]] + events[1..];
      FindReservedMeans(events[1..], n);
    }
  }

  lemma ReservationHeads(l: VerifiedLedger, n: int, e: Event)
    requires AllLifelines(l.genesis.floor.sequence, l.events)
    requires e in l.events && e.sequence == n && e.status.Reserved?
    ensures OfSequence(l.events, n) != [] && OfSequence(l.events, n)[0] == e
  {
    OfSequenceMembers(l.events, n);
    var h := OfSequence(l.events, n);
    assert e in h;
    var i :| 0 <= i < |h| && h[i] == e;
    RankGrows(h, 0, i);
  }

  /** An accepted event of a known sequence carries its allocation. */
  lemma AcceptedKeepsAllocation(l: VerifiedLedger, e: Event, state: Event)
    requires AllLifelines(l.genesis.floor.sequence, l.events)
    requires AppendError(l, e, l.head) == None && Latest(l.events, e.sequence) == Some(state)
    ensures SameAllocation(e, state)
  {
    LatestEndsLifeline(l, e.sequence);
  }

  lemma NeverPublishedIn(h: seq<Event>)
    requires Lifeline(h) && h != [] && Rank(h[|h| - 1].status) <= 1
    ensures forall x :: x in h ==> !x.status.Published?
  {
    forall i | 0 <= i < |h| ensures !h[i].status.Published? { RankGrows(h, i, |h| - 1); }
  }

  lemma NeverPublishedBefore(l: VerifiedLedger, n: int, state: Event)
    requires AllLifelines(l.genesis.floor.sequence, l.events)
    requires Latest(l.events, n) == Some(state) && (state.status.Reserved? || state.status.Signed?)
    ensures forall x :: x in l.events && x.sequence == n ==> !x.status.Published?
  {
    LatestEndsLifeline(l, n);
    OfSequenceMembers(l.events, n);
    NeverPublishedIn(OfSequence(l.events, n));
  }

  /** After an event of the newest sequence, nothing older waits if nothing else does. */
  lemma StillNewest(l: VerifiedLedger, s: Snapshot, e: Event)
    requires Newest(l, s, e.sequence) && ReconcileLedger(Extend(l, e, ""), s).Ok?
    requires var r := ReconcileLedger(Extend(l, e, ""), s).value.recovery; r == NoRecovery || r.sequence == e.sequence
    ensures PendingIsNewest(Extend(l, e, ""), s)
  {
    hide ReconcileLedger;
    ReconcileMeans(Extend(l, e, ""), s);
  }

  /** A SIGNED or PUBLISHED event that agrees with the authenticated binding of its sequence fits,
      when that sequence waits for it and, for PUBLISHED, nothing larger has been consumed. */
  lemma AuthenticatedFits(l: VerifiedLedger, s: Snapshot, a: Authority, state: Event, e: Event)
    requires AllLifelines(l.genesis.floor.sequence, l.events) && (forall x :: x in l.events ==> WellAllocated(x))
    requires ReconcileLedger(l, s) == Ok(a) && a.recovery != NoRecovery && a.recovery.sequence == e.sequence
    requires PendingIsNewest(l, s)
    requires e.sequence in s.bindings && Latest(l.events, e.sequence) == Some(state)
    requires e.previous == l.head && AppendError(l, e, l.head) == None && Agrees(s.bindings[e.sequence], e)
    requires (e.status.Signed? && state.status.Reserved?)
      || (e.status.Published? && state.status.Signed? && a.highestConsumed <= e.sequence)
    ensures Fits(l, s, e)
    ensures ReconcileLedger(Extend(l, e, ""), s).value.recovery
            == if e.status.Signed? && e.sequence in s.live then PublishedAppendRequired(e.sequence) else NoRecovery
  {
    LatestMember(l.events, e.sequence);
    LatestEndsLifeline(l, e.sequence);
    AcceptedKeepsAllocation(l, e, state);
    ReconcileMeans(l, s);
    RepairReconciles(l, s, state, e, "");
    StillNewest(l, s, e);
    if e.status.Published? {
      NextUnusedExceedsAll(l, s, a.recovery);
      NeverPublishedBefore(l, e.sequence, state);
      forall x | x in l.events && x.status.Published? ensures x.sequence < e.sequence {
        assert x.sequence <= a.highestConsumed;
      }
    }
  }

  // ---- one more record of history --------------------------------------------------------

  /** A snapshot that differs from another one by one record. */
  ghost predicate OneMore(er: EnvelopeReader, s: Snapshot, t: Snapshot, r: Record)
    requires WellFormed(er, r)
  {
    var n := SequenceOf(er, r);
    && t.bindings == s.bindings[n := BindingOf(er, r)]
    && t.provenance == (if r.provenance.Some? then s.provenance[n := r.provenance.value] else s.provenance)
    && t.live == (if r.kind.LiveUpdates? then s.live + {n} else s.live)
  }

  lemma LoadOneMore(er: EnvelopeReader, rs: seq<Record>, qs: seq<Record>, r: Record)
    requires Load(er, rs).Ok? && multiset(qs) == multiset(rs) + multiset{r} && WellFormed(er, r)
    requires var s, n := Load(er, rs).value, SequenceOf(er, r);
      && (n in s.bindings ==> s.bindings[n] == BindingOf(er, r))
      && (r.provenance.Some? && n in s.provenance ==> s.provenance[n] == r.provenance.value)
    ensures Load(er, qs).Ok? && OneMore(er, Load(er, rs).value, Load(er, qs).value, r)
  {
    var all := rs + [r];
    assert all[..|rs|] == rs;
    assert multiset(all) == multiset(qs);
    assert Load(er, all).Ok?;
    LoadIsOrderIndependent(er, all, qs);
  }

  /** An authenticated binding belongs to some record. */
  lemma BindingHasRecord(er: EnvelopeReader, rs: seq<Record>, n: int) returns (r: Record)
    requires Load(er, rs).Ok? && n in Load(er, rs).value.bindings
    ensures r in rs && WellFormed(er, r) && SequenceOf(er, r) == n && BindingOf(er, r) == Load(er, rs).value.bindings[n]
  {
    LoadTells(er, rs);
    assert Mentions(er, rs, n);
    r :| r in rs && WellFormed(er, r) && SequenceOf(er, r) == n;
  }

  lemma AttestedIsBound(er: EnvelopeReader, rs: seq<Record>, n: int)
    requires Load(er, rs).Ok?
    ensures n in Load(er, rs).value.provenance ==> n in Load(er, rs).value.bindings
  {
    LoadTells(er, rs);
    assert Attests(er, rs, n) ==> Mentions(er, rs, n);
  }

  /** A change of the history alone keeps the invariant when it reconciles and stays backed. */
  lemma NewHistoryKeepsInv(env: Env, w: World, v: World, t: Snapshot)
    requires Inv(env, w) && v.ledger == w.ledger && v.issued == w.issued
    requires FreshHistory(env, v) == Ok(t) && ReconcileLedger(Check(env, w).value.ledger, t).Ok?
    requires Backed(env, v, Check(env, w).value.ledger.genesis.floor.sequence, t)
    requires forall n :: n in Check(env, w).value.snapshot.bindings ==> n in t.bindings
    requires PendingIsNewest(Check(env, w).value.ledger, t)
    ensures Inv(env, v)
    ensures var l := Check(env, w).value.ledger; Check(env, v) == Ok(Checked(l, t, ReconcileLedger(l, t).value))
  {}

  /** Whatever a step makes pending is the newest sequence, if nothing larger was consumed or authenticated before. */
  lemma OnlyNewestPending(l: VerifiedLedger, s: Snapshot, t: Snapshot, n: int)
    requires ReconcileLedger(l, s).Ok? && ReconcileLedger(l, t).Ok?
    requires ReconcileLedger(l, s).value.highestAuthenticated <= n && ReconcileLedger(l, s).value.highestConsumed <= n
    requires forall m :: m in t.bindings ==> m in s.bindings || m == n
    requires ReconcileLedger(l, t).value.recovery != NoRecovery && ReconcileLedger(l, t).value.recovery.sequence == n
    ensures PendingIsNewest(l, t)
  {
    hide ReconcileLedger, AuthorityOf;
    ReconcileMeans(l, s);
    ReconcileMeans(l, t);
    NextUnusedExceedsAll(l, s, ReconcileLedger(l, s).value.recovery);
  }

  // ---- a new envelope in custody ---------------------------------------------------------

  /** A reserved sequence whose envelope appears in custody becomes the one pending repair. */
  lemma CoherentEnvelopeAdded(l: VerifiedLedger, s: Snapshot, t: Snapshot, n: int, state: Event)
    requires Coherent(l, s) && (forall m :: PendingOf(l, s, m) == NoRecovery)
    requires n > l.genesis.floor.sequence && n !in s.bindings && Latest(l.events, n) == Some(state)
    requires state.status.Reserved?
    requires n in t.bindings && t.bindings == s.bindings[n := t.bindings[n]] && Agrees(t.bindings[n], state)
    requires t.provenance == s.provenance[n := state.sourceCommit] && t.live == s.live
    ensures ReconcileLedger(l, t).Ok? && ReconcileLedger(l, t).value.recovery == SignedAppendRequired(n)
  {
    assert forall m :: m != n ==> PendingOf(l, t, m) == PendingOf(l, s, m);
    assert PendingOf(l, t, n) == SignedAppendRequired(n);
    forall m | m in t.bindings ensures Accounted(l, t, m) {
      if m != n { assert Accounted(l, s, m); }
    }
    ReconcileMeans(l, t);
  }

  /** The guards of the normal signing path. */
  ghost predicate Signing(env: Env, w: World, ch: Checked, reserved: Event, q: SignRequest, envelope: Bytes) {
    var n := q.allocation.sequence;
    && Check(env, w) == Ok(ch)
    && ch.authority.recovery == NoRecovery && ch.authority.highestAuthenticated < n && ch.authority.highestConsumed <= n
    && reserved in ch.ledger.events && reserved.sequence == n && reserved.status.Reserved?
    && EnvelopeMatches(env.cr.er, envelope, q)
  }

  /** The request names the release and the component set of the reservation. */
  predicate NamesReservation(reserved: Event, q: SignRequest) {
    q.allocation.releaseId == reserved.releaseId && q.unsigned.componentSet == reserved.componentSet
  }

  /** Its envelope can be filed: the request names the reserved release, whose commit custody can read back. */
  predicate Filable(reserved: Event, q: SignRequest) {
    q.allocation.releaseId == reserved.releaseId && |reserved.sourceCommit| == 40
  }

  /** The guards of the normal signing path, for a request that matches its reservation. */
  ghost predicate FreshSigning(env: Env, w: World, ch: Checked, reserved: Event, q: SignRequest, envelope: Bytes) {
    Signing(env, w, ch, reserved, q, envelope) && NamesReservation(reserved, q) && Filable(reserved, q)
  }

  /** A sequence that is not authenticated and was reserved is still just reserved. */
  lemma StillReserved(l: VerifiedLedger, s: Snapshot, n: int, reserved: Event)
    requires AllLifelines(l.genesis.floor.sequence, l.events) && RecordedIsAuthenticated(l, s)
    requires FailedIsAuthenticated(l, s)
    requires reserved in l.events && reserved.sequence == n && reserved.status.Reserved? && n !in s.bindings
    ensures Latest(l.events, n) == Some(reserved)
  {
    LatestMember(l.events, n);
    var state := Latest(l.events, n).value;
    LatestEndsLifeline(l, n);
    var h := OfSequence(l.events, n);
    NoUnknown(h);
    assert state.status.Reserved?;
    ReservedIsAlone(h);
    ReservationHeads(l, n, reserved);
  }

  lemma NoUnknown(h: seq<Event>)
    requires Lifeline(h) && h != []
    ensures !h[|h| - 1].status.Unknown?
  {
    var i := |h| - 1;
    assert i > 0 ==> h[i].status in AllowedNext(h[i - 1].status);
  }

  lemma SortedHistory(old': seq<Record>, r: Record, live: seq<Record>)
    ensures multiset(Sort(old' + [r], RecordById) + live) == multiset(old' + live) + multiset{r}
  {
    forall a, b ensures RecordById(a, b) || RecordById(b, a) { LeqTotal(a.sourceId, b.sourceId); }
    forall a, b, d | RecordById(a, b) && RecordById(b, d) ensures RecordById(a, d) {
      LeqTransitive(a.sourceId, b.sourceId, d.sourceId);
    }
    SortSorts(old' + [r], RecordById);
  }

  function Filed(env: Env, w: World, r: Record, writes: nat): World {
    w.(custody := AppendCustody(env.cr, w.custody, r, CurrentIndexSha(env, w.custody), writes).0)
  }

  /** An append to custody that completes and adds an entry. */
  predicate Files(env: Env, w: World, r: Record, writes: nat) {
    && AppendCustody(env.cr, w.custody, r, CurrentIndexSha(env, w.custody), writes).1.Done?
    && FindEntry(EntriesOf(w.custody.index), r.sourceId).None?
  }

  /** The history after the normal signing path has filed its envelope: one record more. */
  lemma FiledHistory(env: Env, w: World, ch: Checked, reserved: Event, q: SignRequest, envelope: Bytes, writes: nat)
    requires Laws(env) && Inv(env, w) && Signing(env, w, ch, reserved, q, envelope)
    requires Files(env, w, CustodyRecordOf(reserved, q, envelope), writes)
    requires |reserved.sourceCommit| == 40
    ensures var er, r := env.cr.er, CustodyRecordOf(reserved, q, envelope); var filed := Filed(env, w, r, writes);
      && WellFormed(er, r) && SequenceOf(er, r) == q.allocation.sequence
      && LoadCustody(er, filed.custody).Ok?
      && LoadCustody(er, filed.custody).value == Sort(LoadCustody(er, w.custody).value + [r], RecordById)
      && FreshHistory(env, filed).Ok?
      && OneMore(er, ch.snapshot, FreshHistory(env, filed).value, r)
  {
    var er, r := env.cr.er, CustodyRecordOf(reserved, q, envelope);
    var l, s, a := Checks(env, w);
    var n, old' := q.allocation.sequence, LoadCustody(er, w.custody).value;
    AppendWrites(env.cr, w.custody, r, CurrentIndexSha(env, w.custody), writes);
    AppendRoundTrip(env.cr, w.custody, r, CurrentIndexSha(env, w.custody), writes);
    SortedHistory(old', r, w.live);
    NextUnusedExceedsAll(l, s, a.recovery);
    AttestedIsBound(er, old' + w.live, n);
    LoadOneMore(er, old' + w.live, Sort(old' + [r], RecordById) + w.live, r);
  }

  lemma BackedOneMore(env: Env, w: World, filed: World, floor: int, s: Snapshot, t: Snapshot, r: Record)
    requires Backed(env, w, floor, s) && LoadCustody(env.cr.er, filed.custody).Ok?
    requires LoadCustody(env.cr.er, filed.custody).value
      == Sort(LoadCustody(env.cr.er, w.custody).value + [r], RecordById)
    requires WellFormed(env.cr.er, r) && OneMore(env.cr.er, s, t, r)
    ensures Backed(env, filed, floor, t)
  {
    var er := env.cr.er;
    var old', new' := LoadCustody(er, w.custody).value, LoadCustody(er, filed.custody).value;
    forall m | m in t.bindings && m > floor ensures Mentions(er, new', m) {
      var x := r;
      if m != SequenceOf(er, r) {
        assert Mentions(er, old', m);
        x :| x in old' && WellFormed(er, x) && SequenceOf(er, x) == m;
      }
      assert x in old' + [r];
      SortMember(old' + [r], RecordById, x);
    }
  }

  /** The invariant after that step, and the one repair that is now pending. */
  lemma FiledKeepsInv(env: Env, w: World, ch: Checked, reserved: Event, q: SignRequest, envelope: Bytes, writes: nat)
    requires Laws(env) && Inv(env, w) && Signing(env, w, ch, reserved, q, envelope)
    requires Filable(reserved, q)
    requires Files(env, w, CustodyRecordOf(reserved, q, envelope), writes)
    ensures var filed := Filed(env, w, CustodyRecordOf(reserved, q, envelope), writes);
      && Inv(env, filed)
      && Check(env, filed).value.ledger == ch.ledger
      && Check(env, filed).value.authority.recovery == SignedAppendRequired(q.allocation.sequence)
  {
    var er, r := env.cr.er, CustodyRecordOf(reserved, q, envelope);
    var l, s, a := Checks(env, w);
    var n := q.allocation.sequence;
    FiledHistory(env, w, ch, reserved, q, envelope, writes);
    var filed := Filed(env, w, r, writes);
    var t := FreshHistory(env, filed).value;
    NextUnusedExceedsAll(l, s, a.recovery);
    StillReserved(l, s, n, reserved);
    LatestEndsLifeline(l, n);
    assert WellAllocated(reserved);
    ReconcileMeans(l, s);
    CoherentEnvelopeAdded(l, s, t, n, reserved);
    OnlyNewestPending(l, s, t, n);
    BackedOneMore(env, w, filed, l.genesis.floor.sequence, s, t, r);
    NewHistoryKeepsInv(env, w, filed, t);
  }

  lemma SigningFacts(env: Env, w: World, ch: Checked, reserved: Event, q: SignRequest, envelope: Bytes)
    requires Inv(env, w) && Signing(env, w, ch, reserved, q, envelope)
    ensures var n := q.allocation.sequence;
      n > ch.ledger.genesis.floor.sequence && Latest(ch.ledger.events, n) == Some(reserved)
    ensures Verify(env.c, w.ledger) == Ok(ch.ledger)
  {
    var l, s, a := Checks(env, w);
    NextUnusedExceedsAll(l, s, a.recovery);
    StillReserved(l, s, q.allocation.sequence, reserved);
    LatestEndsLifeline(l, q.allocation.sequence);
  }

  lemma RecordNamesAllocation(er: EnvelopeReader, s: Snapshot, t: Snapshot, reserved: Event, q: SignRequest,
      envelope: Bytes)
    requires EnvelopeMatches(er, envelope, q) && WellFormed(er, CustodyRecordOf(reserved, q, envelope))
    requires OneMore(er, s, t, CustodyRecordOf(reserved, q, envelope))
    ensures var n := q.allocation.sequence;
      n in t.bindings && t.bindings[n].releaseId == q.allocation.releaseId
  {
  }

  lemma ForeignBindingFails(l: VerifiedLedger, t: Snapshot, n: int, state: Event)
    requires n > l.genesis.floor.sequence && n in t.bindings && Latest(l.events, n) == Some(state)
    requires t.bindings[n].releaseId != state.releaseId
    ensures ReconcileLedger(l, t).Err?
  {
    hide ReconcileLedger;
    assert !Accounted(l, t, n);
    ReconcileMeans(l, t);
  }

  lemma ForeignFilingFails(env: Env, w: World, ch: Checked, reserved: Event, q: SignRequest, envelope: Bytes,
      writes: nat)
    requires Laws(env) && Inv(env, w) && Signing(env, w, ch, reserved, q, envelope)
    requires Files(env, w, CustodyRecordOf(reserved, q, envelope), writes)
    requires q.allocation.releaseId != reserved.releaseId && |reserved.sourceCommit| == 40
    ensures Check(env, Filed(env, w, CustodyRecordOf(reserved, q, envelope), writes)).Err?
  {
    hide Inv, AppendCustody, Verify, FreshHistory, ReconcileLedger, EnvelopeMatches, CustodyRecordOf, OneMore,
      EntriesOf, FindEntry;
    var filed := Filed(env, w, CustodyRecordOf(reserved, q, envelope), writes);
    FiledHistory(env, w, ch, reserved, q, envelope, writes);
    SigningFacts(env, w, ch, reserved, q, envelope);
    var t := FreshHistory(env, filed).value;
    RecordNamesAllocation(env.cr.er, ch.snapshot, t, reserved, q, envelope);
    ForeignBindingFails(ch.ledger, t, q.allocation.sequence, reserved);
  }

  lemma UnreadableFilingFails(env: Env, w: World, reserved: Event, q: SignRequest, envelope: Bytes, writes: nat)
    requires Inv(env, w) && Files(env, w, CustodyRecordOf(reserved, q, envelope), writes)
    requires |reserved.sourceCommit| != 40
    ensures Check(env, Filed(env, w, CustodyRecordOf(reserved, q, envelope), writes)).Err?
  {
    hide Verify, LoadCustody, Load, ReconcileLedger, AppendCustody;
    AppendRoundTrip(env.cr, w.custody, CustodyRecordOf(reserved, q, envelope), CurrentIndexSha(env, w.custody), writes);
  }

  /** Signing does not compare the allocation it is given with the reservation it finds. Once its envelope is in
      custody, ledger and history reconcile exactly when the two name the same release and the reserved commit has 40
      characters. */
  lemma FilingReconcilesIff(env: Env, w: World, ch: Checked, reserved: Event, q: SignRequest, envelope: Bytes,
      writes: nat)
    requires Laws(env) && Inv(env, w) && Signing(env, w, ch, reserved, q, envelope)
    requires Files(env, w, CustodyRecordOf(reserved, q, envelope), writes)
    ensures Check(env, Filed(env, w, CustodyRecordOf(reserved, q, envelope), writes)).Ok? <==> Filable(reserved, q)
  {
    hide Signing, AppendCustody, Check, CustodyRecordOf, EntriesOf, FindEntry, Laws;
    if Filable(reserved, q) {
      FiledKeepsInv(env, w, ch, reserved, q, envelope, writes);
    } else if |reserved.sourceCommit| != 40 {
      UnreadableFilingFails(env, w, reserved, q, envelope, writes);
    } else {
      ForeignFilingFails(env, w, ch, reserved, q, envelope, writes);
    }
  }

  lemma FreshIsSigning(env: Env, w: World, ch: Checked, reserved: Event, q: SignRequest, envelope: Bytes)
    requires FreshSigning(env, w, ch, reserved, q, envelope)
    ensures Signing(env, w, ch, reserved, q, envelope) && NamesReservation(reserved, q) && Filable(reserved, q)
    ensures |reserved.sourceCommit| == 40
  {
  }

  // ---- sign ------------------------------------------------------------------------------

  /** The SIGNED event of either signing path fits, when the sequence waits for it and the binding
      in history is that of the request. */
  lemma SignedFits(l: VerifiedLedger, s: Snapshot, a: Authority, reserved: Event, q: SignRequest)
    requires AllLifelines(l.genesis.floor.sequence, l.events) && (forall x :: x in l.events ==> WellAllocated(x))
    requires ReconcileLedger(l, s) == Ok(a) && a.recovery == SignedAppendRequired(q.allocation.sequence)
    requires PendingIsNewest(l, s)
    requires q.allocation.sequence in s.bindings && BindingFits(s.bindings[q.allocation.sequence], q)
    requires AppendError(l, SignedEventOf(reserved, q, s.bindings[q.allocation.sequence].envelopeSha, l.head), l.head)
      == None
    ensures Fits(l, s, SignedEventOf(reserved, q, s.bindings[q.allocation.sequence].envelopeSha, l.head))
  {
    var n, b, state := PendingFacts(l, s);
    var e := SignedEventOf(reserved, q, b.envelopeSha, l.head);
    assert Agrees(b, e);
    AuthenticatedFits(l, s, a, state, e);
  }

  lemma AppendSignedKeepsInv(env: Env, w: World, ch: Checked, reserved: Event, q: SignRequest, sha: Digest, writes: nat)
    requires Laws(env) && Inv(env, w) && Check(env, w) == Ok(ch)
    requires ch.authority.recovery == SignedAppendRequired(q.allocation.sequence)
    requires q.allocation.sequence in ch.snapshot.bindings
    requires BindingFits(ch.snapshot.bindings[q.allocation.sequence], q)
    requires sha == ch.snapshot.bindings[q.allocation.sequence].envelopeSha
    ensures Inv(env, AppendSigned(env, w, reserved, q, sha, ch.ledger.head, writes).0)
  {
    var l, s, a := Checks(env, w);
    var e := SignedEventOf(reserved, q, sha, l.head);
    if AppendError(l, e, l.head) == None { SignedFits(l, s, a, reserved, q); }
    AppendReadBackKeepsInv(env, w, ch, e, writes);
    SignedWorld(env, w, reserved, q, sha, l.head, writes);
  }

  lemma SignedWorld(env: Env, w: World, reserved: Event, q: SignRequest, sha: Digest, head: Digest, writes: nat)
    ensures AppendSigned(env, w, reserved, q, sha, head, writes).0
            == AppendReadBack(env, w, SignedEventOf(reserved, q, sha, head), head, writes).0
  {}

  /** The authenticated binding is the one the request asks for. */
  predicate BindingFits(b: Binding, q: SignRequest) {
    b.releaseId == q.allocation.releaseId && b.payloadSha == q.unsigned.payloadSha && b.keyId == q.productionKey
  }

  /** A file with the digest of an authenticated binding is the envelope of that binding. */
  lemma FileIsEnvelope(env: Env, w: World, ch: Checked, n: int, bytes: Bytes)
    requires Laws(env) && Check(env, w) == Ok(ch) && n in ch.snapshot.bindings
    requires env.cr.er.sha(bytes) == ch.snapshot.bindings[n].envelopeSha
    ensures env.cr.er.canonical(bytes)
    ensures var v := env.cr.er.verify(bytes); var b := ch.snapshot.bindings[n];
      v.Some? && v.value.sequence == n
        && b == Binding(n, v.value.releaseId, v.value.payloadSha, b.envelopeSha, v.value.keyId)
  {
    var r := BindingHasRecord(env.cr.er, LoadCustody(env.cr.er, w.custody).value + w.live, n);
    assert r.envelope == bytes;
  }

  /** Which way a signing has gone that changes something or dies. */
  lemma SignPaths(env: Env, w: World, q: SignRequest, signer: Signer, writes: nat)
    returns (ch: Checked, reserved: Event, recovered: bool)
    requires Sign(env, w, q, signer, writes).0 != w || Sign(env, w, q, signer, writes).1.Crashed?
    ensures Check(env, w) == Ok(ch) && SameAllocationAndPayload(env.cr.er, q) && w.ledger != []
    ensures FindReserved(ch.ledger.events, q.allocation.sequence) == Some(reserved)
    ensures recovered ==>
              && ch.authority.recovery == SignedAppendRequired(q.allocation.sequence)
              && Sign(env, w, q, signer, writes) == SignRecovered(env, w, ch, reserved, q, writes)
    ensures !recovered ==>
              && ch.authority.recovery == NoRecovery && ch.authority.highestAuthenticated < q.allocation.sequence
              && ch.authority.highestConsumed <= q.allocation.sequence
              && ch.authority.nextUnused <= q.allocation.sequence + 1
              && signer.Signs? && EnvelopeMatches(env.cr.er, signer.envelope, q)
              && Sign(env, w, q, signer, writes) == SignFresh(env, w, reserved, q, signer.envelope, writes)
  {
    ch := Check(env, w).value;
    reserved := FindReserved(ch.ledger.events, q.allocation.sequence).value;
    recovered := ch.authority.recovery == SignedAppendRequired(q.allocation.sequence);
  }

  /** On the normal path, the request names the release of its reservation, whose commit custody can read back. */
  ghost predicate SignsItsReservation(env: Env, w: World, q: SignRequest) {
    Check(env, w).Ok? && Check(env, w).value.authority.recovery == NoRecovery ==>
      var r := FindReserved(Check(env, w).value.ledger.events, q.allocation.sequence);
      r.Some? ==> Filable(r.value, q)
  }

  /** Signing keeps the invariant, on either path and wherever it dies. */
  lemma SignKeepsInv(env: Env, w: World, q: SignRequest, signer: Signer, writes: nat)
    requires Laws(env) && Inv(env, w) && SignsItsReservation(env, w, q)
    ensures Inv(env, Sign(env, w, q, signer, writes).0)
  {
    hide Inv, Check, Sign, SignRecovered, SignFresh, EnvelopeMatches, Laws;
    if Sign(env, w, q, signer, writes).0 != w {
      var ch, reserved, recovered := SignPaths(env, w, q, signer, writes);
      FindReservedMeans(ch.ledger.events, q.allocation.sequence);
      if recovered {
        SignRecoveredKeepsInv(env, w, ch, reserved, q, writes);
      } else {
        assert Signing(env, w, ch, reserved, q, signer.envelope);
        SignFreshKeepsInv(env, w, ch, reserved, q, signer.envelope, writes);
      }
    }
  }

  lemma SignRecoveredKeepsInv(env: Env, w: World, ch: Checked, reserved: Event, q: SignRequest, writes: nat)
    requires Laws(env) && Inv(env, w) && Check(env, w) == Ok(ch)
    requires ch.authority.recovery == SignedAppendRequired(q.allocation.sequence)
    requires reserved in ch.ledger.events && reserved.sequence == q.allocation.sequence && reserved.status.Reserved?
    ensures Inv(env, SignRecovered(env, w, ch, reserved, q, writes).0)
  {
    var n := q.allocation.sequence;
    if n in ch.snapshot.bindings {
      var b := ch.snapshot.bindings[n];
      var name := FileName(b.envelopeSha);
      if name in w.custody.envelopes && env.cr.er.sha(w.custody.envelopes[name]) == b.envelopeSha
        && EnvelopeMatches(env.cr.er, w.custody.envelopes[name], q) && b.keyId == q.productionKey {
        FileIsEnvelope(env, w, ch, n, w.custody.envelopes[name]);
        AppendSignedKeepsInv(env, w, ch, reserved, q, b.envelopeSha, writes);
      }
    }
  }

  /** The RESERVED event the signing path finds is the one of the allocation. */
  lemma ReservationOfIssued(env: Env, w: World, ch: Checked, a: Allocation, reserved: Event)
    requires Inv(env, w) && Check(env, w) == Ok(ch) && a in w.issued
    requires reserved in ch.ledger.events && reserved.sequence == a.sequence && reserved.status.Reserved?
    ensures Reserves(reserved, a)
  {
    var l, s, x := Checks(env, w);
    var e :| e in l.events && Reserves(e, a);
    ReservationHeads(l, a.sequence, e);
    ReservationHeads(l, a.sequence, reserved);
  }

  /** An append that leaves the index alone leaves history and ledger as they are. */
  lemma UnfiledKeepsInv(env: Env, w: World, r: Record, writes: nat)
    requires Inv(env, w)
    requires var out := AppendCustody(env.cr, w.custody, r, CurrentIndexSha(env, w.custody), writes).1;
      out.Done? ==> FindEntry(EntriesOf(w.custody.index), r.sourceId).Some?
    ensures Inv(env, Filed(env, w, r, writes))
    ensures Check(env, Filed(env, w, r, writes)) == Check(env, w)
  {
    hide Inv, Check, AppendCustody, LoadCustody, EntriesOf, FindEntry;
    InvReadsCustody(env, w);
    AppendInterrupted(env.cr, w.custody, r, CurrentIndexSha(env, w.custody), writes);
    UnfiledShape(env.cr, w.custody, r, CurrentIndexSha(env, w.custody), writes);
    SameRecordsKeepInv(env, w, Filed(env, w, r, writes));
  }

  lemma InvReadsCustody(env: Env, w: World)
    requires Inv(env, w)
    ensures LoadCustody(env.cr.er, w.custody).Ok?
  {}

  lemma SameRecordsKeepInv(env: Env, w: World, v: World)
    requires Inv(env, w) && v == w.(custody := v.custody)
    requires LoadCustody(env.cr.er, v.custody) == LoadCustody(env.cr.er, w.custody)
    ensures Inv(env, v) && Check(env, v) == Check(env, w)
  {
    assert FreshHistory(env, v) == FreshHistory(env, w);
  }

  lemma SignFreshKeepsInv(env: Env, w: World, ch: Checked, reserved: Event, q: SignRequest, envelope: Bytes,
      writes: nat)
    requires Laws(env) && Inv(env, w) && Signing(env, w, ch, reserved, q, envelope) && Filable(reserved, q)
    ensures Inv(env, SignFresh(env, w, reserved, q, envelope, writes).0)
  {
    hide Inv, AppendCustody, CustodyRecordOf, AppendSigned, Verify, FreshHistory, ReconcileLedger;
    var r := CustodyRecordOf(reserved, q, envelope);
    var filed := Filed(env, w, r, writes);
    if Files(env, w, r, writes) {
      SignFiledKeepsInv(env, w, ch, reserved, q, envelope, writes);
    } else {
      UnfiledKeepsInv(env, w, r, writes);
      assert Check(env, filed).value.authority.recovery == NoRecovery;
    }
  }

  lemma SignFiledKeepsInv(env: Env, w: World, ch: Checked, reserved: Event, q: SignRequest, envelope: Bytes,
      writes: nat)
    requires Laws(env) && Inv(env, w) && Signing(env, w, ch, reserved, q, envelope) && Filable(reserved, q)
    requires Files(env, w, CustodyRecordOf(reserved, q, envelope), writes)
    ensures Inv(env, SignFresh(env, w, reserved, q, envelope, writes).0)
  {
    hide *;
    var r := CustodyRecordOf(reserved, q, envelope);
    var filed := Filed(env, w, r, writes);
    FilableCommit(reserved, q);
    FiledKeepsInv(env, w, ch, reserved, q, envelope, writes);
    var l', s', a' := InvChecks(env, filed);
    FiledBinding(env, w, ch, reserved, q, envelope, writes);
    var cost := CustodyCost(env.cr, w.custody, r);
    var left := if writes < cost then 0 else writes - cost;
    var ch' := Check(env, filed).value;
    AppendSignedKeepsInv(env, filed, ch', reserved, q, env.cr.er.sha(envelope), left);
    SignFreshFiled(env, w, ch', reserved, q, envelope, writes);
  }

  lemma FilableCommit(reserved: Event, q: SignRequest)
    requires Filable(reserved, q)
    ensures |reserved.sourceCommit| == 40
  {}

  /** The normal path, once custody has filed the envelope. */
  lemma SignFreshFiled(env: Env, w: World, ch': Checked, reserved: Event, q: SignRequest, envelope: Bytes, writes: nat)
    requires EnvelopeMatches(env.cr.er, envelope, q)
    requires Files(env, w, CustodyRecordOf(reserved, q, envelope), writes)
    requires var r := CustodyRecordOf(reserved, q, envelope);
      && Check(env, Filed(env, w, r, writes)) == Ok(ch')
      && ch'.authority.recovery == SignedAppendRequired(q.allocation.sequence)
      && FileName(env.cr.er.sha(envelope)) in Filed(env, w, r, writes).custody.envelopes
    ensures var r := CustodyRecordOf(reserved, q, envelope);
      var cost := CustodyCost(env.cr, w.custody, r);
      SignFresh(env, w, reserved, q, envelope, writes)
      == AppendSigned(env, Filed(env, w, r, writes), reserved, q, env.cr.er.sha(envelope), ch'.ledger.head,
                      if writes < cost then 0 else writes - cost)
  {
    hide Check, AppendCustody, AppendSigned, EnvelopeMatches, CustodyCost;
  }

  lemma FiledBinding(env: Env, w: World, ch: Checked, reserved: Event, q: SignRequest, envelope: Bytes, writes: nat)
    requires Laws(env) && Inv(env, w) && Signing(env, w, ch, reserved, q, envelope) && |reserved.sourceCommit| == 40
    requires Files(env, w, CustodyRecordOf(reserved, q, envelope), writes)
    ensures var filed := Filed(env, w, CustodyRecordOf(reserved, q, envelope), writes); var n := q.allocation.sequence;
      && FreshHistory(env, filed).Ok? && n in FreshHistory(env, filed).value.bindings
      && BindingFits(FreshHistory(env, filed).value.bindings[n], q)
      && FreshHistory(env, filed).value.bindings[n].envelopeSha == env.cr.er.sha(envelope)
      && FileName(env.cr.er.sha(envelope)) in filed.custody.envelopes
      && filed.custody.envelopes[FileName(env.cr.er.sha(envelope))] == envelope
      && EnvelopeMatches(env.cr.er, envelope, q)
  {
    FiledHistory(env, w, ch, reserved, q, envelope, writes);
    AppendWrites(env.cr, w.custody, CustodyRecordOf(reserved, q, envelope), CurrentIndexSha(env, w.custody), writes);
  }

  // ---- publish ---------------------------------------------------------------------------

  /** A signed sequence that goes live becomes the one pending repair. */
  lemma CoherentLiveAdded(l: VerifiedLedger, s: Snapshot, t: Snapshot, n: int, state: Event)
    requires Coherent(l, s) && (forall m :: PendingOf(l, s, m) == NoRecovery)
    requires n > l.genesis.floor.sequence && n in s.bindings && Latest(l.events, n) == Some(state)
    requires state.status.Signed?
    requires t.bindings == s.bindings && t.provenance == s.provenance && t.live == s.live + {n}
    ensures ReconcileLedger(l, t).Ok? && ReconcileLedger(l, t).value.recovery == PublishedAppendRequired(n)
  {
    forall m ensures m != n ==> PendingOf(l, t, m) == PendingOf(l, s, m) {}
    assert PendingOf(l, t, n) == PublishedAppendRequired(n);
    forall m | m in t.bindings ensures Accounted(l, t, m) {
      assert Accounted(l, s, m);
    }
    ReconcileMeans(l, t);
  }

  /** The guards common to both publishing paths. */
  ghost predicate Publishing(env: Env, w: World, ch: Checked, state: Event, q: PublishRequest) {
    && Check(env, w) == Ok(ch) && ManifestAgrees(env.cr.er, q)
    && Latest(ch.ledger.events, q.binding.sequence) == Some(state) && state.status.Signed?
    && StateAgrees(state, q.binding)
    && ch.authority.highestAuthenticated <= q.binding.sequence && ch.authority.highestConsumed <= q.binding.sequence
  }

  /** The staged manifest is the very envelope that was signed. */
  lemma ManifestIsEnvelope(env: Env, w: World, ch: Checked, state: Event, q: PublishRequest)
    requires Laws(env) && Publishing(env, w, ch, state, q)
    ensures var n, r := q.binding.sequence, LiveRecordOf(q);
      && n > ch.ledger.genesis.floor.sequence && n in ch.snapshot.bindings
      && BindingAgrees(ch.snapshot, q.binding)
      && WellFormed(env.cr.er, r) && SequenceOf(env.cr.er, r) == n && BindingOf(env.cr.er, r) == ch.snapshot.bindings[n]
  {
    hide Verify, FreshHistory, ReconcileLedger;
    var l, s, a := Checks(env, w);
    var n := q.binding.sequence;
    LatestEndsLifeline(l, n);
    LatestMember(l.events, n);
    assert Recorded(state.status) && n in s.bindings;
    assert Accounted(l, s, n);
    FileIsEnvelope(env, w, ch, n, q.manifest);
  }

  /** What a publication records is the SIGNED event again, now PUBLISHED. */
  lemma PublishedIsSigned(env: Env, w: World, ch: Checked, state: Event, q: PublishRequest)
    requires Publishing(env, w, ch, state, q)
    ensures PublishedEventOf(state, q, ch.ledger.head)
      == state.(status := Published, timestamp := q.timestamp, previous := ch.ledger.head)
  {
    hide Check;
    LatestMember(ch.ledger.events, q.binding.sequence);
  }

  function Promoted(w: World, q: PublishRequest): World {
    w.(live := w.live + [LiveRecordOf(q)])
  }

  lemma PromotedHistory(env: Env, w: World, ch: Checked, state: Event, q: PublishRequest)
    requires Laws(env) && Publishing(env, w, ch, state, q)
    ensures FreshHistory(env, Promoted(w, q)).Ok?
    ensures var t, s := FreshHistory(env, Promoted(w, q)).value, ch.snapshot;
      t.bindings == s.bindings && t.provenance == s.provenance && t.live == s.live + {q.binding.sequence}
  {
    hide Verify, ReconcileLedger;
    var er, n, r, v := env.cr.er, q.binding.sequence, LiveRecordOf(q), Promoted(w, q);
    ManifestIsEnvelope(env, w, ch, state, q);
    var custody := LoadCustody(er, w.custody).value;
    assert custody + v.live == (custody + w.live) + [r];
    LoadOneMore(er, custody + w.live, custody + v.live, r);
    assert ch.snapshot.bindings[n := ch.snapshot.bindings[n]] == ch.snapshot.bindings;
  }

  lemma PromotedKeepsInv(env: Env, w: World, ch: Checked, state: Event, q: PublishRequest)
    requires Laws(env) && Inv(env, w) && Publishing(env, w, ch, state, q) && ch.authority.recovery == NoRecovery
    ensures Inv(env, Promoted(w, q))
    ensures var after := Check(env, Promoted(w, q)).value;
      && after.ledger == ch.ledger
      && after.snapshot.bindings == ch.snapshot.bindings
      && after.snapshot.live == ch.snapshot.live + {q.binding.sequence}
      && after.authority.recovery == PublishedAppendRequired(q.binding.sequence)
      && after.authority.highestConsumed == ch.authority.highestConsumed
  {
    var l, s, a := Checks(env, w);
    var n, v := q.binding.sequence, Promoted(w, q);
    ManifestIsEnvelope(env, w, ch, state, q);
    PromotedHistory(env, w, ch, state, q);
    var t := FreshHistory(env, v).value;
    ReconcileMeans(l, s);
    CoherentLiveAdded(l, s, t, n, state);
    ReconcileMeans(l, t);
    OnlyNewestPending(l, s, t, n);
    NewHistoryKeepsInv(env, w, v, t);
  }

  lemma PublishedFits(l: VerifiedLedger, s: Snapshot, a: Authority, state: Event, q: PublishRequest)
    requires AllLifelines(l.genesis.floor.sequence, l.events) && (forall x :: x in l.events ==> WellAllocated(x))
    requires ReconcileLedger(l, s) == Ok(a) && a.recovery == PublishedAppendRequired(q.binding.sequence)
    requires PendingIsNewest(l, s)
    requires Latest(l.events, q.binding.sequence) == Some(state) && BindingAgrees(s, q.binding)
    requires a.highestConsumed <= q.binding.sequence
    requires AppendError(l, PublishedEventOf(state, q, l.head), l.head) == None
    ensures Fits(l, s, PublishedEventOf(state, q, l.head))
  {
    var n, b, state' := PendingFacts(l, s);
    AuthenticatedFits(l, s, a, state, PublishedEventOf(state, q, l.head));
  }

  lemma AppendPublishedKeepsInv(env: Env, w: World, ch: Checked, state: Event, q: PublishRequest, recovered: bool,
      writes: nat)
    requires Laws(env) && Inv(env, w) && Check(env, w) == Ok(ch)
    requires ch.authority.recovery == PublishedAppendRequired(q.binding.sequence)
    requires Latest(ch.ledger.events, q.binding.sequence) == Some(state) && BindingAgrees(ch.snapshot, q.binding)
    requires ch.authority.highestConsumed <= q.binding.sequence
    ensures Inv(env, AppendPublished(env, w, state, q, recovered, ch.ledger.head, writes).0)
  {
    var l, s, a := Checks(env, w);
    var e := PublishedEventOf(state, q, l.head);
    if AppendError(l, e, l.head) == None { PublishedFits(l, s, a, state, q); }
    AppendReadBackKeepsInv(env, w, ch, e, writes);
    PublishedWorld(env, w, state, q, recovered, l.head, writes);
  }

  lemma PublishedWorld(env: Env, w: World, state: Event, q: PublishRequest, recovered: bool, head: Digest, writes: nat)
    ensures AppendPublished(env, w, state, q, recovered, head, writes).0
            == AppendReadBack(env, w, PublishedEventOf(state, q, head), head, writes).0
  {}

  /** Which way a publication has gone that changes something or dies. */
  lemma PublishPaths(env: Env, w: World, q: PublishRequest, writes: nat)
    returns (ch: Checked, state: Event, recovered: bool)
    requires Publish(env, w, q, writes).0 != w || Publish(env, w, q, writes).1.Crashed?
    ensures w.ledger != [] && q.gates.arguments
    ensures Publishing(env, w, ch, state, q)
    ensures recovered ==>
              && q.binding.sequence in ch.snapshot.live && BindingAgrees(ch.snapshot, q.binding)
              && ch.authority.recovery == PublishedAppendRequired(q.binding.sequence)
              && q.gates.publicRelease
              && Publish(env, w, q, writes) == AppendPublished(env, w, state, q, true, ch.ledger.head, writes)
    ensures !recovered ==>
              && q.binding.sequence !in ch.snapshot.live && ch.authority.recovery == NoRecovery
              && Publish(env, w, q, writes) == PublishFresh(env, w, state, q, ch.ledger.head, writes)
  {
    ch := Check(env, w).value;
    state := Latest(ch.ledger.events, q.binding.sequence).value;
    recovered := q.binding.sequence in ch.snapshot.live;
  }

  /** A fresh publication ends with the release staged, promoted, or promoted and recorded. */
  lemma FreshPublication(env: Env, w: World, state: Event, q: PublishRequest, head: Digest, writes: nat)
    ensures var after := PublishFresh(env, w, state, q, head, writes).0;
      || after == w || after == Promoted(w, q)
      || (writes > 0 && FreshHistory(env, Promoted(w, q)).Ok? && BindingAgrees(FreshHistory(env, Promoted(w, q)).value,
          q.binding)
          && after == AppendPublished(env, Promoted(w, q), state, q, false, head, writes - 1).0)
  {}

  lemma PublishKeepsInv(env: Env, w: World, q: PublishRequest, writes: nat)
    requires Laws(env) && Inv(env, w)
    ensures Inv(env, Publish(env, w, q, writes).0)
  {
    if Publish(env, w, q, writes).0 != w {
      var ch, state, recovered := PublishPaths(env, w, q, writes);
      if recovered {
        AppendPublishedKeepsInv(env, w, ch, state, q, true, writes);
      } else {
        PublishFreshKeepsInv(env, w, ch, state, q, writes);
      }
    }
  }

  lemma PublishFreshKeepsInv(env: Env, w: World, ch: Checked, state: Event, q: PublishRequest, writes: nat)
    requires Laws(env) && Inv(env, w) && Publishing(env, w, ch, state, q) && ch.authority.recovery == NoRecovery
    ensures Inv(env, PublishFresh(env, w, state, q, ch.ledger.head, writes).0)
  {
    hide *;
    FreshPublication(env, w, state, q, ch.ledger.head, writes);
    PromotedKeepsInv(env, w, ch, state, q);
    if writes > 0 { PromotedAppendKeepsInv(env, w, ch, state, q, writes - 1); }
    OneOfThem(env, PublishFresh(env, w, state, q, ch.ledger.head, writes).0, w, Promoted(w, q),
      if writes > 0 then AppendPublished(env, Promoted(w, q), state, q, false, ch.ledger.head, writes - 1).0 else w);
  }

  lemma OneOfThem(env: Env, v: World, a: World, b: World, d: World)
    requires v == a || v == b || v == d
    requires Inv(env, a) && Inv(env, b) && Inv(env, d)
    ensures Inv(env, v)
  {}

  lemma PromotedAppendKeepsInv(env: Env, w: World, ch: Checked, state: Event, q: PublishRequest, writes: nat)
    requires Laws(env) && Inv(env, w) && Publishing(env, w, ch, state, q) && ch.authority.recovery == NoRecovery
    ensures Inv(env, AppendPublished(env, Promoted(w, q), state, q, false, ch.ledger.head, writes).0)
  {
    PromotedKeepsInv(env, w, ch, state, q);
    ManifestIsEnvelope(env, w, ch, state, q);
    AppendPublishedKeepsInv(env, Promoted(w, q), Check(env, Promoted(w, q)).value, state, q, false, writes);
  }

  // ---- supersede -------------------------------------------------------------------------

  /** What a prepared supersession rests on. */
  lemma PreparedShape(env: Env, l: VerifiedLedger, s: Snapshot, q: SupersedeRequest, timestamp: string)
    returns (state: Event)
    requires PrepareSupersession(env, l, s, q, timestamp).Ok?
    ensures Latest(l.events, q.sequence) == Some(state) && state.status.Signed? && q.sequence !in s.live
    ensures var p := PrepareSupersession(env, l, s, q, timestamp).value;
      && p.event == FailedEventOf(state, timestamp, l.head) && p.proposedSha == EventLine(env.c, p.event).entrySha
      && ReconcileLedger(Extend(l, p.event, p.proposedSha), s) == Ok(p.authority)
      && p.nextUnused == p.authority.nextUnused
      && p.head == l.head
  {
    state := Latest(l.events, q.sequence).value;
  }

  /** The FAILED event of a signed sequence reconciles with the history exactly when the sequence is not live in it. */
  lemma FailedReconcilesIff(l: VerifiedLedger, s: Snapshot, state: Event, timestamp: string, head: Digest)
    requires AllLifelines(l.genesis.floor.sequence, l.events) && Coherent(l, s)
    requires Latest(l.events, state.sequence) == Some(state) && state.status.Signed?
    ensures ReconcileLedger(Extend(l, FailedEventOf(state, timestamp, l.head), head), s).Ok?
      <==> state.sequence !in s.live
    ensures state.sequence in s.bindings
  {
    hide ReconcileLedger;
    var e := FailedEventOf(state, timestamp, l.head);
    LatestMember(l.events, state.sequence);
    LatestEndsLifeline(l, state.sequence);
    assert Recorded(state.status) && state in l.events && state.sequence in s.bindings;
    assert Accounted(l, s, state.sequence);
    CoherentAfter(l, s, e, head);
    LatestSnoc(l.events, e, state.sequence);
    ReconcileMeans(Extend(l, e, head), s);
  }

  /** It fits, if the sequence is not live and the ledger accepts it. */
  lemma FailedFits(l: VerifiedLedger, s: Snapshot, state: Event, timestamp: string)
    requires AllLifelines(l.genesis.floor.sequence, l.events) && (forall x :: x in l.events ==> WellAllocated(x))
    requires Coherent(l, s) && PendingIsNewest(l, s) && state.sequence !in s.live
    requires Latest(l.events, state.sequence) == Some(state) && state.status.Signed?
    requires AppendError(l, FailedEventOf(state, timestamp, l.head), l.head) == None
    ensures Fits(l, s, FailedEventOf(state, timestamp, l.head))
  {
    hide ReconcileLedger, AppendError;
    var e := FailedEventOf(state, timestamp, l.head);
    FailedReconcilesIff(l, s, state, timestamp, "");
    LatestMember(l.events, state.sequence);
    assert state in l.events && WellAllocated(state);
    forall n | PendingOf(Extend(l, e, ""), s, n) != NoRecovery ensures Newest(Extend(l, e, ""), s, n) {
      LatestSnoc(l.events, e, n);
      assert PendingOf(l, s, n) != NoRecovery;
    }
  }

  lemma SupersedeWorld(env: Env, w: World, l: VerifiedLedger, s: Snapshot, q: SupersedeRequest, timestamp: string,
      mutate: bool, writes: nat)
    requires Laws(env) && Verify(env.c, w.ledger) == Ok(l)
    requires Supersede(env, w, s, q, timestamp, mutate, writes).0 != w
    ensures PrepareSupersession(env, l, s, q, timestamp).Ok?
    ensures var e := PrepareSupersession(env, l, s, q, timestamp).value.event;
      && AppendError(l, e, l.head) == None
      && Supersede(env, w, s, q, timestamp, mutate, writes).0 == Appended(env, w, e)
  {
    AppendLaw(env, w, l, PrepareSupersession(env, l, s, q, timestamp).value.event, writes);
  }

  /** A supersession works on whatever snapshot its caller supplies. When it writes, ledger and history reconcile
      afterwards, and the invariant survives, exactly when the sequence is not live in the history of that moment. */
  lemma SupersedeReconcilesIff(env: Env, w: World, t: Snapshot, q: SupersedeRequest, timestamp: string, mutate: bool,
      writes: nat)
    requires Laws(env) && Inv(env, w)
    requires Supersede(env, w, t, q, timestamp, mutate, writes).0 != w
    ensures Check(env, Supersede(env, w, t, q, timestamp, mutate, writes).0).Ok?
            <==> q.sequence !in Check(env, w).value.snapshot.live
    ensures Inv(env, Supersede(env, w, t, q, timestamp, mutate, writes).0)
            <==> q.sequence !in Check(env, w).value.snapshot.live
  {
    hide Verify, FreshHistory, ReconcileLedger, AppendError, Supersede, PrepareSupersession, AppendReadBack;
    var l, s, a := InvChecks(env, w);
    SupersedeWorld(env, w, l, t, q, timestamp, mutate, writes);
    var state := PreparedShape(env, l, t, q, timestamp);
    var e := FailedEventOf(state, timestamp, l.head);
    LatestMember(l.events, q.sequence);
    AppendLaw(env, w, l, e, 2);
    HistoryIgnoresLedger(env, w, Appended(env, w, e));
    FailedReconcilesIff(l, s, state, timestamp, EventLine(env.c, e).entrySha);
    if q.sequence !in s.live {
      FailedFits(l, s, state, timestamp);
      AppendKeepsInv(env, w, e);
    }
  }

  lemma HistoryIgnoresLedger(env: Env, w: World, v: World)
    requires v == w.(ledger := v.ledger)
    ensures FreshHistory(env, v) == FreshHistory(env, w)
  {}

  /** The snapshot of a supersession does not miss that its sequence is live. */
  ghost predicate SeesLive(env: Env, w: World, t: Snapshot, n: int) {
    FreshHistory(env, w).Ok? && n in FreshHistory(env, w).value.live ==> n in t.live
  }

  lemma SupersedeKeepsInv(env: Env, w: World, t: Snapshot, q: SupersedeRequest, timestamp: string, mutate: bool,
      writes: nat)
    requires Laws(env) && Inv(env, w) && SeesLive(env, w, t, q.sequence)
    ensures Inv(env, Supersede(env, w, t, q, timestamp, mutate, writes).0)
  {
    hide Inv, Supersede, PrepareSupersession;
    if Supersede(env, w, t, q, timestamp, mutate, writes).0 != w {
      var l, s, a := InvChecks(env, w);
      SupersedeWorld(env, w, l, t, q, timestamp, mutate, writes);
      var state := PreparedShape(env, l, t, q, timestamp);
      SupersedeReconcilesIff(env, w, t, q, timestamp, mutate, writes);
    }
  }
}
