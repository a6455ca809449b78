/** Where the release protocol ends: exactly when a signing or a supersession leaves ledger and history in order, inputs
    that do not, and the repairs that can always be made. */
module ReleaseLimits {
  import opened Prelude
  import opened Text
  import opened Ledger
  import opened LedgerLaws
  import opened Reconcile
  import opened RecoveryLaws
  import opened History
  import opened Custody
  import opened Release
  import opened ReleaseLaws
  import opened ReleaseResume
  import opened ReleaseRuns
  import opened Supersession

  // ---- signing: the exact condition ----------------------------------------------------------

  lemma {:induction false} RecordOfEntry(envelopes: map<string, Bytes>, entries: seq<IndexEntry>, e: IndexEntry)
    requires e in entries
    ensures RecordOf(envelopes, e) in RecordsOf(envelopes, entries)
  {
    var front, last := entries[..|entries| - 1], entries[|entries| - 1];
    assert entries == front + [last];
    if e != last { RecordOfEntry(envelopes, front, e); }
  }

  /** An entry of a custody that loads stands for a record with the file under its digest. */
  lemma EntryIsLoaded(cr: CustodyReader, st: Store, e: IndexEntry) returns (r: Record)
    requires LoadCustody(cr.er, st).Ok? && e in EntriesOf(st.index)
    ensures r in LoadCustody(cr.er, st).value && cr.er.sha(r.envelope) == e.envelopeSha
  {
    hide LoadEntry, LoadEntries, LoadCustody, RecordsOf, DistinctIds;
    LoadCustodyMeans(cr.er, st);
    var entries := EntriesOf(st.index);
    RecordOfEntry(st.envelopes, entries, e);
    r := RecordOf(st.envelopes, e);
    var i :| 0 <= i < |entries| && entries[i] == e;
    assert LoadEntry(cr.er, st.envelopes, entries[i]).Ok?;
    LoadEntryMeans(cr.er, st.envelopes, e);
  }

  lemma KnownEntryHasEnvelope(cr: CustodyReader, st: Store, r: Record, expected: Option<Digest>, writes: nat)
    requires AppendCustody(cr, st, r, expected, writes).1.Done? && FindEntry(EntriesOf(st.index), r.sourceId).Some?
    ensures FindEntry(EntriesOf(st.index), r.sourceId).value in EntriesOf(st.index)
    ensures FindEntry(EntriesOf(st.index), r.sourceId).value.envelopeSha == cr.er.sha(r.envelope)
  {
    FindEntryMeans(EntriesOf(st.index), r.sourceId);
  }

  lemma LoadedIsAuthenticated(env: Env, w: World, s: Snapshot, r: Record)
    requires LoadCustody(env.cr.er, w.custody).Ok? && FreshHistory(env, w) == Ok(s)
    requires r in LoadCustody(env.cr.er, w.custody).value
    ensures WellFormed(env.cr.er, r) && SequenceOf(env.cr.er, r) in s.bindings
  {
    var rs := LoadCustody(env.cr.er, w.custody).value + w.live;
    LoadTells(env.cr.er, rs);
    LoadIsOrderIndependent(env.cr.er, rs, rs);
    assert r in rs && WellFormed(env.cr.er, r);
    assert Mentions(env.cr.er, rs, SequenceOf(env.cr.er, r));
  }

  lemma EntryIsAuthenticated(env: Env, w: World, s: Snapshot, e: IndexEntry, envelope: Bytes)
    requires Laws(env) && LoadCustody(env.cr.er, w.custody).Ok? && FreshHistory(env, w) == Ok(s)
    requires e in EntriesOf(w.custody.index) && e.envelopeSha == env.cr.er.sha(envelope)
    ensures env.cr.er.verify(envelope).Some? && env.cr.er.verify(envelope).value.sequence in s.bindings
  {
    hide FreshHistory, LoadCustody, EntriesOf;
    var r := EntryIsLoaded(env.cr, w.custody, e);
    assert r.envelope == envelope;
    LoadedIsAuthenticated(env, w, s, r);
  }

  /** A signing on the normal path never meets an entry of its own in custody. */
  lemma NewToCustody(env: Env, w: World, ch: Checked, reserved: Event, q: SignRequest, envelope: Bytes, writes: nat)
    requires Laws(env) && Inv(env, w) && Signing(env, w, ch, reserved, q, envelope)
    requires var r := CustodyRecordOf(reserved, q, envelope);
      AppendCustody(env.cr, w.custody, r, CurrentIndexSha(env, w.custody), writes).1.Done?
    ensures Files(env, w, CustodyRecordOf(reserved, q, envelope), writes)
  {
    hide Laws, Verify, FreshHistory, ReconcileLedger, AppendCustody, LoadCustody, FindEntry, EntriesOf, Check, Coherent,
      AuthorityOf;
    var r := CustodyRecordOf(reserved, q, envelope);
    if FindEntry(EntriesOf(w.custody.index), r.sourceId).Some? {
      KnownEntryHasEnvelope(env.cr, w.custody, r, CurrentIndexSha(env, w.custody), writes);
      var l, s, a := Checks(env, w);
      EntryIsAuthenticated(env, w, s, FindEntry(EntriesOf(w.custody.index), r.sourceId).value, envelope);
      NextUnusedExceedsAll(l, s, a.recovery);
    }
  }

  /** When the check after filing fails, signing ends there, with the envelope filed. */
  lemma StopsAfterFiling(env: Env, w: World, reserved: Event, q: SignRequest, envelope: Bytes, writes: nat)
    requires EnvelopeMatches(env.cr.er, envelope, q) && Files(env, w, CustodyRecordOf(reserved, q, envelope), writes)
    requires Check(env, Filed(env, w, CustodyRecordOf(reserved, q, envelope), writes)).Err?
    ensures var filed := Filed(env, w, CustodyRecordOf(reserved, q, envelope), writes);
      SignFresh(env, w, reserved, q, envelope, writes) == (filed, Raised(Check(env, filed).error))
  {
    hide Check, AppendSigned, EnvelopeMatches, CustodyCost;
    AppendWrites(env.cr, w.custody, CustodyRecordOf(reserved, q, envelope), CurrentIndexSha(env, w.custody), writes);
  }

  lemma OtherComponentSetRefused(l: VerifiedLedger, reserved: Event, q: SignRequest, sha: Digest)
    requires AllLifelines(l.genesis.floor.sequence, l.events)
    requires Latest(l.events, q.allocation.sequence) == Some(reserved) && reserved.status.Reserved?
    requires q.unsigned.componentSet != reserved.componentSet
    ensures AppendError(l, SignedEventOf(reserved, q, sha, l.head), l.head) == Some(AllocationChanged)
  {
    LatestEndsLifeline(l, q.allocation.sequence);
    ReservedIsAlone(OfSequence(l.events, q.allocation.sequence));
  }

  /** With another component set, the envelope reaches custody, the ledger refuses its event, and the repair stays
      pending: reserve and publish are refused until it is made with the reserved component set. */
  lemma OtherComponentSetWedges(env: Env, w: World, ch: Checked, reserved: Event, q: SignRequest, envelope: Bytes,
      writes: nat)
    requires Laws(env) && Inv(env, w) && Signing(env, w, ch, reserved, q, envelope) && Filable(reserved, q)
    requires Files(env, w, CustodyRecordOf(reserved, q, envelope), writes)
    requires q.unsigned.componentSet != reserved.componentSet
    ensures var filed := Filed(env, w, CustodyRecordOf(reserved, q, envelope), writes);
      && SignFresh(env, w, reserved, q, envelope, writes) == (filed, Raised(LedgerFailure(AllocationChanged)))
      && WaitsForSigned(env, filed, q.allocation.sequence)
  {
    hide *;
    FilableCommit(reserved, q);
    FiledKeepsInv(env, w, ch, reserved, q, envelope, writes);
    FiledBinding(env, w, ch, reserved, q, envelope, writes);
    SigningFacts(env, w, ch, reserved, q, envelope);
    var filed := Filed(env, w, CustodyRecordOf(reserved, q, envelope), writes);
    var l', s', a' := InvChecks(env, filed);
    SignFreshFiled(env, w, Checked(l', s', a'), reserved, q, envelope, writes);
    ReservedStatus(env, w, ch, reserved, q, envelope);
    OtherComponentSetRefused(l', reserved, q, env.cr.er.sha(envelope));
    RefusedAppend(env, filed, l', reserved, q, env.cr.er.sha(envelope), writes,
      CustodyCost(env.cr, w.custody, CustodyRecordOf(reserved, q, envelope)));
    NowWaits(env, filed, q.allocation.sequence);
  }

  /** While a sequence waits for its SIGNED event, nothing is reserved and nothing published. */
  lemma WaitingBlocksOthers(env: Env, w: World, n: int, t: Target, timestamp: string, p: PublishRequest, writes: nat)
    requires WaitsForSigned(env, w, n)
    ensures Reserve(env, w, t, timestamp, writes) == (w, Raised(RecoveryPending))
    ensures Publish(env, w, p, writes).0 == w && Publish(env, w, p, writes).1.Raised?
  {
    hide Verify, FreshHistory, ReconcileLedger, ManifestAgrees, StateAgrees, PublishFresh, AppendPublished;
    assert w.ledger != [] by { LedgerNotEmpty(env, w); }
  }

  lemma LedgerNotEmpty(env: Env, w: World)
    requires Check(env, w).Ok?
    ensures w.ledger != []
  {}

  lemma ReservedStatus(env: Env, w: World, ch: Checked, reserved: Event, q: SignRequest, envelope: Bytes)
    requires Signing(env, w, ch, reserved, q, envelope)
    ensures reserved.status.Reserved? && EnvelopeMatches(env.cr.er, envelope, q)
  {}

  lemma NowWaits(env: Env, w: World, n: int)
    requires Check(env, w).Ok? && Check(env, w).value.authority.recovery == SignedAppendRequired(n)
    ensures WaitsForSigned(env, w, n)
  {}

  lemma RefusedAppend(env: Env, w: World, l: VerifiedLedger, reserved: Event, q: SignRequest, sha: Digest, writes: nat,
      cost: nat)
    requires Verify(env.c, w.ledger) == Ok(l)
    requires AppendError(l, SignedEventOf(reserved, q, sha, l.head), l.head) == Some(AllocationChanged)
    ensures AppendSigned(env, w, reserved, q, sha, l.head, if writes < cost then 0 else writes - cost)
         == (w, Raised(LedgerFailure(AllocationChanged)))
  {
    hide Verify, AppendError;
  }

  /** Signing compares the allocation it is given with the unsigned baseline only. Once custody has taken the envelope,
      the signing completes exactly when the request names the release and the component set of the reservation and the
      reserved commit has 40 characters. */
  lemma SigningCompletesIff(env: Env, w: World, ch: Checked, reserved: Event, q: SignRequest, envelope: Bytes)
    requires Laws(env) && Inv(env, w) && Signing(env, w, ch, reserved, q, envelope)
    requires var r := CustodyRecordOf(reserved, q, envelope);
      AppendCustody(env.cr, w.custody, r, CurrentIndexSha(env, w.custody), UNINTERRUPTED).1.Done?
    ensures SignFresh(env, w, reserved, q, envelope, UNINTERRUPTED).1.Done? <==>
      && q.allocation.releaseId == reserved.releaseId
      && q.unsigned.componentSet == reserved.componentSet
      && |reserved.sourceCommit| == 40
  {
    hide Inv, Signing, AppendCustody, Check, CustodyRecordOf, EntriesOf, FindEntry, Laws, SignFresh, EnvelopeMatches;
    NewToCustody(env, w, ch, reserved, q, envelope, UNINTERRUPTED);
    ReservedStatus(env, w, ch, reserved, q, envelope);
    if !Filable(reserved, q) {
      FilingReconcilesIff(env, w, ch, reserved, q, envelope, UNINTERRUPTED);
      StopsAfterFiling(env, w, reserved, q, envelope, UNINTERRUPTED);
    } else if !NamesReservation(reserved, q) {
      OtherComponentSetWedges(env, w, ch, reserved, q, envelope, UNINTERRUPTED);
    } else {
      assert FreshSigning(env, w, ch, reserved, q, envelope);
      var r := CustodyRecordOf(reserved, q, envelope);
      AppendBudget(env.cr, w.custody, r, CurrentIndexSha(env, w.custody), UNINTERRUPTED);
      CostIsSmall(env, w, r);
      FreshOutcome(env, w, ch, reserved, q, envelope, UNINTERRUPTED);
    }
  }

  // ---- signing: inputs that fail -------------------------------------------------------------

  /** An allocation that names the release of another sequence: the envelope is filed and nothing reconciles any
      more. */
  lemma ForeignAllocationWedges(env: Env, w: World, ch: Checked, reserved: Event, q: SignRequest, envelope: Bytes)
    requires Laws(env) && Inv(env, w) && Signing(env, w, ch, reserved, q, envelope)
    requires Files(env, w, CustodyRecordOf(reserved, q, envelope), UNINTERRUPTED)
    requires q.allocation.sequence == 7 && q.allocation.releaseId == "stable-0008"
    ensures SignFresh(env, w, reserved, q, envelope, UNINTERRUPTED).1.Raised?
    ensures Check(env, SignFresh(env, w, reserved, q, envelope, UNINTERRUPTED).0).Err?
  {
    hide Inv, AppendCustody, Check, CustodyRecordOf, EntriesOf, FindEntry, Laws, SignFresh, EnvelopeMatches, Files;
    if Format04(7) == "0008" { Format04Injective(7, 8); }
    ReservedRelease(env, w, ch, reserved, q, envelope);
    FilingReconcilesIff(env, w, ch, reserved, q, envelope, UNINTERRUPTED);
    StopsAfterFiling(env, w, reserved, q, envelope, UNINTERRUPTED);
  }

  lemma ReservedRelease(env: Env, w: World, ch: Checked, reserved: Event, q: SignRequest, envelope: Bytes)
    requires Inv(env, w) && Signing(env, w, ch, reserved, q, envelope)
    ensures reserved.releaseId == ReleaseId(q.allocation.sequence)
    ensures reserved.releaseId[7..] == Format04(q.allocation.sequence)
    ensures EnvelopeMatches(env.cr.er, envelope, q)
  {
    assert WellAllocated(reserved);
  }

  /** A reservation with an abbreviated commit, signed with its own allocation: custody does not load any more. */
  lemma ShortCommitWedges(env: Env, w: World, ch: Checked, reserved: Event, q: SignRequest, envelope: Bytes)
    requires Laws(env) && Inv(env, w) && Signing(env, w, ch, reserved, q, envelope) && NamesReservation(reserved, q)
    requires Files(env, w, CustodyRecordOf(reserved, q, envelope), UNINTERRUPTED)
    requires reserved.sourceCommit == "0a1b2c3"
    ensures SignFresh(env, w, reserved, q, envelope, UNINTERRUPTED).1.Raised?
    ensures Check(env, SignFresh(env, w, reserved, q, envelope, UNINTERRUPTED).0).Err?
  {
    hide Inv, AppendCustody, Check, CustodyRecordOf, EntriesOf, FindEntry, Laws, SignFresh, EnvelopeMatches, Files;
    ReservedRelease(env, w, ch, reserved, q, envelope);
    FilingReconcilesIff(env, w, ch, reserved, q, envelope, UNINTERRUPTED);
    StopsAfterFiling(env, w, reserved, q, envelope, UNINTERRUPTED);
  }

  /** What was handed out and matches its unsigned baseline names its reservation. */
  lemma HandedOutNamesReservation(env: Env, w: World, ch: Checked, reserved: Event, q: SignRequest)
    requires Inv(env, w) && Check(env, w) == Ok(ch) && q.allocation in w.issued
    requires SameAllocationAndPayload(env.cr.er, q)
    requires FindReserved(ch.ledger.events, q.allocation.sequence) == Some(reserved)
    ensures NamesReservation(reserved, q)
  {
    hide Inv, Check;
    FindReservedMeans(ch.ledger.events, q.allocation.sequence);
    ReservationOfIssued(env, w, ch, q.allocation, reserved);
  }

  // ---- supersession: an input that fails ------------------------------------------------------

  /** A well-formed request that says of a signed sequence what the ledger says, and knows its head. */
  predicate DescribesSigned(q: SupersedeRequest, state: Event, head: Digest) {
    && q.head == head && |head| == 64 && 7 <= |q.specCommit| <= 40
    && q.sequence == state.sequence > 0
    && |q.releaseId| > 0 && |q.sourceCommit| == 40 && (|q.componentSet| == 32 || |q.componentSet| == 64)
    && |q.payloadSha| == 64 && |q.envelopeSha| == 64
    && q.releaseId == state.releaseId && q.sourceCommit == state.sourceCommit && q.componentSet == state.componentSet
    && Some(q.payloadSha) == state.payloadSha && Some(q.envelopeSha) == state.envelopeSha
  }

  /** Such a request is prepared with any coherent history in which the sequence is not live. */
  lemma DescribedIsPrepared(env: Env, l: VerifiedLedger, s: Snapshot, state: Event, q: SupersedeRequest,
      timestamp: string)
    requires AllLifelines(l.genesis.floor.sequence, l.events) && Coherent(l, s)
    requires Latest(l.events, q.sequence) == Some(state) && state.status.Signed? && DescribesSigned(q, state, l.head)
    requires q.sequence !in s.live
    ensures PrepareSupersession(env, l, s, q, timestamp).Ok?
  {
    hide ReconcileLedger;
    var event := FailedEventOf(state, timestamp, l.head);
    FailedReconcilesIff(l, s, state, timestamp, EventLine(env.c, event).entrySha);
    LatestEndsLifeline(l, q.sequence);
    assert Accounted(l, s, q.sequence);
    NeverStuck(env, l, s, q, timestamp);
  }

  /** A supersession prepared from the snapshot taken before its release was promoted: it succeeds, records FAILED
      for a live sequence, and from then on ledger and history do not reconcile. With the history of the moment it is
      refused. */
  lemma StaleSnapshotWedges(env: Env, w: World, ch: Checked, state: Event, p: PublishRequest, q: SupersedeRequest,
      timestamp: string)
    requires Laws(env) && Inv(env, w) && Publishing(env, w, ch, state, p)
    requires ch.authority.recovery == NoRecovery && p.binding.sequence !in ch.snapshot.live
    requires q.sequence == p.binding.sequence && DescribesSigned(q, state, ch.ledger.head)
    ensures var promoted := Promoted(w, p);
      && Inv(env, promoted)
      && var (after, out) := Supersede(env, promoted, ch.snapshot, q, timestamp, true, UNINTERRUPTED);
      && out.Done? && Check(env, after).Err?
      && !SeesLive(env, promoted, ch.snapshot, q.sequence)
  {
    hide Inv, Laws, Verify, FreshHistory, ReconcileLedger, AppendError, PrepareSupersession, Supersede;
    var promoted := Promoted(w, p);
    PromotedKeepsInv(env, w, ch, state, p);
    var l, s, a := InvChecks(env, w);
    DescribedIsPrepared(env, l, s, state, q, timestamp);
    var prepared := PreparedShape(env, l, s, q, timestamp);
    FailedAccepted(l, state, timestamp);
    SupersedeAppends(env, promoted, l, s, q, timestamp);
    var l', s', a' := InvChecks(env, promoted);
    SupersedeReconcilesIff(env, promoted, s, q, timestamp, true, UNINTERRUPTED);
  }

  lemma SupersedeAppends(env: Env, w: World, l: VerifiedLedger, s: Snapshot, q: SupersedeRequest, timestamp: string)
    requires Laws(env) && Verify(env.c, w.ledger) == Ok(l) && PrepareSupersession(env, l, s, q, timestamp).Ok?
    requires AppendError(l, PrepareSupersession(env, l, s, q, timestamp).value.event, l.head) == None
    ensures var (after, out) := Supersede(env, w, s, q, timestamp, true, UNINTERRUPTED); after != w && out.Done?
  {
    hide Verify, PrepareSupersession, AppendError;
  }

  // ---- a pending repair can always be made -----------------------------------------------------

  /** A waiting sequence has the envelope of its binding in custody. */
  lemma PendingIsFiled(env: Env, w: World, ch: Checked, n: int) returns (bytes: Bytes)
    requires Inv(env, w) && Check(env, w) == Ok(ch) && n in ch.snapshot.bindings && n > ch.ledger.genesis.floor.sequence
    ensures var name, b := FileName(ch.snapshot.bindings[n].envelopeSha), ch.snapshot.bindings[n];
      && name in w.custody.envelopes && w.custody.envelopes[name] == bytes && env.cr.er.sha(bytes) == b.envelopeSha
      && var v := env.cr.er.verify(bytes);
      v.Some? && b == Binding(n, v.value.releaseId, v.value.payloadSha, b.envelopeSha, v.value.keyId)
        && v.value.sequence == n
  {
    hide Verify, ReconcileLedger;
    var custody := LoadCustody(env.cr.er, w.custody).value;
    assert Mentions(env.cr.er, custody, n);
    var r :| r in custody && WellFormed(env.cr.er, r) && SequenceOf(env.cr.er, r) == n;
    LoadTells(env.cr.er, custody + w.live);
    assert r in custody + w.live;
    CustodyIsFiled(env.cr.er, w.custody, r);
    bytes := r.envelope;
  }

  lemma CustodyIsFiled(er: EnvelopeReader, st: Store, r: Record)
    requires LoadCustody(er, st).Ok? && r in LoadCustody(er, st).value
    ensures FileName(er.sha(r.envelope)) in st.envelopes && st.envelopes[FileName(er.sha(r.envelope))] == r.envelope
  {
    LoadedAreFiled(er, st.envelopes, st.index.entries);
  }

  /** A signing request for what a waiting sequence was reserved and authenticated with. */
  ghost predicate RequestsRepair(env: Env, w: World, q: SignRequest) {
    && WaitsForSigned(env, w, q.allocation.sequence)
    && SameAllocationAndPayload(env.cr.er, q)
    && var ch, n := Check(env, w).value, q.allocation.sequence;
    && (FindReserved(ch.ledger.events, n).Some? ==> NamesReservation(FindReserved(ch.ledger.events, n).value, q))
    && (n in ch.snapshot.bindings ==> BindingFits(ch.snapshot.bindings[n], q))
  }

  lemma WaitingReservation(env: Env, w: World, n: int) returns (ch: Checked, reserved: Event)
    requires Inv(env, w) && WaitsForSigned(env, w, n)
    ensures Check(env, w) == Ok(ch) && ch.authority.recovery == SignedAppendRequired(n)
    ensures n in ch.snapshot.bindings && n > ch.ledger.genesis.floor.sequence
    ensures FindReserved(ch.ledger.events, n) == Some(reserved)
    ensures reserved in ch.ledger.events && reserved.sequence == n && reserved.status.Reserved?
  {
    hide Verify, FreshHistory, ReconcileLedger;
    var l, s, a := InvChecks(env, w);
    ch := Checked(l, s, a);
    var n', b, state := PendingFacts(l, s);
    LatestMember(l.events, n);
    FindReservedMeans(l.events, n);
    reserved := FindReserved(l.events, n).value;
  }

  lemma SignedRepairCompletes(env: Env, w: World, q: SignRequest, signer: Signer)
    requires Laws(env) && Inv(env, w) && RequestsRepair(env, w, q)
    ensures Sign(env, w, q, signer, UNINTERRUPTED).1.Done?
    ensures Sign(env, w, q, signer, UNINTERRUPTED).1.value.SignedEvidence?
    ensures Inv(env, Sign(env, w, q, signer, UNINTERRUPTED).0)
    ensures !WaitsForSigned(env, Sign(env, w, q, signer, UNINTERRUPTED).0, q.allocation.sequence)
  {
    hide Inv, Laws, Check, Sign, SignRecovered, AppendSigned, FindReserved, SameAllocationAndPayload, ReconcileLedger,
      LoadCustody;
    var n := q.allocation.sequence;
    var ch, reserved := WaitingReservation(env, w, n);
    var bytes := PendingIsFiled(env, w, ch, n);
    var sha := ch.snapshot.bindings[n].envelopeSha;
    assert EnvelopeMatches(env.cr.er, bytes, q);
    RecoverySucceeds(env, w, ch, reserved, q, signer, UNINTERRUPTED);
    SignedAppendSucceeds(env, w, ch, reserved, q, sha, UNINTERRUPTED);
    SignedIsRecorded(env, w, ch, reserved, q, sha);
  }

  lemma SignedIsRecorded(env: Env, w: World, ch: Checked, reserved: Event, q: SignRequest, sha: Digest)
    requires Laws(env) && Inv(env, w) && Check(env, w) == Ok(ch)
    requires ch.authority.recovery == SignedAppendRequired(q.allocation.sequence) && NamesReservation(reserved, q)
    requires reserved in ch.ledger.events && reserved.sequence == q.allocation.sequence && reserved.status.Reserved?
    requires q.allocation.sequence in ch.snapshot.bindings
    requires BindingFits(ch.snapshot.bindings[q.allocation.sequence], q)
    requires sha == ch.snapshot.bindings[q.allocation.sequence].envelopeSha
    ensures var after := Appended(env, w, SignedEventOf(reserved, q, sha, ch.ledger.head));
      Inv(env, after) && !WaitsForSigned(env, after, q.allocation.sequence)
  {
    hide Inv, Check, Verify, FreshHistory, ReconcileLedger, AppendError;
    var l, s, a := InvChecks(env, w);
    var e := SignedEventOf(reserved, q, sha, l.head);
    var n, b, state := PendingFacts(l, s);
    LatestEndsLifeline(l, n);
    ReservedIsAlone(OfSequence(l.events, n));
    ReservationHeads(l, n, reserved);
    BindingNotEmpty(env, w, n);
    SignedAccepted(l, state, b, q.timestamp);
    assert e == SignedEvent(state, b, q.timestamp, l.head);
    SignedFits(l, s, a, reserved, q);
    AppendKeepsInv(env, w, e);
    var l', s', a' := InvChecks(env, Appended(env, w, e));
    LatestSnoc(l.events, e, n);
    ReconcileMeans(l', s');
  }

  // ---- and a pending publication -------------------------------------------------------------

  lemma NewestBounds(l: VerifiedLedger, s: Snapshot, r: Recovery, n: int)
    requires Newest(l, s, n) && n > l.genesis.floor.sequence
    ensures AuthorityOf(l, s, r).highestAuthenticated <= n && AuthorityOf(l, s, r).highestConsumed <= n
  {
    var floor := l.genesis.floor.sequence;
    MaxKeyMeans(SortedKeys(s.bindings.Keys), floor);
    MaxKeyMeans(ConsumedBy(l.events), floor);
    forall k | k in ConsumedBy(l.events) ensures k <= n {
      var i :| 0 <= i < |l.events| && ConsumedBy(l.events)[i] == k;
      assert l.events[i] in l.events;
    }
  }

  ghost predicate WaitsForPublished(env: Env, w: World, n: int) {
    Check(env, w).Ok? && Check(env, w).value.authority.recovery == PublishedAppendRequired(n)
  }

  /** A publication of what a live, unrecorded sequence was signed with, from its own staged manifest. */
  ghost predicate RequestsRecord(env: Env, w: World, q: PublishRequest) {
    && WaitsForPublished(env, w, q.binding.sequence)
    && q.gates.arguments && q.gates.publicRelease && ManifestAgrees(env.cr.er, q)
    && var state := Latest(Check(env, w).value.ledger.events, q.binding.sequence);
    (state.Some? ==> StateAgrees(state.value, q.binding))
  }

  lemma PublishedRepairCompletes(env: Env, w: World, q: PublishRequest)
    requires Laws(env) && Inv(env, w) && RequestsRecord(env, w, q)
    ensures Publish(env, w, q, UNINTERRUPTED).1.Done? && Publish(env, w, q, UNINTERRUPTED).0.live == w.live
    ensures Inv(env, Publish(env, w, q, UNINTERRUPTED).0)
  {
    hide Inv, Laws, Verify, FreshHistory, ReconcileLedger, ManifestAgrees, Publish, AuthorityOf;
    var l, s, a := InvChecks(env, w);
    var n, b, state := PendingFacts(l, s);
    ReconcileMeans(l, s);
    NewestBounds(l, s, a.recovery, n);
    LatestEndsLifeline(l, n);
    assert BindingAgrees(s, q.binding);
    var ch := Checked(l, s, a);
    assert Publishing(env, w, ch, state, q);
    var l', s', a' := Checks(env, w);
    RecoveredAgain(env, w, ch, state, q);
    PublishKeepsInv(env, w, q, UNINTERRUPTED);
  }

  /** In every state of every run, whatever happened since the interruption: a pending repair can be made there and
      then. The matching signing completes with any signer or none, the matching publication without promoting
      anything. */
  lemma RepairsAlwaysComplete(env: Env, ws: seq<World>, i: nat, q: SignRequest, signer: Signer, p: PublishRequest)
    requires Laws(env) && Run(env, ws) && i < |ws|
    ensures RequestsRepair(env, ws[i], q) ==>
      && Sign(env, ws[i], q, signer, UNINTERRUPTED).1.Done?
      && Sign(env, ws[i], q, signer, UNINTERRUPTED).1.value.SignedEvidence?
      && !WaitsForSigned(env, Sign(env, ws[i], q, signer, UNINTERRUPTED).0, q.allocation.sequence)
    ensures RequestsRecord(env, ws[i], p) ==>
      && Publish(env, ws[i], p, UNINTERRUPTED).1.Done?
      && Publish(env, ws[i], p, UNINTERRUPTED).0.live == ws[i].live
  {
    hide *;
    RunKeepsInv(env, ws, i);
    if RequestsRepair(env, ws[i], q) { SignedRepairCompletes(env, ws[i], q, signer); }
    if RequestsRecord(env, ws[i], p) { PublishedRepairCompletes(env, ws[i], p); }
  }

  // ---- signing again with another envelope -----------------------------------------------------

  lemma FileNameIsInjective(a: Digest, b: Digest)
    requires FileName(a) == FileName(b)
    ensures a == b
  {
    assert FileName(a)[..|FileName(a)| - 5] == a && FileName(b)[..|FileName(b)| - 5] == b;
  }

  /** An envelope file left behind by a dead append is in nobody's way. */
  lemma OrphanIsHarmless(env: Env, w: World, r: Record, writes: nat, other: Record)
    requires Laws(env) && Files(env, w, other, 2)
    requires AppendCustody(env.cr, w.custody, r, CurrentIndexSha(env, w.custody), writes).1.Crashed?
    ensures var dead := Filed(env, w, r, writes);
      Files(env, dead, other, 2) && Filed(env, dead, other, 2).custody.index == Filed(env, w, other, 2).custody.index
  {
    if FileName(env.cr.er.sha(r.envelope)) == FileName(env.cr.er.sha(other.envelope)) {
      FileNameIsInjective(env.cr.er.sha(r.envelope), env.cr.er.sha(other.envelope));
    }
  }

  /** The normal path from `w`, with an envelope that custody takes. */
  lemma FreshEvidence(env: Env, w: World, ch: Checked, reserved: Event, q: SignRequest, envelope: Bytes)
    requires Laws(env) && Inv(env, w) && FreshSigning(env, w, ch, reserved, q, envelope) && w.ledger != []
    requires Files(env, w, CustodyRecordOf(reserved, q, envelope), 2)
    requires FindReserved(ch.ledger.events, q.allocation.sequence) == Some(reserved)
    requires SameAllocationAndPayload(env.cr.er, q) && ch.authority.nextUnused <= q.allocation.sequence + 1
    ensures var r, sha := CustodyRecordOf(reserved, q, envelope), env.cr.er.sha(envelope);
      Sign(env, w, q, Signs(envelope), UNINTERRUPTED)
      == (Appended(env, Filed(env, w, r, 2), SignedEventOf(reserved, q, sha, ch.ledger.head)), Done(EvidenceOf(q, sha)))
  {
    hide *;
    SignGoesFresh(env, w, ch, reserved, q, envelope);
    CostIsSmall(env, w, CustodyRecordOf(reserved, q, envelope));
    FreshOutcome(env, w, ch, reserved, q, envelope, UNINTERRUPTED);
  }

  /** A signing that dies while filing its envelope, run again at any later time by a signer that gives another
      envelope: it completes as it would have done at that time had the first run never been, with that evidence and in
      the same ledger and custody index. Only the first envelope file stays behind. */
  lemma SignsAnotherEnvelope(env: Env, w: World, ch: Checked, reserved: Event, q: SignRequest, envelope: Bytes,
      writes: nat, later: string, other: Bytes)
    requires Laws(env) && Inv(env, w) && FreshSigning(env, w, ch, reserved, q, envelope) && w.ledger != []
    requires FindReserved(ch.ledger.events, q.allocation.sequence) == Some(reserved)
    requires SameAllocationAndPayload(env.cr.er, q) && ch.authority.nextUnused <= q.allocation.sequence + 1
    requires var r := CustodyRecordOf(reserved, q, envelope);
      AppendCustody(env.cr, w.custody, r, CurrentIndexSha(env, w.custody), writes).1.Crashed?
    requires EnvelopeMatches(env.cr.er, other, q) && Files(env, w, CustodyRecordOf(reserved, q, other), 2)
    ensures var dead := SignFresh(env, w, reserved, q, envelope, writes).0;
      var again := Sign(env, dead, At(q, later), Signs(other), UNINTERRUPTED);
      var whole := Sign(env, w, At(q, later), Signs(other), UNINTERRUPTED);
      && whole.1.Done? && again.1 == whole.1
      && again.0.ledger == whole.0.ledger && again.0.custody.index == whole.0.custody.index
  {
    hide Inv, Laws, Check, AppendCustody, CustodyRecordOf, Sign, FindReserved, SameAllocationAndPayload,
      EnvelopeMatches, Files;
    var r, r', q' := CustodyRecordOf(reserved, q, envelope), CustodyRecordOf(reserved, q, other), At(q, later);
    var dead := Filed(env, w, r, writes);
    LaterIsAlike(env, w, ch, reserved, q, other, later);
    DeadWhileFiling(env, w, reserved, q, envelope, writes);
    UnfiledKeepsInv(env, w, r, writes);
    OrphanIsHarmless(env, w, r, writes, r');
    assert FreshSigning(env, w, ch, reserved, q', other) && FreshSigning(env, dead, ch, reserved, q', other);
    FreshEvidence(env, w, ch, reserved, q', other);
    FreshEvidence(env, dead, ch, reserved, q', other);
  }

  lemma DeadWhileFiling(env: Env, w: World, reserved: Event, q: SignRequest, envelope: Bytes, writes: nat)
    requires EnvelopeMatches(env.cr.er, envelope, q)
    requires var r := CustodyRecordOf(reserved, q, envelope);
      AppendCustody(env.cr, w.custody, r, CurrentIndexSha(env, w.custody), writes).1.Crashed?
    ensures SignFresh(env, w, reserved, q, envelope, writes).0
            == Filed(env, w, CustodyRecordOf(reserved, q, envelope), writes)
  {
    hide Check, AppendCustody, AppendSigned, EnvelopeMatches, CustodyRecordOf;
  }
}
