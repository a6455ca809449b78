/** The release protocol as it is run: an object over the three stores whose methods take the lock,
    read, check and write in the order of the actions they implement. */
module ReleaseController {
  import opened Prelude
  import opened Ledger
  import opened Reconcile
  import opened History
  import opened Custody
  import opened Release

  class ReleaseAuthority {
    const env: Env
    const session: SequenceAuthoritySession
    const custody: CustodyRoot
    var live: seq<Record>
    var issued: seq<Allocation>

    ghost function Stores(): World
      reads this, session, custody
    {
      World(session.lines, custody.Contents(), live, issued)
    }

    constructor (env: Env, session: SequenceAuthoritySession, custody: CustodyRoot, live: seq<Record>)
      ensures this.env == env && this.session == session && this.custody == custody
      ensures Stores() == World(session.lines, custody.Contents(), live, [])
    {
      this.env, this.session, this.custody := env, session, custody;
      this.live, this.issued := live, [];
    }

    /** The provider: custody records, then the live ones. */
    method LoadFreshHistory() returns (r: Result<Snapshot, ReleaseError>)
      ensures r == FreshHistory(env, Stores())
    {
      var records := custody.LoadCustodyRecords(env.cr.er);
      if records.Err? { return Err(CustodyFailure(records.error)); }
      var loaded := LoadHistory(env.cr.er, records.value + live);
      if loaded.Err? { return Err(LoadFailure(loaded.error)); }
      r := Ok(loaded.value);
    }

    method FreshReconcileLocked() returns (r: Result<Checked, ReleaseError>)
      requires session.isLocked
      ensures r == Check(env, Stores())
    {
      var verified := session.ReadVerified(env.c);
      if verified.Err? { return Err(LedgerFailure(verified.error)); }
      var snapshot := LoadFreshHistory();
      if snapshot.Err? { return Err(snapshot.error); }
      var authority := ReconcileLedgerWithAuthenticatedHistory(verified.value, snapshot.value);
      if authority.Err? { return Err(ReconcileFailure(authority.error)); }
      r := Ok(Checked(verified.value, snapshot.value, authority.value));
    }

    method AppendAndReadBack(e: Event, expected: Digest, writes: nat) returns (out: Outcome<Digest, ReleaseError>)
      requires session.isLocked
      modifies session`lines
      ensures (Stores(), out) == AppendReadBack(env, old(Stores()), e, expected, writes)
    {
      ghost var before := Stores();
      // Dead before the write: the checks of the append have been made, and nothing else.
      if writes == 0 {
        var dry := Append(env.c, session.lines, e, expected);
        return if dry.Err? then Raised(LedgerFailure(dry.error)) else Crashed;
      }
      var appended := session.AppendEvent(env.c, e, expected);
      assert appended.Ok? ==> Stores() == before.(ledger := session.lines);
      if appended.Err? { return Raised(LedgerFailure(appended.error)); }
      if writes == 1 { return Crashed; }
      var reread := session.ReadVerified(env.c);
      if reread.Err? { return Raised(LedgerFailure(reread.error)); }
      if reread.value.head != appended.value { return Raised(ReadbackMismatch); }
      out := Done(appended.value);
    }

    method ReserveReleaseSequence(t: Target, timestamp: string, writes: nat)
      returns (out: Outcome<Allocation, ReleaseError>)
      modifies this`issued, session
      ensures old(session.isLocked) ==>
        out == Raised(LedgerFailure(LockAlreadyHeld)) && Stores() == old(Stores()) && session.isLocked
      ensures !old(session.isLocked) ==>
        (Stores(), out) == Reserve(env, old(Stores()), t, timestamp, writes) && !session.isLocked
    {
      if session.isLocked { return Raised(LedgerFailure(LockAlreadyHeld)); }
      session.isLocked := true;
      out := ReserveLocked(t, timestamp, writes);
      session.isLocked := false;
    }

    method ReserveLocked(t: Target, timestamp: string, writes: nat) returns (out: Outcome<Allocation, ReleaseError>)
      requires session.isLocked
      modifies this`issued, session`lines
      ensures (Stores(), out) == Reserve(env, old(Stores()), t, timestamp, writes)
    {
      hide Verify, FreshHistory, ReconcileLedger, Append;
      if session.lines == [] { return Raised(NotInitialised); }
      var checked := FreshReconcileLocked();
      if checked.Err? { return Raised(checked.error); }
      var l, a := checked.value.ledger, checked.value.authority;
      if a.recovery != NoRecovery { return Raised(RecoveryPending); }
      var appended := AppendAndReadBack(ReservedEvent(a.nextUnused, t, timestamp, l.head), l.head, writes);
      if appended.Raised? { return Raised(appended.error); }
      if appended.Crashed? { return Crashed; }
      var allocation := Allocation(a.nextUnused, ReleaseId(a.nextUnused), appended.value, t.componentSet, a.bindingsSha,
        a.snapshotSha);
      issued := issued + [allocation];
      out := Done(allocation);
    }

    method SignReservedBaseline(q: SignRequest, signer: Signer, writes: nat)
      returns (out: Outcome<SignResult, ReleaseError>)
      modifies session, custody
      ensures old(session.isLocked) && SameAllocationAndPayload(env.cr.er, q) ==>
                out == Raised(LedgerFailure(LockAlreadyHeld)) && Stores() == old(Stores()) && session.isLocked
      ensures !old(session.isLocked) ==>
        (Stores(), out) == Sign(env, old(Stores()), q, signer, writes) && !session.isLocked
    {
      if !SameAllocationAndPayload(env.cr.er, q) { return Raised(AllocationMismatch); }
      if session.isLocked { return Raised(LedgerFailure(LockAlreadyHeld)); }
      session.isLocked := true;
      out := SignLocked(q, signer, writes);
      session.isLocked := false;
    }

    method SignLocked(q: SignRequest, signer: Signer, writes: nat) returns (out: Outcome<SignResult, ReleaseError>)
      requires session.isLocked && SameAllocationAndPayload(env.cr.er, q)
      modifies session`lines, custody
      ensures (Stores(), out) == Sign(env, old(Stores()), q, signer, writes)
    {
      hide Verify, FreshHistory, ReconcileLedger, Check, AppendReadBack, SignRecovered, SignFresh, EnvelopeMatches,
        SameAllocationAndPayload;
      if session.lines == [] { return Raised(NotInitialised); }
      var checked := FreshReconcileLocked();
      if checked.Err? { return Raised(checked.error); }
      var ch := checked.value;
      var n, reserved := q.allocation.sequence, FindReserved(ch.ledger.events, q.allocation.sequence);
      if reserved.None? { return Raised(NoReservation); }
      if ch.authority.recovery == SignedAppendRequired(n) {
        out := RecoverSigned(ch, reserved.value, q, writes);
        return;
      }
      if ch.authority.recovery != NoRecovery { return Raised(RecoveryPending); }
      if ch.authority.highestAuthenticated >= n { return Raised(AlreadyAuthenticated); }
      if ch.authority.highestConsumed > n || ch.authority.nextUnused > n + 1 { return Raised(Overtaken); }
      match signer
      case NoSigner => out := Done(SigningRequired(q.unsigned.payloadSha));
      case SignerFails => out := Raised(SignerFailure);
      case Signs(envelope) => out := FileAndSign(reserved.value, q, envelope, writes);
    }

    method AppendSignedEvent(reserved: Event, q: SignRequest, envelopeSha: Digest, head: Digest, writes: nat)
      returns (out: Outcome<SignResult, ReleaseError>)
      requires session.isLocked
      modifies session`lines
      ensures (Stores(), out) == AppendSigned(env, old(Stores()), reserved, q, envelopeSha, head, writes)
    {
      hide AppendReadBack;
      var appended := AppendAndReadBack(SignedEventOf(reserved, q, envelopeSha, head), head, writes);
      out := match appended
        case Raised(error) => Raised(error)
        case Crashed => Crashed
        case Done(_) => Done(EvidenceOf(q, envelopeSha));
    }

    method RecoverSigned(ch: Checked, reserved: Event, q: SignRequest, writes: nat)
      returns (out: Outcome<SignResult, ReleaseError>)
      requires session.isLocked
      modifies session`lines
      ensures (Stores(), out) == SignRecovered(env, old(Stores()), ch, reserved, q, writes)
    {
      hide AppendSigned, EnvelopeMatches;
      var n := q.allocation.sequence;
      if n !in ch.snapshot.bindings { return Raised(BindingMismatch); }
      var b := ch.snapshot.bindings[n];
      var name := FileName(b.envelopeSha);
      if name !in custody.envelopes { return Raised(CustodyEnvelopeMissing); }
      var bytes := custody.envelopes[name];
      if env.cr.er.sha(bytes) != b.envelopeSha { return Raised(EnvelopeRejected); }
      if !EnvelopeMatches(env.cr.er, bytes, q) { return Raised(EnvelopeRejected); }
      if b.keyId != q.productionKey { return Raised(EnvelopeRejected); }
      out := AppendSignedEvent(reserved, q, b.envelopeSha, ch.ledger.head, writes);
    }

    method FileAndSign(reserved: Event, q: SignRequest, envelope: Bytes, writes: nat)
      returns (out: Outcome<SignResult, ReleaseError>)
      requires session.isLocked
      modifies session`lines, custody
      ensures (Stores(), out) == SignFresh(env, old(Stores()), reserved, q, envelope, writes)
    {
      hide AppendSigned, EnvelopeMatches, AppendCustody, Check, CustodyRecordOf;
      if !EnvelopeMatches(env.cr.er, envelope, q) { return Raised(EnvelopeRejected); }
      var record, sha := CustodyRecordOf(reserved, q, envelope), env.cr.er.sha(envelope);
      var expected := if custody.index.Missing? then None else Some(env.cr.indexSha(custody.index));
      var cost := CustodyCost(env.cr, Store(custody.index, custody.envelopes), record);
      var filed := custody.AppendCustodyRecord(env.cr, record, expected, writes);
      if filed.Raised? { return Raised(CustodyFailure(filed.error)); }
      if filed.Crashed? { return Crashed; }
      if FileName(sha) !in custody.envelopes { return Raised(CustodyEnvelopeMissing); }
      var refreshed := FreshReconcileLocked();
      if refreshed.Err? { return Raised(refreshed.error); }
      if refreshed.value.authority.recovery != SignedAppendRequired(q.allocation.sequence) {
        return Raised(UnexpectedRecovery);
      }
      out := AppendSignedEvent(reserved, q, sha, refreshed.value.ledger.head, if writes < cost then 0
        else writes - cost);
    }

    method PublishUnifiedRelease(q: PublishRequest, writes: nat) returns (out: Outcome<PublishResult, ReleaseError>)
      modifies this`live, session
      ensures old(session.isLocked) && q.gates.arguments && ManifestAgrees(env.cr.er, q) ==>
                out == Raised(LedgerFailure(LockAlreadyHeld)) && Stores() == old(Stores()) && session.isLocked
      ensures !old(session.isLocked) ==> (Stores(), out) == Publish(env, old(Stores()), q, writes) && !session.isLocked
    {
      if !q.gates.arguments { return Raised(ArgumentsRejected); }
      if !ManifestAgrees(env.cr.er, q) { return Raised(ArgumentsRejected); }
      if session.isLocked { return Raised(LedgerFailure(LockAlreadyHeld)); }
      session.isLocked := true;
      out := PublishLocked(q, writes);
      session.isLocked := false;
    }

    method PublishLocked(q: PublishRequest, writes: nat) returns (out: Outcome<PublishResult, ReleaseError>)
      requires session.isLocked && q.gates.arguments && ManifestAgrees(env.cr.er, q)
      modifies this`live, session`lines
      ensures (Stores(), out) == Publish(env, old(Stores()), q, writes)
    {
      hide Check, PublishFresh, AppendPublished, ManifestAgrees, StateAgrees, BindingAgrees;
      var b := q.binding;
      if session.lines == [] { return Raised(NotInitialised); }
      var checked := FreshReconcileLocked();
      if checked.Err? { return Raised(checked.error); }
      var ch := checked.value;
      var state := LatestSequenceState(ch.ledger.events, b.sequence);
      if state.None? { return Raised(NoAllocation); }
      if !state.value.status.Signed? { return Raised(NotSigned); }
      if !StateAgrees(state.value, b) { return Raised(BindingMismatch); }
      if ch.authority.highestAuthenticated > b.sequence { return Raised(Overtaken); }
      if ch.authority.highestConsumed > b.sequence { return Raised(Overtaken); }
      if b.sequence in ch.snapshot.live {
        if ch.authority.recovery != PublishedAppendRequired(b.sequence) { return Raised(RecoveryPending); }
        if !BindingAgrees(ch.snapshot, b) { return Raised(BindingMismatch); }
        if !q.gates.publicRelease { return Raised(PublicReleaseMismatch); }
        out := AppendPublishedEvent(state.value, q, true, ch.ledger.head, writes);
        return;
      }
      if ch.authority.recovery != NoRecovery { return Raised(RecoveryPending); }
      out := StageAndPublish(state.value, q, ch.ledger.head, writes);
    }

    method AppendPublishedEvent(state: Event, q: PublishRequest, recovered: bool, head: Digest, writes: nat)
      returns (out: Outcome<PublishResult, ReleaseError>)
      requires session.isLocked
      modifies session`lines
      ensures (Stores(), out) == AppendPublished(env, old(Stores()), state, q, recovered, head, writes)
    {
      hide AppendReadBack;
      var appended := AppendAndReadBack(PublishedEventOf(state, q, head), head, writes);
      out := match appended
        case Raised(error) => Raised(error)
        case Crashed => Crashed
        case Done(digest) => Done(PublishResult(recovered, digest));
    }

    method StageAndPublish(state: Event, q: PublishRequest, head: Digest, writes: nat)
      returns (out: Outcome<PublishResult, ReleaseError>)
      requires session.isLocked
      modifies this`live, session`lines
      ensures (Stores(), out) == PublishFresh(env, old(Stores()), state, q, head, writes)
    {
      hide AppendPublished, FreshHistory, BindingAgrees;
      if !q.gates.staging { return Raised(StagingFailure); }
      if writes == 0 { return Crashed; }
      live := live + [LiveRecordOf(q)];
      assert Stores() == old(Stores()).(live := live);
      if !q.gates.promoted { return Raised(PromotionUnconfirmed); }
      var refreshed := LoadFreshHistory();
      if refreshed.Err? { return Raised(refreshed.error); }
      if q.binding.sequence !in refreshed.value.live { return Raised(NotLive); }
      if !BindingAgrees(refreshed.value, q.binding) { return Raised(BindingMismatch); }
      out := AppendPublishedEvent(state, q, false, head, writes - 1);
    }

    method BootstrapSequenceLedger(floor: Binding, provenance: Option<string>, timestamp: string)
      returns (out: Outcome<Genesis, ReleaseError>)
      modifies session
      ensures old(session.isLocked) ==>
        out == Raised(LedgerFailure(LockAlreadyHeld)) && Stores() == old(Stores()) && session.isLocked
      ensures !old(session.isLocked) ==>
        (Stores(), out) == Bootstrap(env, old(Stores()), floor, provenance, timestamp) && !session.isLocked
    {
      if session.isLocked { return Raised(LedgerFailure(LockAlreadyHeld)); }
      session.isLocked := true;
      out := BootstrapLocked(floor, provenance, timestamp);
      session.isLocked := false;
    }

    method BootstrapLocked(floor: Binding, provenance: Option<string>, timestamp: string)
      returns (out: Outcome<Genesis, ReleaseError>)
      requires session.isLocked
      modifies session`lines
      ensures (Stores(), out) == Bootstrap(env, old(Stores()), floor, provenance, timestamp)
    {
      hide Verify, FreshHistory;
      ghost var before := Stores();
      if session.lines != [] {
        var verified := session.ReadVerified(env.c);
        if verified.Err? { return Raised(LedgerFailure(verified.error)); }
        if verified.value.genesis.floor != floor || verified.value.genesis.floorProvenance != provenance {
          return Raised(EvidenceChanged);
        }
        return Done(verified.value.genesis);
      }
      var snapshot := LoadFreshHistory();
      if snapshot.Err? { return Raised(snapshot.error); }
      var s := snapshot.value;
      if floor.sequence !in s.bindings { return Raised(EvidenceMissing); }
      if s.bindings[floor.sequence] != floor { return Raised(EvidenceChanged); }
      if s.highest != floor.sequence { return Raised(EvidenceChanged); }
      var actual := if floor.sequence in s.provenance then Some(s.provenance[floor.sequence]) else None;
      if actual != provenance { return Raised(EvidenceChanged); }
      var genesis := Genesis(floor, provenance, timestamp);
      var written := session.InitializeGenesis(env.c, genesis, false);
      if written.Err? { return Raised(LedgerFailure(NonPositiveFloor)); }
      assert Stores() == before.(ledger := [GenesisLine(env.c, genesis)]);
      var reread := session.ReadVerified(env.c);
      if reread.Err? { return Raised(LedgerFailure(reread.error)); }
      if reread.value.genesis != genesis { return Raised(ReadbackMismatch); }
      out := Done(genesis);
    }

    method SupersedeSignedRelease(s: Snapshot, q: SupersedeRequest, timestamp: string, mutate: bool, writes: nat)
      returns (out: Outcome<Supersession, ReleaseError>)
      modifies session
      ensures old(session.isLocked) ==>
        out == Raised(LedgerFailure(LockAlreadyHeld)) && Stores() == old(Stores()) && session.isLocked
      ensures !old(session.isLocked) ==>
        (Stores(), out) == Supersede(env, old(Stores()), s, q, timestamp, mutate, writes) && !session.isLocked
    {
      if session.isLocked { return Raised(LedgerFailure(LockAlreadyHeld)); }
      session.isLocked := true;
      out := SupersedeLocked(s, q, timestamp, mutate, writes);
      session.isLocked := false;
    }

    method SupersedeLocked(s: Snapshot, q: SupersedeRequest, timestamp: string, mutate: bool, writes: nat)
      returns (out: Outcome<Supersession, ReleaseError>)
      requires session.isLocked
      modifies session`lines
      ensures (Stores(), out) == Supersede(env, old(Stores()), s, q, timestamp, mutate, writes)
    {
      hide Verify, PrepareSupersession, AppendError;
      ghost var before := Stores();
      var verified := session.ReadVerified(env.c);
      if verified.Err? { return Raised(LedgerFailure(verified.error)); }
      var l := verified.value;
      var prepared := Prepare(l, s, q, timestamp);
      if prepared.Err? { return Raised(prepared.error); }
      var p := prepared.value;
      if !mutate { return Done(p); }
      var dry := Append(env.c, session.lines, p.event, l.head);
      if dry.Ok? && writes == 0 { return Crashed; }
      var appended := session.AppendEvent(env.c, p.event, l.head);
      assert appended.Ok? ==> Stores() == before.(ledger := session.lines);
      if appended.Err? { return Raised(LedgerFailure(appended.error)); }
      if writes == 1 { return Crashed; }
      out := Done(p);
    }

    /** The checks of a supersession request and the reconciliation of the hypothetical ledger. */
    method Prepare(l: VerifiedLedger, s: Snapshot, q: SupersedeRequest, timestamp: string)
      returns (r: Result<Supersession, ReleaseError>)
      ensures r == PrepareSupersession(env, l, s, q, timestamp)
    {
      hide ReconcileLedger;
      if !ValidRequest(q) { return Err(InvalidRequest); }
      if l.head != q.head { return Err(StaleHead); }
      var state := LatestSequenceState(l.events, q.sequence);
      if state.None? { return Err(NoAllocation); }
      var signed := state.value;
      if !signed.status.Signed? {
        return Err(if signed.status.Reserved? || signed.status.Unknown? then NotSigned else Terminal);
      }
      if signed.releaseId != q.releaseId || signed.sourceCommit != q.sourceCommit { return Err(BindingMismatch); }
      if signed.componentSet != q.componentSet { return Err(BindingMismatch); }
      if signed.payloadSha != Some(q.payloadSha) || signed.envelopeSha != Some(q.envelopeSha) {
        return Err(BindingMismatch);
      }
      if q.sequence in s.live { return Err(AlreadyLive); }
      if q.sequence in s.bindings {
        var b := s.bindings[q.sequence];
        if b.releaseId != q.releaseId || b.payloadSha != q.payloadSha || b.envelopeSha != q.envelopeSha {
          return Err(BindingMismatch);
        }
      }
      var event := FailedEventOf(signed, timestamp, l.head);
      var proposed := env.c.sha(env.c.dumpEvent(event));
      var reconciled := ReconcileLedgerWithAuthenticatedHistory(VerifiedLedger(l.genesis, l.events + [event], proposed),
        s);
      if reconciled.Err? { return Err(ReconcileFailure(reconciled.error)); }
      if reconciled.value.nextUnused <= q.sequence { return Err(NextUnusedStuck); }
      r := Ok(Supersession(event, proposed, l.head, reconciled.value.nextUnused, reconciled.value));
    }
  }
}
