/** An interrupted signing or publication, run again, ends as if it had not been interrupted. */
module ReleaseResume {
  import opened Prelude
  import opened Ledger
  import opened Reconcile
  import opened RecoveryLaws
  import opened History
  import opened Custody
  import opened Release
  import opened ReleaseLaws

  // ---- signing ---------------------------------------------------------------------------

  /** The fields of an authenticated binding are not empty. */
  lemma BindingNotEmpty(env: Env, w: World, n: int)
    requires Laws(env) && Check(env, w).Ok? && n in Check(env, w).value.snapshot.bindings
    ensures var b := Check(env, w).value.snapshot.bindings[n];
      b.payloadSha != "" && b.envelopeSha != "" && b.keyId != ""
  {
    hide Verify, ReconcileLedger;
    var r := BindingHasRecord(env.cr.er, LoadCustody(env.cr.er, w.custody).value + w.live, n);
  }

  /** The SIGNED append of a waiting sequence succeeds, for the allocation that was handed out. */
  lemma SignedAppendSucceeds(env: Env, w: World, ch: Checked, reserved: Event, q: SignRequest, sha: Digest, writes: nat)
    requires Laws(env) && Inv(env, w) && Check(env, w) == Ok(ch)
    requires ch.authority.recovery == SignedAppendRequired(q.allocation.sequence)
    requires reserved in ch.ledger.events && reserved.sequence == q.allocation.sequence && reserved.status.Reserved?
    requires NamesReservation(reserved, q)
    requires q.allocation.sequence in ch.snapshot.bindings
    requires BindingFits(ch.snapshot.bindings[q.allocation.sequence], q)
    requires sha == ch.snapshot.bindings[q.allocation.sequence].envelopeSha
    ensures AppendSigned(env, w, reserved, q, sha, ch.ledger.head, writes)
            == (if writes == 0 then w else Appended(env, w, SignedEventOf(reserved, q, sha, ch.ledger.head)),
                if writes < 2 then Crashed else Done(EvidenceOf(q, sha)))
    ensures var e := SignedEventOf(reserved, q, sha, ch.ledger.head);
      Verify(env.c, Appended(env, w, e).ledger) == Ok(Extend(ch.ledger, e, EventLine(env.c, e).entrySha))
  {
    hide Verify, FreshHistory, ReconcileLedger, AppendError, Inv;
    var l, s, a := InvChecks(env, w);
    var n, b, state := PendingFacts(l, s);
    LatestEndsLifeline(l, n);
    ReservedIsAlone(OfSequence(l.events, n));
    ReservationHeads(l, n, reserved);
    BindingNotEmpty(env, w, n);
    SignedAccepted(l, state, b, q.timestamp);
    assert SignedEventOf(reserved, q, sha, l.head) == SignedEvent(state, b, q.timestamp, l.head);
    AppendLaw(env, w, l, SignedEventOf(reserved, q, sha, l.head), writes);
  }

  /** With the envelope in custody, signing again takes the recovery path, whatever the signer. */
  lemma RecoverySucceeds(env: Env, w: World, ch: Checked, reserved: Event, q: SignRequest, signer: Signer, writes: nat)
    requires Laws(env) && Inv(env, w) && Check(env, w) == Ok(ch) && SameAllocationAndPayload(env.cr.er, q)
    requires ch.authority.recovery == SignedAppendRequired(q.allocation.sequence)
    requires FindReserved(ch.ledger.events, q.allocation.sequence) == Some(reserved)
    requires q.allocation.sequence in ch.snapshot.bindings
    requires BindingFits(ch.snapshot.bindings[q.allocation.sequence], q)
    requires var name := FileName(ch.snapshot.bindings[q.allocation.sequence].envelopeSha);
      && name in w.custody.envelopes && EnvelopeMatches(env.cr.er, w.custody.envelopes[name], q)
      && env.cr.er.sha(w.custody.envelopes[name]) == ch.snapshot.bindings[q.allocation.sequence].envelopeSha
    ensures Sign(env, w, q, signer, writes)
            == AppendSigned(env, w, reserved, q, ch.snapshot.bindings[q.allocation.sequence].envelopeSha,
              ch.ledger.head, writes)
  {
    hide Verify, FreshHistory, ReconcileLedger, AppendSigned, FindReserved, EnvelopeMatches, SignFresh, Inv;
    var l, s, a := Checks(env, w);
  }

  /** How the normal path continues after custody: dead on the way, or with the ledger append. */
  lemma FreshContinues(env: Env, w: World, ch: Checked, reserved: Event, q: SignRequest, envelope: Bytes, writes: nat)
    requires Laws(env) && Inv(env, w) && FreshSigning(env, w, ch, reserved, q, envelope)
    requires SignFresh(env, w, reserved, q, envelope, writes).1.Crashed?
    ensures var r := CustodyRecordOf(reserved, q, envelope); var cost := CustodyCost(env.cr, w.custody, r);
      && cost <= 2
      && AppendCustody(env.cr, w.custody, r, CurrentIndexSha(env, w.custody), 2).1.Done?
      && FindEntry(EntriesOf(w.custody.index), r.sourceId).None?
      && (writes < cost ==>
            SignFresh(env, w, reserved, q, envelope, writes).0 == Filed(env, w, r, writes)
            && Filed(env, w, r, writes).custody.index == w.custody.index)
      && (writes >= cost ==> AppendCustody(env.cr, w.custody, r, CurrentIndexSha(env, w.custody), writes)
                             == AppendCustody(env.cr, w.custody, r, CurrentIndexSha(env, w.custody), 2))
  {
    hide Check, AppendSigned, EnvelopeMatches, CustodyRecordOf, Inv;
    var r := CustodyRecordOf(reserved, q, envelope);
    AppendBudget(env.cr, w.custody, r, CurrentIndexSha(env, w.custody), writes);
    if FindEntry(EntriesOf(w.custody.index), r.sourceId).Some? {
      UnfiledKeepsInv(env, w, r, writes);
      GuardedReservation(env, w, ch, reserved, q, envelope);
    }
    var out := AppendCustody(env.cr, w.custody, r, CurrentIndexSha(env, w.custody), writes).1;
    if out.Crashed? { CrashedInCustody(env.cr, w.custody, r, CurrentIndexSha(env, w.custody), writes); }
  }

  lemma CrashedInCustody(cr: CustodyReader, st: Store, r: Record, expected: Option<Digest>, writes: nat)
    requires AppendCustody(cr, st, r, expected, writes).1.Crashed?
    ensures AppendCustody(cr, st, r, expected, 2).1.Done? && FindEntry(EntriesOf(st.index), r.sourceId).None?
    ensures writes < CustodyCost(cr, st, r)
  {}

  /** The normal path, once it has paid for custody. */
  lemma FreshOutcome(env: Env, w: World, ch: Checked, reserved: Event, q: SignRequest, envelope: Bytes, writes: nat)
    requires Laws(env) && Inv(env, w) && FreshSigning(env, w, ch, reserved, q, envelope)
    requires Files(env, w, CustodyRecordOf(reserved, q, envelope), 2)
    requires writes >= CustodyCost(env.cr, w.custody, CustodyRecordOf(reserved, q, envelope))
    ensures var r := CustodyRecordOf(reserved, q, envelope);
      var filed, cost := Filed(env, w, r, 2), CustodyCost(env.cr, w.custody, r);
      var e := SignedEventOf(reserved, q, env.cr.er.sha(envelope), ch.ledger.head);
      SignFresh(env, w, reserved, q, envelope, writes)
      == (if writes == cost then filed else Appended(env, filed, e),
          if writes < cost + 2 then Crashed else Done(EvidenceOf(q, env.cr.er.sha(envelope))))
    ensures var filed := Filed(env, w, CustodyRecordOf(reserved, q, envelope), 2);
      var e := SignedEventOf(reserved, q, env.cr.er.sha(envelope), ch.ledger.head);
      Verify(env.c, Appended(env, filed, e).ledger) == Ok(Extend(ch.ledger, e, EventLine(env.c, e).entrySha))
  {
    hide *;
    var r, sha := CustodyRecordOf(reserved, q, envelope), env.cr.er.sha(envelope);
    Completes(env, w, r, writes);
    var filed := Filed(env, w, r, writes);
    FreshIsSigning(env, w, ch, reserved, q, envelope);
    FiledKeepsInv(env, w, ch, reserved, q, envelope, writes);
    FiledBinding(env, w, ch, reserved, q, envelope, writes);
    var l', s', a' := InvChecks(env, filed);
    var ch' := Checked(l', s', a');
    SignFreshFiled(env, w, ch', reserved, q, envelope, writes);
    GuardedReservation(env, w, ch, reserved, q, envelope);
    SignedAppendSucceeds(env, filed, ch', reserved, q, sha, writes - CustodyCost(env.cr, w.custody, r));
  }

  lemma Completes(env: Env, w: World, r: Record, writes: nat)
    requires Files(env, w, r, 2) && writes >= CustodyCost(env.cr, w.custody, r)
    ensures AppendCustody(env.cr, w.custody, r, CurrentIndexSha(env, w.custody), writes)
            == AppendCustody(env.cr, w.custody, r, CurrentIndexSha(env, w.custody), 2)
    ensures Files(env, w, r, writes)
    ensures Filed(env, w, r, writes) == Filed(env, w, r, 2)
  {
    AppendBudget(env.cr, w.custody, r, CurrentIndexSha(env, w.custody), writes);
  }

  lemma GuardedReservation(env: Env, w: World, ch: Checked, reserved: Event, q: SignRequest, envelope: Bytes)
    requires FreshSigning(env, w, ch, reserved, q, envelope)
    ensures Check(env, w) == Ok(ch) && EnvelopeMatches(env.cr.er, envelope, q) && ch.authority.recovery == NoRecovery
    ensures reserved in ch.ledger.events && reserved.sequence == q.allocation.sequence && reserved.status.Reserved?
    ensures NamesReservation(reserved, q) && |reserved.sourceCommit| == 40
  {}

  /** Dead between custody and ledger: any signer, even none, resumes on the recovery path. */
  lemma ResumeAfterCustody(env: Env, w: World, ch: Checked, reserved: Event, q: SignRequest, envelope: Bytes,
      signer: Signer)
    requires Laws(env) && Inv(env, w) && FreshSigning(env, w, ch, reserved, q, envelope)
    requires SameAllocationAndPayload(env.cr.er, q)
    requires FindReserved(ch.ledger.events, q.allocation.sequence) == Some(reserved)
    requires Files(env, w, CustodyRecordOf(reserved, q, envelope), 2)
    ensures var filed := Filed(env, w, CustodyRecordOf(reserved, q, envelope), 2);
      && Sign(env, filed, q, signer, UNINTERRUPTED) == SignFresh(env, w, reserved, q, envelope, UNINTERRUPTED)
      && Check(env, filed).Ok?
      && Check(env, filed).value.authority.recovery == SignedAppendRequired(q.allocation.sequence)
  {
    hide *;
    var r, sha := CustodyRecordOf(reserved, q, envelope), env.cr.er.sha(envelope);
    CostIsSmall(env, w, r);
    Completes(env, w, r, 2);
    var filed := Filed(env, w, r, 2);
    FreshIsSigning(env, w, ch, reserved, q, envelope);
    FiledKeepsInv(env, w, ch, reserved, q, envelope, 2);
    FiledBinding(env, w, ch, reserved, q, envelope, 2);
    GuardedReservation(env, w, ch, reserved, q, envelope);
    var l', s', a' := InvChecks(env, filed);
    var ch' := Checked(l', s', a');
    RecoverySucceeds(env, filed, ch', reserved, q, signer, UNINTERRUPTED);
    SignedAppendSucceeds(env, filed, ch', reserved, q, sha, UNINTERRUPTED);
    FreshOutcome(env, w, ch, reserved, q, envelope, UNINTERRUPTED);
  }

  lemma CostIsSmall(env: Env, w: World, r: Record)
    ensures CustodyCost(env.cr, w.custody, r) <= 2 && UNINTERRUPTED == 4
  {}

  /** Dead inside custody: the same signing starts over and ends the same. */
  lemma ResumeInsideCustody(env: Env, w: World, ch: Checked, reserved: Event, q: SignRequest, envelope: Bytes,
      writes: nat)
    requires Laws(env) && Inv(env, w) && FreshSigning(env, w, ch, reserved, q, envelope)
    requires FindReserved(ch.ledger.events, q.allocation.sequence) == Some(reserved)
    requires SameAllocationAndPayload(env.cr.er, q)
    requires Files(env, w, CustodyRecordOf(reserved, q, envelope), 2)
    requires AppendCustody(env.cr, w.custody, CustodyRecordOf(reserved, q, envelope), CurrentIndexSha(env, w.custody),
      writes).1.Crashed?
    ensures Sign(env, Filed(env, w, CustodyRecordOf(reserved, q, envelope), writes), q, Signs(envelope), UNINTERRUPTED)
            == SignFresh(env, w, reserved, q, envelope, UNINTERRUPTED)
  {
    hide Inv, Check, AppendCustody, CustodyRecordOf, SignFresh, SignRecovered, FindReserved, EnvelopeMatches, Verify;
    var r := CustodyRecordOf(reserved, q, envelope);
    var dead := Filed(env, w, r, writes);
    CostIsSmall(env, w, r);
    CostIsSmall(env, dead, r);
    UnfiledKeepsInv(env, w, r, writes);
    DeadInCustody(env, w, r, writes);
    assert FreshSigning(env, dead, ch, reserved, q, envelope);
    FreshOutcome(env, w, ch, reserved, q, envelope, UNINTERRUPTED);
    FreshOutcome(env, dead, ch, reserved, q, envelope, UNINTERRUPTED);
    var l', s', a' := Checks(env, dead);
    SignGoesFresh(env, dead, ch, reserved, q, envelope);
  }

  lemma DeadInCustody(env: Env, w: World, r: Record, writes: nat)
    requires Files(env, w, r, 2)
    requires AppendCustody(env.cr, w.custody, r, CurrentIndexSha(env, w.custody), writes).1.Crashed?
    ensures var dead := Filed(env, w, r, writes);
      && Files(env, dead, r, 2) && Filed(env, dead, r, 2) == Filed(env, w, r, 2)
  {
    AppendInterrupted(env.cr, w.custody, r, CurrentIndexSha(env, w.custody), writes);
    AppendBudget(env.cr, w.custody, r, CurrentIndexSha(env, w.custody), writes);
  }

  lemma SignGoesFresh(env: Env, w: World, ch: Checked, reserved: Event, q: SignRequest, envelope: Bytes)
    requires FreshSigning(env, w, ch, reserved, q, envelope) && w.ledger != []
    requires FindReserved(ch.ledger.events, q.allocation.sequence) == Some(reserved)
    requires SameAllocationAndPayload(env.cr.er, q)
    requires ch.authority.nextUnused <= q.allocation.sequence + 1
    ensures Sign(env, w, q, Signs(envelope), UNINTERRUPTED) == SignFresh(env, w, reserved, q, envelope, UNINTERRUPTED)
  {
    hide Check, SignFresh, FindReserved, EnvelopeMatches;
  }

  /** The same request on the same path, uninterrupted. */
  lemma SignPathIsFixed(env: Env, w: World, q: SignRequest, signer: Signer, ch: Checked, reserved: Event, writes: nat)
    requires Check(env, w) == Ok(ch) && SameAllocationAndPayload(env.cr.er, q) && w.ledger != []
    requires FindReserved(ch.ledger.events, q.allocation.sequence) == Some(reserved)
    requires ch.authority.recovery == SignedAppendRequired(q.allocation.sequence)
    ensures Sign(env, w, q, signer, writes) == SignRecovered(env, w, ch, reserved, q, writes)
  {
    hide Check, SignRecovered, SignFresh, FindReserved, SameAllocationAndPayload;
  }

  /** The recovery path dies before or after its one write; run again at any time it completes. */
  lemma RecoveredResumes(env: Env, w: World, ch: Checked, reserved: Event, q: SignRequest, signer: Signer, writes: nat,
                         later: string, another: Signer)
    requires Laws(env) && Inv(env, w) && Check(env, w) == Ok(ch) && w.ledger != []
    requires SameAllocationAndPayload(env.cr.er, q)
    requires FindReserved(ch.ledger.events, q.allocation.sequence) == Some(reserved) && NamesReservation(reserved, q)
    requires ch.authority.recovery == SignedAppendRequired(q.allocation.sequence)
    requires SignRecovered(env, w, ch, reserved, q, writes).1.Crashed?
    ensures var dead, whole := SignRecovered(env, w, ch, reserved, q, writes).0, Sign(env, w, q, signer, UNINTERRUPTED);
      var whole' := Sign(env, w, At(q, later), signer, UNINTERRUPTED);
      && whole'.1 == whole.1 && whole.1.Done? && whole.1.value.SignedEvidence?
      && (dead == whole.0 || dead == w)
      && whole' == Sign(env, w, At(q, later), another, UNINTERRUPTED)
  {
    hide Inv, Check, EnvelopeMatches, AppendSigned, Verify, SignFresh, Sign, SignRecovered, SameAllocationAndPayload,
      FindReserved;
    var n, q' := q.allocation.sequence, At(q, later);
    LaterIsAlike(env, w, ch, reserved, q, "", later);
    FindReservedMeans(ch.ledger.events, n);
    RecoveredBinding(env, w, ch, reserved, q, writes);
    var b := ch.snapshot.bindings[n];
    SignPathIsFixed(env, w, q, signer, ch, reserved, UNINTERRUPTED);
    SignPathIsFixed(env, w, q', signer, ch, reserved, UNINTERRUPTED);
    SignPathIsFixed(env, w, q', another, ch, reserved, UNINTERRUPTED);
    SignedAppendSucceeds(env, w, ch, reserved, q, b.envelopeSha, writes);
    SignedAppendSucceeds(env, w, ch, reserved, q, b.envelopeSha, UNINTERRUPTED);
    SignedAppendSucceeds(env, w, ch, reserved, q', b.envelopeSha, UNINTERRUPTED);
    AlikeRecovered(env, w, ch, reserved, q, later, writes);
  }

  lemma RecoveredBinding(env: Env, w: World, ch: Checked, reserved: Event, q: SignRequest, writes: nat)
    requires Laws(env) && Check(env, w) == Ok(ch)
    requires SignRecovered(env, w, ch, reserved, q, writes).1.Crashed?
    ensures var n := q.allocation.sequence;
      && n in ch.snapshot.bindings && BindingFits(ch.snapshot.bindings[n], q)
      && forall k :: SignRecovered(env, w, ch, reserved, q, k)
                     == AppendSigned(env, w, reserved, q, ch.snapshot.bindings[n].envelopeSha, ch.ledger.head, k)
  {
    hide Check, EnvelopeMatches, AppendSigned;
    var n := q.allocation.sequence;
    var b := ch.snapshot.bindings[n];
    FileIsEnvelope(env, w, ch, n, w.custody.envelopes[FileName(b.envelopeSha)]);
    EnvelopeFits(env.cr.er, w.custody.envelopes[FileName(b.envelopeSha)], q, b);
  }

  lemma AlikeRecovered(env: Env, w: World, ch: Checked, reserved: Event, q: SignRequest, later: string, writes: nat)
    requires SignRecovered(env, w, ch, reserved, q, writes).1.Crashed?
    ensures var n := q.allocation.sequence;
      n in ch.snapshot.bindings && forall k ::
        SignRecovered(env, w, ch, reserved, At(q, later), k)
        == AppendSigned(env, w, reserved, At(q, later), ch.snapshot.bindings[n].envelopeSha, ch.ledger.head, k)
  {
    hide AppendSigned;
  }

  lemma EnvelopeFits(er: EnvelopeReader, bytes: Bytes, q: SignRequest, b: Binding)
    requires EnvelopeMatches(er, bytes, q) && b.keyId == q.productionKey
    requires b.releaseId == er.verify(bytes).value.releaseId && b.payloadSha == er.verify(bytes).value.payloadSha
    ensures BindingFits(b, q)
  {}

  /** The request names the release and the component set of its reservation and, unless its envelope is in custody
      already, a commit that custody can read back. */
  ghost predicate MatchesReservation(env: Env, w: World, q: SignRequest) {
    Check(env, w).Ok? ==>
      var r := FindReserved(Check(env, w).value.ledger.events, q.allocation.sequence);
      && (r.Some? ==> NamesReservation(r.value, q))
      && (r.Some? && Check(env, w).value.authority.recovery == NoRecovery ==> |r.value.sourceCommit| == 40)
  }

  /** The same request at another time. */
  function At(q: SignRequest, later: string): SignRequest { q.(timestamp := later) }

  lemma LaterIsAlike(env: Env, w: World, ch: Checked, reserved: Event, q: SignRequest, envelope: Bytes, later: string)
    ensures FreshSigning(env, w, ch, reserved, q, envelope) ==>
      FreshSigning(env, w, ch, reserved, At(q, later), envelope)
    ensures SameAllocationAndPayload(env.cr.er, q) ==> SameAllocationAndPayload(env.cr.er, At(q, later))
    ensures CustodyRecordOf(reserved, At(q, later), envelope) == CustodyRecordOf(reserved, q, envelope)
    ensures NamesReservation(reserved, q) ==> NamesReservation(reserved, At(q, later))
    ensures forall sha :: EvidenceOf(At(q, later), sha) == EvidenceOf(q, sha)
    ensures At(q, later).allocation == q.allocation
  {}

  ghost predicate WaitsForSigned(env: Env, w: World, n: int) {
    Check(env, w).Ok? && Check(env, w).value.authority.recovery == SignedAppendRequired(n)
  }

  /** A signing that dies anywhere could have completed. Run again from where it died, at any later time, it does what
      it would have done at that time had the first run never been: the same evidence, the same stores. Once custody
      holds the envelope any signer will do, even none. Only a signing that dies after its last write has nothing left
      to do. */
  lemma SignResumes(env: Env, w: World, q: SignRequest, signer: Signer, writes: nat, later: string, another: Signer)
    requires Laws(env) && Inv(env, w) && MatchesReservation(env, w, q)
    requires Sign(env, w, q, signer, writes).1.Crashed?
    ensures var dead, whole := Sign(env, w, q, signer, writes).0, Sign(env, w, q, signer, UNINTERRUPTED);
      var whole' := Sign(env, w, At(q, later), signer, UNINTERRUPTED);
      && whole'.1 == whole.1 && whole.1.Done? && whole.1.value.SignedEvidence?
      && (dead == whole.0 || Sign(env, dead, At(q, later), signer, UNINTERRUPTED) == whole')
      && (dead != whole.0 && WaitsForSigned(env, dead, q.allocation.sequence)
          ==> Sign(env, dead, At(q, later), another, UNINTERRUPTED) == whole')
  {
    hide Inv, Sign, Check, SignRecovered, SignFresh, SameAllocationAndPayload, Laws;
    var ch, reserved, recovered := SignPaths(env, w, q, signer, writes);
    FindReservedMeans(ch.ledger.events, q.allocation.sequence);
    LaterIsAlike(env, w, ch, reserved, q, "", later);
    if recovered {
      RecoveredResumes(env, w, ch, reserved, q, signer, writes, later, another);
    } else {
      MatchesFresh(env, w, ch, reserved, q, signer.envelope);
      FreshResumes(env, w, ch, reserved, q, signer.envelope, writes, later, another);
    }
  }

  lemma MatchesFresh(env: Env, w: World, ch: Checked, reserved: Event, q: SignRequest, envelope: Bytes)
    requires MatchesReservation(env, w, q) && Check(env, w) == Ok(ch)
    requires ch.authority.recovery == NoRecovery && ch.authority.highestAuthenticated < q.allocation.sequence
    requires ch.authority.highestConsumed <= q.allocation.sequence && EnvelopeMatches(env.cr.er, envelope, q)
    requires FindReserved(ch.ledger.events, q.allocation.sequence) == Some(reserved)
    ensures FreshSigning(env, w, ch, reserved, q, envelope)
  {
    hide Check;
    FindReservedMeans(ch.ledger.events, q.allocation.sequence);
  }

  lemma FreshResumes(env: Env, w: World, ch: Checked, reserved: Event, q: SignRequest, envelope: Bytes, writes: nat,
                     later: string, another: Signer)
    requires Laws(env) && Inv(env, w) && FreshSigning(env, w, ch, reserved, q, envelope) && w.ledger != []
    requires FindReserved(ch.ledger.events, q.allocation.sequence) == Some(reserved)
    requires SameAllocationAndPayload(env.cr.er, q)
    requires ch.authority.nextUnused <= q.allocation.sequence + 1
    requires SignFresh(env, w, reserved, q, envelope, writes).1.Crashed?
    ensures var dead, whole := SignFresh(env, w, reserved, q, envelope, writes).0,
      Sign(env, w, q, Signs(envelope), UNINTERRUPTED);
      var whole' := Sign(env, w, At(q, later), Signs(envelope), UNINTERRUPTED);
      && whole'.1 == whole.1 && whole.1.Done? && whole.1.value.SignedEvidence?
      && (dead == whole.0 || Sign(env, dead, At(q, later), Signs(envelope), UNINTERRUPTED) == whole')
      && (dead != whole.0 && WaitsForSigned(env, dead, q.allocation.sequence)
          ==> Sign(env, dead, At(q, later), another, UNINTERRUPTED) == whole')
  {
    hide *;
    var r, q' := CustodyRecordOf(reserved, q, envelope), At(q, later);
    LaterIsAlike(env, w, ch, reserved, q, envelope, later);
    FreshContinues(env, w, ch, reserved, q, envelope, writes);
    CompletesFrom(env, w, r);
    CostIsSmall(env, w, r);
    SignGoesFresh(env, w, ch, reserved, q, envelope);
    SignGoesFresh(env, w, ch, reserved, q', envelope);
    FreshOutcome(env, w, ch, reserved, q, envelope, UNINTERRUPTED);
    FreshOutcome(env, w, ch, reserved, q', envelope, UNINTERRUPTED);
    var cost := CustodyCost(env.cr, w.custody, r);
    if writes < cost {
      DiesInCustody(env, w, r, writes);
      ResumeInsideCustody(env, w, ch, reserved, q', envelope, writes);
      UnfiledKeepsInv(env, w, r, writes);
      GuardedReservation(env, w, ch, reserved, q, envelope);
      StillFresh(env, Filed(env, w, r, writes), ch, q.allocation.sequence);
    } else {
      FreshOutcome(env, w, ch, reserved, q, envelope, writes);
      ResumeAfterCustody(env, w, ch, reserved, q', envelope, Signs(envelope));
      ResumeAfterCustody(env, w, ch, reserved, q', envelope, another);
    }
  }

  lemma StillFresh(env: Env, w: World, ch: Checked, n: int)
    requires Check(env, w) == Ok(ch) && ch.authority.recovery == NoRecovery
    ensures !WaitsForSigned(env, w, n)
  {}

  /** A sequence that is signed already is not signed again: the action is refused and changes nothing. */
  lemma SignedIsNotSignedAgain(env: Env, w: World, q: SignRequest, signer: Signer, writes: nat)
    requires Inv(env, w) && Latest(Check(env, w).value.ledger.events, q.allocation.sequence).Some?
    requires Recorded(Latest(Check(env, w).value.ledger.events, q.allocation.sequence).value.status)
    ensures Sign(env, w, q, signer, writes).0 == w && Sign(env, w, q, signer, writes).1.Raised?
  {
    hide Inv, Sign, Verify, FreshHistory, ReconcileLedger, Check;
    var l, s, a := InvChecks(env, w);
    var n := q.allocation.sequence;
    LatestMember(l.events, n);
    LatestEndsLifeline(l, n);
    assert n in s.bindings;
    ReconcileMeans(l, s);
    NextUnusedExceedsAll(l, s, a.recovery);
    AuthenticatedIsRefused(env, w, Checked(l, s, a), q, signer, writes);
  }

  lemma AuthenticatedIsRefused(env: Env, w: World, ch: Checked, q: SignRequest, signer: Signer, writes: nat)
    requires Check(env, w) == Ok(ch) && ch.authority.recovery != SignedAppendRequired(q.allocation.sequence)
    requires ch.authority.highestAuthenticated >= q.allocation.sequence
    ensures Sign(env, w, q, signer, writes).0 == w && Sign(env, w, q, signer, writes).1.Raised?
  {
    hide Check, SignRecovered, SignFresh, SameAllocationAndPayload, FindReserved;
  }

  lemma CompletesFrom(env: Env, w: World, r: Record)
    requires AppendCustody(env.cr, w.custody, r, CurrentIndexSha(env, w.custody), 2).1.Done?
    requires FindEntry(EntriesOf(w.custody.index), r.sourceId).None?
    ensures Files(env, w, r, 2)
  {}

  lemma DiesInCustody(env: Env, w: World, r: Record, writes: nat)
    requires Files(env, w, r, 2) && writes < CustodyCost(env.cr, w.custody, r)
    ensures AppendCustody(env.cr, w.custody, r, CurrentIndexSha(env, w.custody), writes).1.Crashed?
  {}

  // ---- publication -----------------------------------------------------------------------

  /** The PUBLISHED append of a waiting sequence succeeds. */
  lemma PublishedAppendSucceeds(env: Env, w: World, ch: Checked, state: Event, q: PublishRequest, recovered: bool,
      writes: nat)
    requires Laws(env) && Inv(env, w) && Check(env, w) == Ok(ch)
    requires ch.authority.recovery == PublishedAppendRequired(q.binding.sequence)
    requires Latest(ch.ledger.events, q.binding.sequence) == Some(state) && StateAgrees(state, q.binding)
    requires BindingAgrees(ch.snapshot, q.binding)
    ensures var e := PublishedEventOf(state, q, ch.ledger.head);
      AppendPublished(env, w, state, q, recovered, ch.ledger.head, writes)
      == (if writes == 0 then w else Appended(env, w, e),
          if writes < 2 then Crashed else Done(PublishResult(recovered, EventLine(env.c, e).entrySha)))
    ensures var e := PublishedEventOf(state, q, ch.ledger.head);
      Verify(env.c, Appended(env, w, e).ledger) == Ok(Extend(ch.ledger, e, EventLine(env.c, e).entrySha))
  {
    hide Verify, FreshHistory, ReconcileLedger, AppendError, Inv;
    var l, s, a := InvChecks(env, w);
    var n, b, state' := PendingFacts(l, s);
    PublishedAccepted(l, state, b, q.timestamp);
    assert PublishedEventOf(state, q, l.head) == PublishedEvent(state, b, q.timestamp, l.head);
    AppendLaw(env, w, l, PublishedEventOf(state, q, l.head), writes);
  }

  /** With the release live, publishing again takes the recovery path: nothing is promoted. */
  lemma PublishGoesRecovered(env: Env, w: World, ch: Checked, state: Event, q: PublishRequest, writes: nat)
    requires Publishing(env, w, ch, state, q) && w.ledger != [] && q.gates.arguments && q.gates.publicRelease
    requires q.binding.sequence in ch.snapshot.live && BindingAgrees(ch.snapshot, q.binding)
    requires ch.authority.recovery == PublishedAppendRequired(q.binding.sequence)
    ensures Publish(env, w, q, writes) == AppendPublished(env, w, state, q, true, ch.ledger.head, writes)
  {
    hide Check, AppendPublished, ManifestAgrees, StateAgrees, BindingAgrees;
  }

  lemma PublishGoesFresh(env: Env, w: World, ch: Checked, state: Event, q: PublishRequest, writes: nat)
    requires Publishing(env, w, ch, state, q) && w.ledger != [] && q.gates.arguments
    requires q.binding.sequence !in ch.snapshot.live && ch.authority.recovery == NoRecovery
    ensures Publish(env, w, q, writes) == PublishFresh(env, w, state, q, ch.ledger.head, writes)
  {
    hide Check, PublishFresh, ManifestAgrees, StateAgrees, BindingAgrees;
  }

  /** The same publication at another time, with other answers of the outside world. */
  function Again(q: PublishRequest, later: string, gates: Gates): PublishRequest
  {
    q.(timestamp := later, gates := gates)
  }

  lemma AgainIsAlike(env: Env, w: World, ch: Checked, state: Event, q: PublishRequest, later: string, gates: Gates)
    ensures Publishing(env, w, ch, state, q) ==> Publishing(env, w, ch, state, Again(q, later, gates))
    ensures Promoted(w, Again(q, later, gates)) == Promoted(w, q)
    ensures PublishedEventOf(state, Again(q, later, gates), ch.ledger.head)
         == PublishedEventOf(state, Again(q, later, q.gates), ch.ledger.head)
    ensures Again(q, later, gates).gates == gates && Again(q, later, gates).binding == q.binding
  {}

  /** Everything the promoted release needs to be recorded, by the normal path or by the recovery path. */
  lemma PromotedRecords(env: Env, w: World, ch: Checked, state: Event, q: PublishRequest, writes: nat)
    returns (ch': Checked)
    requires Laws(env) && Inv(env, w) && Publishing(env, w, ch, state, q) && ch.authority.recovery == NoRecovery
    ensures var v := Promoted(w, q);
      && Check(env, v) == Ok(ch') && ch'.ledger == ch.ledger && v.ledger == w.ledger
      && Publishing(env, v, ch', state, q) && BindingAgrees(ch'.snapshot, q.binding)
      && q.binding.sequence in ch'.snapshot.live
      && ch'.authority.recovery == PublishedAppendRequired(q.binding.sequence)
    ensures var e, v := PublishedEventOf(state, q, ch.ledger.head), Promoted(w, q);
      forall recovered :: AppendPublished(env, v, state, q, recovered, ch.ledger.head, writes)
        == (if writes == 0 then v else Appended(env, v, e),
            if writes < 2 then Crashed else Done(PublishResult(recovered, EventLine(env.c, e).entrySha)))
    ensures var e := PublishedEventOf(state, q, ch.ledger.head);
      Verify(env.c, Appended(env, Promoted(w, q), e).ledger)
        == Ok(Extend(ch.ledger, e, EventLine(env.c, e).entrySha))
  {
    hide Verify, FreshHistory, ReconcileLedger, Inv, ManifestAgrees, AppendPublished;
    var v := Promoted(w, q);
    PromotedKeepsInv(env, w, ch, state, q);
    ManifestIsEnvelope(env, w, ch, state, q);
    var l, s, a := Checks(env, v);
    ch' := Checked(l, s, a);
    var l0, s0, a0 := Checks(env, w);
    assert Publishing(env, v, ch', state, q);
    PublishedAppendSucceeds(env, v, ch', state, q, true, writes);
    PublishedAppendSucceeds(env, v, ch', state, q, false, writes);
  }

  /** A publication that dies anywhere leaves the stores as they were, or the release promoted, or everything done. From
      the second state the same publication, run again at any later time, records the release without promoting it again
      and ends in the stores and with the digest of a publication at that time that did not die. A recovery that dies
      before its write completes when it is run again. */
  lemma PublishResumes(env: Env, w: World, q: PublishRequest, writes: nat, later: string, gates: Gates)
    requires Laws(env) && Inv(env, w) && gates.arguments && gates.publicRelease
    requires Publish(env, w, q, writes).1.Crashed?
    ensures var dead, whole := Publish(env, w, q, writes).0, Publish(env, w, q, UNINTERRUPTED);
      var q', whole' := Again(q, later, gates), Publish(env, w, Again(q, later, q.gates), UNINTERRUPTED);
      && (dead == w || dead == Promoted(w, q) || dead == whole.0)
      && (dead != w || q.binding.sequence in Check(env, w).value.snapshot.live ==> whole.1.Done? && whole'.1.Done?)
      && (q.binding.sequence in Check(env, w).value.snapshot.live ==>
            dead == whole.0 || (dead == w && Publish(env, dead, q', UNINTERRUPTED) == whole'))
      && (dead == Promoted(w, q) ==>
            Publish(env, dead, q', UNINTERRUPTED) == (whole'.0, Done(whole'.1.value.(recovered := true))))
      && (dead == w || dead.live == whole'.0.live)
  {
    hide Inv, Publish, AppendPublished, Check, Publishing, FreshHistory, BindingAgrees;
    var ch, state, recovered := PublishPaths(env, w, q, writes);
    AgainIsAlike(env, w, ch, state, q, later, q.gates);
    AgainIsAlike(env, w, ch, state, q, later, gates);
    if recovered {
      RecoveredPublishes(env, w, ch, state, q, writes);
      RecoveredPublishes(env, w, ch, state, q, UNINTERRUPTED);
      RecoveredAgain(env, w, ch, state, Again(q, later, q.gates));
      RecoveredAgain(env, w, ch, state, Again(q, later, gates));
      RecoveredAgain(env, w, ch, state, q);
    } else {
      FreshPublishes(env, w, ch, state, q, writes, later, gates);
    }
  }

  lemma RecoveredAgain(env: Env, w: World, ch: Checked, state: Event, q: PublishRequest)
    requires Laws(env) && Inv(env, w) && Publishing(env, w, ch, state, q) && BindingAgrees(ch.snapshot, q.binding)
    requires w.ledger != [] && q.gates.arguments && q.gates.publicRelease && q.binding.sequence in ch.snapshot.live
    requires ch.authority.recovery == PublishedAppendRequired(q.binding.sequence)
    ensures var e := PublishedEventOf(state, q, ch.ledger.head);
      Publish(env, w, q, UNINTERRUPTED)
        == (Appended(env, w, e), Done(PublishResult(true, EventLine(env.c, e).entrySha)))
  {
    hide Inv, Publish, AppendPublished, Check, Publishing, FreshHistory, BindingAgrees;
    PublishGoesRecovered(env, w, ch, state, q, UNINTERRUPTED);
    RecoveredPublishes(env, w, ch, state, q, UNINTERRUPTED);
  }

  lemma FreshPublishes(env: Env, w: World, ch: Checked, state: Event, q: PublishRequest, writes: nat, later: string,
      gates: Gates)
    requires Laws(env) && Inv(env, w) && Publishing(env, w, ch, state, q) && ch.authority.recovery == NoRecovery
    requires w.ledger != [] && q.gates.arguments && gates.arguments && gates.publicRelease
    requires q.binding.sequence !in ch.snapshot.live
    requires Publish(env, w, q, writes).1.Crashed?
    ensures var dead, whole := Publish(env, w, q, writes).0, Publish(env, w, q, UNINTERRUPTED);
      var q', whole' := Again(q, later, gates), Publish(env, w, Again(q, later, q.gates), UNINTERRUPTED);
      && (writes == 0 ==> dead == w)
      && (writes > 0 ==>
            && (dead == Promoted(w, q) || dead == whole.0)
            && whole.1.Done? && whole'.1.Done?
            && Publish(env, Promoted(w, q), q', UNINTERRUPTED) == (whole'.0, Done(whole'.1.value.(recovered := true)))
            && dead.live == whole'.0.live)
  {
    hide Inv, Publish, AppendPublished, Check, Publishing, FreshHistory, BindingAgrees;
    var q0, q' := Again(q, later, q.gates), Again(q, later, gates);
    AgainIsAlike(env, w, ch, state, q, later, q.gates);
    AgainIsAlike(env, w, ch, state, q, later, gates);
    PublishGoesFresh(env, w, ch, state, q, writes);
    if writes > 0 {
      PublishGoesFresh(env, w, ch, state, q, UNINTERRUPTED);
      PublishGoesFresh(env, w, ch, state, q0, UNINTERRUPTED);
      var c := PromotedRecords(env, w, ch, state, q, writes - 1);
      c := PromotedRecords(env, w, ch, state, q, UNINTERRUPTED - 1);
      c := PromotedRecords(env, w, ch, state, q0, UNINTERRUPTED - 1);
      c := PromotedRecords(env, w, ch, state, q', UNINTERRUPTED);
      PublishGoesRecovered(env, Promoted(w, q), c, state, q', UNINTERRUPTED);
    }
  }

  lemma RecoveredPublishes(env: Env, w: World, ch: Checked, state: Event, q: PublishRequest, writes: nat)
    requires Laws(env) && Inv(env, w) && Publishing(env, w, ch, state, q) && BindingAgrees(ch.snapshot, q.binding)
    requires ch.authority.recovery == PublishedAppendRequired(q.binding.sequence)
    ensures var e := PublishedEventOf(state, q, ch.ledger.head);
      AppendPublished(env, w, state, q, true, ch.ledger.head, writes)
      == (if writes == 0 then w else Appended(env, w, e),
          if writes < 2 then Crashed else Done(PublishResult(true, EventLine(env.c, e).entrySha)))
  {
    PublishedAppendSucceeds(env, w, ch, state, q, true, writes);
  }
}
