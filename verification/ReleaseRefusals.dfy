/** What the actions of the protocol say when they refuse: every reason given is so. */
module ReleaseRefusals {
  import opened Prelude
  import opened Ledger
  import opened LedgerLaws
  import opened Reconcile
  import opened RecoveryLaws
  import opened History
  import opened Custody
  import opened Release
  import opened ReleaseLaws
  import opened ReleaseResume
  import opened ReleaseLimits
  import opened ReleaseOutcomes
  import opened Supersession

  /** The errors of the guards, which no later step raises. */
  predicate OfGuards(e: ReleaseError) {
    e in {AllocationMismatch, NotInitialised, NoReservation, RecoveryPending, AlreadyAuthenticated, Overtaken,
          SignerFailure, ArgumentsRejected, NoAllocation, NotSigned, StagingFailure, PublicReleaseMismatch,
          PromotionUnconfirmed}
  }

  lemma ChecksRaiseOthers(env: Env, w: World)
    ensures Check(env, w).Err? ==> !OfGuards(Check(env, w).error) && Check(env, w).error != EnvelopeRejected
  {}

  lemma AppendsRaiseOthers(env: Env, w: World, e: Event, expected: Digest, writes: nat)
    ensures var out := AppendReadBack(env, w, e, expected, writes).1;
      out.Raised? ==> !OfGuards(out.error) && out.error != EnvelopeRejected
  {
    hide Verify, AppendError;
  }

  lemma FreshSigningRaises(env: Env, w: World, reserved: Event, q: SignRequest, envelope: Bytes, writes: nat)
    ensures var out := SignFresh(env, w, reserved, q, envelope, writes).1;
      && (out.Raised? ==> !OfGuards(out.error))
      && (out == Raised(EnvelopeRejected) <==> !EnvelopeMatches(env.cr.er, envelope, q))
  {
    hide Check, EnvelopeMatches, AppendCustody, CustodyRecordOf, CustodyCost, AppendReadBack, OfGuards;
    var filed := w.(custody := AppendCustody(env.cr, w.custody, CustodyRecordOf(reserved, q, envelope),
      CurrentIndexSha(env, w.custody), writes).0);
    ChecksRaiseOthers(env, filed);
    forall e, head, left: nat ensures var out := AppendReadBack(env, filed, e, head, left).1;
      out.Raised? ==> !OfGuards(out.error) && out.error != EnvelopeRejected
    {
      AppendsRaiseOthers(env, filed, e, head, left);
    }
    GuardErrors();
  }

  lemma GuardErrors()
    ensures !OfGuards(EnvelopeRejected) && !OfGuards(CustodyEnvelopeMissing) && !OfGuards(UnexpectedRecovery)
    ensures !OfGuards(BindingMismatch) && !OfGuards(NotLive)
    ensures forall e :: !OfGuards(CustodyFailure(e))
  {}

  lemma RecoverySigningRaises(env: Env, w: World, ch: Checked, reserved: Event, q: SignRequest, writes: nat)
    ensures var out := SignRecovered(env, w, ch, reserved, q, writes).1; out.Raised? ==> !OfGuards(out.error)
  {
    hide EnvelopeMatches, AppendReadBack, OfGuards;
    var e := SignedEventOf(reserved, q,
      if q.allocation.sequence in ch.snapshot.bindings then ch.snapshot.bindings[q.allocation.sequence].envelopeSha
      else "", ch.ledger.head);
    AppendsRaiseOthers(env, w, e, ch.ledger.head, writes);
    GuardErrors();
  }

  lemma SignErrors(env: Env, w: World, ch: Checked, q: SignRequest, signer: Signer, writes: nat)
    requires Check(env, w) == Ok(ch)
    ensures var out := Sign(env, w, q, signer, writes).1;
      var a, n := ch.authority, q.allocation.sequence;
      && (out == Raised(AllocationMismatch) <==> !WellAsked(env.cr.er, q))
      && out != Raised(NotInitialised)
      && (out == Raised(NoReservation) ==> FindReserved(ch.ledger.events, n) == None)
      && (out == Raised(RecoveryPending) ==> a.recovery != NoRecovery && a.recovery != SignedAppendRequired(n))
      && (out == Raised(AlreadyAuthenticated) ==> a.highestAuthenticated >= n)
      && (out == Raised(Overtaken) ==>
            a.highestAuthenticated < n && (a.highestConsumed > n || a.nextUnused > n + 1))
      && (out == Raised(SignerFailure) ==> signer.SignerFails?)
      && (out == Raised(EnvelopeRejected) && a.recovery != SignedAppendRequired(n) ==>
            signer.Signs? && !EnvelopeMatches(env.cr.er, signer.envelope, q))
  {
    hide Check, SignFresh, SignRecovered, EnvelopeMatches, FindReserved, OfGuards;
    LedgerNotEmpty(env, w);
    GuardErrorsAre();
    var reserved := FindReserved(ch.ledger.events, q.allocation.sequence);
    if reserved.Some? {
      RecoverySigningRaises(env, w, ch, reserved.value, q, writes);
      if signer.Signs? { FreshSigningRaises(env, w, reserved.value, q, signer.envelope, writes); }
    }
  }

  /** A refused signing says why, and what it says is so. */
  lemma SignRefusals(env: Env, w: World, q: SignRequest, signer: Signer, writes: nat)
    requires Inv(env, w)
    ensures var out := Sign(env, w, q, signer, writes).1;
      var l, s, n := Check(env, w).value.ledger, Check(env, w).value.snapshot, q.allocation.sequence;
      && (out == Raised(AllocationMismatch) <==> !WellAsked(env.cr.er, q))
      && out != Raised(NotInitialised)
      && (out == Raised(NoReservation) ==> ReservationOf(l, n) == None)
      && (out == Raised(RecoveryPending) ==> !NothingPending(l, s) && !WaitsForSigned(env, w, n))
      && (out == Raised(AlreadyAuthenticated) ==> exists m :: m in s.bindings && m >= n)
      && (out == Raised(Overtaken) ==> exists x :: x in l.events && x.sequence > n)
      && (out == Raised(SignerFailure) ==> signer.SignerFails?)
      && (out == Raised(EnvelopeRejected) && !WaitsForSigned(env, w, n) ==>
            signer.Signs? && !EnvelopeMatches(env.cr.er, signer.envelope, q))
  {
    hide Inv, Check, Sign, WellAsked, EnvelopeMatches, ReconcileLedger, FindReserved, ReservationOf, AuthorityOf;
    var l, s, a := InvChecks(env, w);
    ReservationIsFound(l, q.allocation.sequence);
    ReconcileMeans(l, s);
    NewestMeans(l, s, a.recovery, q.allocation.sequence);
    SignErrors(env, w, Checked(l, s, a), q, signer, writes);
  }

  lemma GuardErrorsAre()
    ensures OfGuards(AllocationMismatch) && OfGuards(NotInitialised) && OfGuards(NoReservation)
    ensures OfGuards(RecoveryPending) && OfGuards(AlreadyAuthenticated) && OfGuards(Overtaken)
    ensures OfGuards(SignerFailure) && OfGuards(ArgumentsRejected) && OfGuards(NoAllocation)
    ensures OfGuards(NotSigned) && OfGuards(StagingFailure) && OfGuards(PublicReleaseMismatch)
    ensures OfGuards(PromotionUnconfirmed)
    ensures !OfGuards(EnvelopeRejected)
  {}

  /** The numbers of an authority as statements about ledger and history. */
  lemma NewestMeans(l: VerifiedLedger, s: Snapshot, r: Recovery, n: int)
    requires FloorUnchanged(l, s)
    ensures var a := AuthorityOf(l, s, r);
      && (a.highestAuthenticated >= n <==> exists m :: m in s.bindings && m >= n)
      && (a.highestAuthenticated < n ==>
            (a.highestConsumed > n || a.nextUnused > n + 1 <==> exists x :: x in l.events && x.sequence > n))
  {
    var floor := l.genesis.floor.sequence;
    NextUnusedExceedsAll(l, s, r);
    var keys := SortedKeys(s.bindings.Keys);
    MaxKeyMeans(keys, floor);
    MaxKeyMeans(ConsumedBy(l.events), floor);
    assert floor in keys;
    if l.events != [] {
      var k := MaxKey(ConsumedBy(l.events), floor);
      assert ConsumedBy(l.events)[0] == l.events[0].sequence;
      var i :| 0 <= i < |l.events| && ConsumedBy(l.events)[i] == k;
      assert l.events[i] in l.events && l.events[i].sequence == k;
    }
  }

  lemma PublishingRaises(env: Env, w: World, state: Event, q: PublishRequest, recovered: bool, head: Digest,
      writes: nat)
    ensures var out := AppendPublished(env, w, state, q, recovered, head, writes).1;
      out.Raised? ==> !OfGuards(out.error)
  {
    hide AppendReadBack, OfGuards;
    AppendsRaiseOthers(env, w, PublishedEventOf(state, q, head), head, writes);
  }

  lemma FreshPublishingRaises(env: Env, w: World, state: Event, q: PublishRequest, head: Digest, writes: nat)
    ensures var out := PublishFresh(env, w, state, q, head, writes).1;
      && (out.Raised? && OfGuards(out.error) ==> out.error in {StagingFailure, PromotionUnconfirmed})
      && (out == Raised(StagingFailure) <==> !q.gates.staging)
      && (out == Raised(PromotionUnconfirmed) <==> q.gates.staging && !q.gates.promoted && writes > 0)
  {
    hide LoadCustody, Load, AppendPublished, BindingAgrees, OfGuards;
    GuardErrors();
    GuardErrorsAre();
    if writes > 0 { PublishingRaises(env, Promoted(w, q), state, q, false, head, writes - 1); }
    HistoryRaises(env, Promoted(w, q));
  }

  lemma HistoryRaises(env: Env, w: World)
    ensures FreshHistory(env, w).Err? ==> !OfGuards(FreshHistory(env, w).error)
  {}

  /** A refused publication says why, and what it says is so. */
  lemma PublishRefusals(env: Env, w: World, q: PublishRequest, writes: nat)
    requires Inv(env, w)
    ensures var out := Publish(env, w, q, writes).1;
      var l, s, n := Check(env, w).value.ledger, Check(env, w).value.snapshot, q.binding.sequence;
      && (out == Raised(ArgumentsRejected) <==> !q.gates.arguments || !ManifestAgrees(env.cr.er, q))
      && out != Raised(NotInitialised)
      && (out == Raised(NoAllocation) ==> forall x :: x in l.events ==> x.sequence != n)
      && (out == Raised(NotSigned) ==> Latest(l.events, n).Some? && Latest(l.events, n).value.status != Signed)
      && (out == Raised(Overtaken) ==> !Newest(l, s, n))
      && (out == Raised(RecoveryPending) ==> !NothingPending(l, s) && PendingOf(l, s, n) == NoRecovery)
      && (out == Raised(PublicReleaseMismatch) ==> n in s.live && !q.gates.publicRelease)
      && (out == Raised(StagingFailure) ==> n !in s.live && !q.gates.staging)
      && (out == Raised(PromotionUnconfirmed) ==> n !in s.live && q.gates.staging && !q.gates.promoted)
  {
    hide Inv, Check, Publish, ManifestAgrees, ReconcileLedger, AuthorityOf;
    var l, s, a := InvChecks(env, w);
    var n := q.binding.sequence;
    LatestMember(l.events, n);
    ReconcileMeans(l, s);
    if Latest(l.events, n).Some? {
      BoundsOf(l, s, a.recovery, n);
      if Latest(l.events, n).value.status.Signed? {
        SignedIsBound(env, w, l, s, n, Latest(l.events, n).value);
      }
    }
    PublishErrors(env, w, Checked(l, s, a), q, writes);
  }

  lemma BoundsOf(l: VerifiedLedger, s: Snapshot, r: Recovery, n: int)
    requires AllLifelines(l.genesis.floor.sequence, l.events) && Latest(l.events, n).Some?
    ensures Newest(l, s, n)
      <==> AuthorityOf(l, s, r).highestAuthenticated <= n && AuthorityOf(l, s, r).highestConsumed <= n
  {
    LatestEndsLifeline(l, n);
    BoundsMean(l, s, r, n);
  }

  lemma PublishErrors(env: Env, w: World, ch: Checked, q: PublishRequest, writes: nat)
    requires Check(env, w) == Ok(ch)
    ensures var out := Publish(env, w, q, writes).1;
      var l, s, a, n := ch.ledger, ch.snapshot, ch.authority, q.binding.sequence;
      && (out == Raised(ArgumentsRejected) <==> !q.gates.arguments || !ManifestAgrees(env.cr.er, q))
      && out != Raised(NotInitialised)
      && (out == Raised(NoAllocation) ==> Latest(l.events, n).None?)
      && (out == Raised(NotSigned) ==> Latest(l.events, n).Some? && Latest(l.events, n).value.status != Signed)
      && (out == Raised(Overtaken) ==>
            Latest(l.events, n).Some? && (a.highestAuthenticated > n || a.highestConsumed > n))
      && (out == Raised(RecoveryPending) ==>
            && Latest(l.events, n).Some? && Latest(l.events, n).value.status.Signed?
            && if n in s.live then a.recovery != PublishedAppendRequired(n) else a.recovery != NoRecovery)
      && (out == Raised(PublicReleaseMismatch) ==> n in s.live && !q.gates.publicRelease)
      && (out == Raised(StagingFailure) ==> n !in s.live && !q.gates.staging)
      && (out == Raised(PromotionUnconfirmed) ==> n !in s.live && q.gates.staging && !q.gates.promoted)
  {
    hide Check, PublishFresh, AppendPublished, ManifestAgrees, StateAgrees, BindingAgrees, OfGuards;
    LedgerNotEmpty(env, w);
    GuardErrors();
    GuardErrorsAre();
    var state := Latest(ch.ledger.events, q.binding.sequence);
    if state.Some? {
      PublishingRaises(env, w, state.value, q, true, ch.ledger.head, writes);
      FreshPublishingRaises(env, w, state.value, q, ch.ledger.head, writes);
    }
  }

  /** A refused preparation of a supersession says why, and what it says is so. */
  lemma SupersedeRefusals(env: Env, l: VerifiedLedger, s: Snapshot, q: SupersedeRequest, timestamp: string)
    ensures var r, state := PrepareSupersession(env, l, s, q, timestamp), Latest(l.events, q.sequence);
      && (r == Err(StaleHead) ==> q.head != l.head)
      && (r == Err(NoAllocation) ==> forall x :: x in l.events ==> x.sequence != q.sequence)
      && (r == Err(NotSigned) ==> state.Some? && (state.value.status.Reserved? || state.value.status.Unknown?))
      && (r == Err(Terminal) ==> state.Some? && state.value.status in {Published, Status.Failed, Retired})
      && (r == Err(AlreadyLive) ==> q.sequence in s.live)
      && (r == Err(BindingMismatch) ==>
            state.Some? && !(DescribesSigned(q, state.value, l.head) && Unpublished(s, q)))
      && r != Err(NextUnusedStuck)
  {
    hide ReconcileLedger;
    LatestMember(l.events, q.sequence);
    NeverStuck(env, l, s, q, timestamp);
  }

  /** The check under the lock fails with the error of its first part that fails. */
  lemma CheckRefusals(env: Env, w: World)
    requires Check(env, w).Err?
    ensures var verified, custody := Verify(env.c, w.ledger), LoadCustody(env.cr.er, w.custody);
      match Check(env, w).error
      case LedgerFailure(error) => verified == Err(error)
      case CustodyFailure(error) => verified.Ok? && custody == Err(error)
      case LoadFailure(error) =>
        verified.Ok? && custody.Ok? && Load(env.cr.er, custody.value + w.live) == Err(error)
      case ReconcileFailure(error) =>
        && verified.Ok? && custody.Ok? && Load(env.cr.er, custody.value + w.live).Ok?
        && ReconcileLedger(verified.value, Load(env.cr.er, custody.value + w.live).value) == Err(error)
      case _ => false
  {
    hide Verify, LoadCustody, Load, ReconcileLedger;
  }
}
