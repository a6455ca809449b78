/** What every action of the protocol comes to, told without its steps: exactly when it completes, and exactly what it
    has then written and answered. */
module ReleaseOutcomes {
  import opened Prelude
  import opened Text
  import opened Sorting
  import opened Ledger
  import opened LedgerLaws
  import opened Reconcile
  import opened RecoveryLaws
  import opened History
  import opened Custody
  import opened Release
  import opened ReleaseLaws
  import opened ReleaseResume
  import opened ReleaseLimits
  import opened Supersession

  ghost predicate NothingPending(l: VerifiedLedger, s: Snapshot) {
    forall n :: PendingOf(l, s, n) == NoRecovery
  }

  // ---- the check under the lock --------------------------------------------------------------

  /** It succeeds exactly when the file verifies, custody reads back, its records and the live ones load as one history,
      and ledger and history tell one story. */
  lemma CheckMeans(env: Env, w: World)
    ensures Check(env, w).Ok? <==>
      && Verify(env.c, w.ledger).Ok? && LoadCustody(env.cr.er, w.custody).Ok?
      && var history := Load(env.cr.er, LoadCustody(env.cr.er, w.custody).value + w.live);
      history.Ok? && Coherent(Verify(env.c, w.ledger).value, history.value)
    ensures Check(env, w).Ok? ==>
      var l, s, a := Check(env, w).value.ledger, Check(env, w).value.snapshot, Check(env, w).value.authority;
      && Verify(env.c, w.ledger) == Ok(l)
      && Load(env.cr.er, LoadCustody(env.cr.er, w.custody).value + w.live) == Ok(s)
      && ReconcileLedger(l, s) == Ok(a)
      && (a.recovery == NoRecovery <==> NothingPending(l, s))
  {
    if LoadCustody(env.cr.er, w.custody).Ok? {
      var records := LoadCustody(env.cr.er, w.custody).value + w.live;
      if Verify(env.c, w.ledger).Ok? && Load(env.cr.er, records).Ok? {
        ReconcileMeans(Verify(env.c, w.ledger).value, Load(env.cr.er, records).value);
      }
    }
  }

  // ---- bootstrap -----------------------------------------------------------------------------

  ghost predicate StartsFrom(l: VerifiedLedger, floor: Binding, provenance: Option<string>) {
    l.genesis.floor == floor && l.genesis.floorProvenance == provenance
  }

  /** The evidence of a bootstrap: its positive floor is the newest authenticated sequence, with that very binding and
      provenance. */
  ghost predicate ConfirmsFloor(s: Snapshot, floor: Binding, provenance: Option<string>) {
    && floor.sequence > 0 && floor.sequence in s.bindings && s.bindings[floor.sequence] == floor
    && (forall n :: n in s.bindings ==> n <= floor.sequence)
    && (floor.sequence in s.provenance ==> provenance == Some(s.provenance[floor.sequence]))
    && (floor.sequence !in s.provenance ==> provenance == None)
  }

  lemma HighestMeans(env: Env, w: World, n: int)
    requires FreshHistory(env, w).Ok? && n in FreshHistory(env, w).value.bindings
    ensures var s := FreshHistory(env, w).value; s.highest == n <==> forall m :: m in s.bindings ==> m <= n
  {
    hide LoadCustody, Load;
    var s := FreshHistory(env, w).value;
    LoadTells(env.cr.er, LoadCustody(env.cr.er, w.custody).value + w.live);
    var keys := SortedKeys(s.bindings.Keys);
    MaxKeyMeans(keys, 0);
    assert forall m :: m in keys <==> m in s.bindings;
    assert n in keys;
  }

  /** An existing ledger is confirmed, and left alone, exactly when it verifies and starts from the expected floor and
      provenance. An empty one is started exactly when the history confirms a positive floor, with that floor. */
  lemma BootstrapMeans(env: Env, w: World, floor: Binding, provenance: Option<string>, timestamp: string)
    requires Laws(env)
    ensures var (after, out) := Bootstrap(env, w, floor, provenance, timestamp);
      var genesis := Genesis(floor := floor, floorProvenance := provenance, timestamp := timestamp);
      && (w.ledger != [] ==>
            && after == w
            && var verified := Verify(env.c, w.ledger);
            && (out.Done? <==> verified.Ok? && StartsFrom(verified.value, floor, provenance))
            && (out.Done? ==> out.value == verified.value.genesis))
      && (w.ledger == [] ==>
            && (out.Done? <==> FreshHistory(env, w).Ok? && ConfirmsFloor(FreshHistory(env, w).value, floor, provenance))
            && (out.Done? ==> out.value == genesis && after == w.(ledger := [GenesisLine(env.c, genesis)]))
            && (!out.Done? ==> out.Raised? && after == w))
  {
    hide FreshHistory;
    if w.ledger == [] && FreshHistory(env, w).Ok? && floor.sequence in FreshHistory(env, w).value.bindings {
      HighestMeans(env, w, floor.sequence);
    }
  }

  // ---- reserve -------------------------------------------------------------------------------

  /** One more than the largest of the floor, the history and the ledger. */
  ghost predicate IsNext(l: VerifiedLedger, s: Snapshot, n: int) {
    && n > l.genesis.floor.sequence
    && (forall m :: m in s.bindings ==> m < n)
    && (forall x :: x in l.events ==> x.sequence < n)
    && (n - 1 == l.genesis.floor.sequence || n - 1 in s.bindings || exists x :: x in l.events && x.sequence == n - 1)
  }

  /** Reserve goes through exactly when ledger and history are in order with nothing pending; otherwise it changes
      nothing. It records the next unused sequence for the given target, and hands out an allocation that names this
      record, the new head and the two digests of the history it was checked against. Dead before its write it has
      changed nothing, dead after it handed out nothing. */
  lemma ReserveMeans(env: Env, w: World, t: Target, timestamp: string, writes: nat)
    requires Laws(env)
    ensures var (after, out) := Reserve(env, w, t, timestamp, writes);
      && (out.Raised? <==> !(Check(env, w).Ok?
                             && NothingPending(Check(env, w).value.ledger, Check(env, w).value.snapshot)))
      && (out.Raised? ==> after == w)
      && (!out.Raised? ==>
            var l, s, n := Check(env, w).value.ledger, Check(env, w).value.snapshot,
              Check(env, w).value.authority.nextUnused;
            var e := Event(sequence := n, releaseId := "stable-" + Format04(n), status := Reserved,
              version := VersionOf(t.name), channel := "stable", sourceCommit := t.sourceCommit,
              componentSet := t.componentSet, payloadSha := None, envelopeSha := None, keyId := None,
              timestamp := timestamp, previous := l.head);
            var head := env.c.sha(env.c.dumpEvent(e));
            var allocation := Allocation(sequence := n, releaseId := "stable-" + Format04(n), entrySha := head,
              componentSet := t.componentSet, bindingsSha := s.bindingsSha, snapshotSha := s.snapshotSha);
            && IsNext(l, s, n)
            && Verify(env.c, after.ledger)
               == Ok(if writes == 0 then l else VerifiedLedger(l.genesis, l.events + [e], head))
            && after == World(
              ledger := if writes == 0 then w.ledger else w.ledger + [Entry(env.c.dumpEvent(e), head)],
              custody := w.custody, live := w.live,
              issued := if writes < 2 then w.issued else w.issued + [allocation])
            && out == if writes < 2 then Crashed else Done(allocation))
  {
    hide Verify, FreshHistory, ReconcileLedger, AppendError, AppendReadBack, Laws;
    if Check(env, w).Ok? {
      var l, s, a := Checks(env, w);
      ReconcileMeans(l, s);
      if a.recovery == NoRecovery {
        ReservedFits(l, s, a, t, timestamp);
        NextUnusedExceedsAll(l, s, a.recovery);
        AppendLaw(env, w, l, ReservedEvent(a.nextUnused, t, timestamp, l.head), writes);
      }
    }
  }

  // ---- publish -------------------------------------------------------------------------------

  /** The release was signed exactly as the binding says, the staged manifest is what was signed, nothing newer was
      consumed or authenticated, and no repair is pending but its own. */
  ghost predicate Publishable(env: Env, l: VerifiedLedger, s: Snapshot, q: PublishRequest) {
    var b := q.binding;
    && Latest(l.events, b.sequence).Some?
    && var state := Latest(l.events, b.sequence).value;
    && state.status == Signed && state.releaseId == b.releaseId && state.componentSet == b.componentSet
    && state.payloadSha == Some(b.payloadSha) && state.envelopeSha == Some(b.envelopeSha)
    && state.keyId == Some(b.keyId)
    && env.cr.er.sha(q.manifest) == b.envelopeSha
    && Newest(l, s, b.sequence)
    && (b.sequence in s.live || NothingPending(l, s))
  }

  lemma BoundsMean(l: VerifiedLedger, s: Snapshot, r: Recovery, n: int)
    requires n > l.genesis.floor.sequence
    ensures Newest(l, s, n)
      <==> AuthorityOf(l, s, r).highestAuthenticated <= n && AuthorityOf(l, s, r).highestConsumed <= n
  {
    NextUnusedExceedsAll(l, s, r);
    if Newest(l, s, n) { NewestBounds(l, s, r, n); }
  }

  lemma SignedIsBound(env: Env, w: World, l: VerifiedLedger, s: Snapshot, n: int, state: Event)
    requires Check(env, w).Ok? && Check(env, w).value.ledger == l && Check(env, w).value.snapshot == s
    requires Latest(l.events, n) == Some(state) && state.status.Signed?
    ensures state.sequence == n > l.genesis.floor.sequence && n in s.bindings && Agrees(s.bindings[n], state)
    ensures n in s.live ==> PendingOf(l, s, n) == PublishedAppendRequired(n)
  {
    hide Verify, FreshHistory, ReconcileLedger;
    var l', s', a := Checks(env, w);
    LatestEndsLifeline(l, n);
    LatestMember(l.events, n);
    assert Recorded(state.status) && n in s.bindings;
    assert Accounted(l, s, n);
  }

  lemma PublishableMeans(env: Env, w: World, ch: Checked, q: PublishRequest)
    requires Laws(env) && Inv(env, w) && Check(env, w) == Ok(ch)
    ensures var state := Latest(ch.ledger.events, q.binding.sequence);
      Publishable(env, ch.ledger, ch.snapshot, q)
      <==> && state.Some? && Publishing(env, w, ch, state.value, q)
           && (q.binding.sequence in ch.snapshot.live || ch.authority.recovery == NoRecovery)
  {
    hide Inv, Verify, FreshHistory, ReconcileLedger, AuthorityOf;
    var l, s, a := InvChecks(env, w);
    var n, state := q.binding.sequence, Latest(l.events, q.binding.sequence);
    ReconcileMeans(l, s);
    if state.Some? && state.value.status.Signed? {
      SignedIsBound(env, w, l, s, n, state.value);
      BoundsMean(l, s, a.recovery, n);
      if env.cr.er.sha(q.manifest) == s.bindings[n].envelopeSha { FileIsEnvelope(env, w, ch, n, q.manifest); }
    }
  }

  /** What is not in order is refused before anything is touched. */
  lemma UnpublishableIsRefused(env: Env, w: World, ch: Checked, q: PublishRequest, writes: nat)
    requires Laws(env) && Inv(env, w) && Check(env, w) == Ok(ch)
    requires !(q.gates.arguments && Publishable(env, ch.ledger, ch.snapshot, q))
      || (q.binding.sequence in ch.snapshot.live && !q.gates.publicRelease)
    ensures Publish(env, w, q, writes).0 == w && Publish(env, w, q, writes).1.Raised?
  {
    hide Inv, Check, PublishFresh, AppendPublished, ManifestAgrees, StateAgrees, BindingAgrees, Publishable;
    PublishableMeans(env, w, ch, q);
  }

  /** The answers of the outside world decide how far the normal path goes. */
  lemma FreshGates(env: Env, w: World, state: Event, q: PublishRequest, head: Digest, writes: nat)
    requires FreshHistory(env, Promoted(w, q)).Ok?
    requires q.binding.sequence in FreshHistory(env, Promoted(w, q)).value.live
    requires BindingAgrees(FreshHistory(env, Promoted(w, q)).value, q.binding)
    ensures PublishFresh(env, w, state, q, head, writes)
      == if !q.gates.staging then (w, Raised(StagingFailure))
         else if writes == 0 then (w, Crashed)
         else if !q.gates.promoted then (Promoted(w, q), Raised(PromotionUnconfirmed))
         else AppendPublished(env, Promoted(w, q), state, q, false, head, writes - 1)
  {
    hide FreshHistory, BindingAgrees, AppendPublished;
  }

  /** How a publishable release is recorded: from `v`, the stores in which it is live. */
  ghost predicate Records(env: Env, v: World, l: VerifiedLedger, e: Event, recovered: bool, writes: nat,
      r: (World, Outcome<PublishResult, ReleaseError>))
  {
    var head := env.c.sha(env.c.dumpEvent(e));
    && r.0 == (if writes == 0 then v else v.(ledger := v.ledger + [Entry(env.c.dumpEvent(e), head)]))
    && (writes > 0 ==> Verify(env.c, r.0.ledger) == Ok(VerifiedLedger(l.genesis, l.events + [e], head)))
    && r.1 == if writes < 2 then Crashed else Done(PublishResult(recovered := recovered, entrySha := head))
  }

  lemma LivePublishes(env: Env, w: World, ch: Checked, state: Event, q: PublishRequest, writes: nat)
    requires Laws(env) && Inv(env, w) && Publishing(env, w, ch, state, q) && w.ledger != []
    requires q.gates.arguments && q.gates.publicRelease && q.binding.sequence in ch.snapshot.live
    ensures Records(env, w, ch.ledger, PublishedEventOf(state, q, ch.ledger.head), true, writes,
      Publish(env, w, q, writes))
  {
    hide Inv, Check, Publish, AppendPublished, ManifestAgrees, StateAgrees, BindingAgrees, Verify, ReconcileLedger;
    var l, s, a := InvChecks(env, w);
    SignedIsBound(env, w, l, s, q.binding.sequence, state);
    ReconcileMeans(l, s);
    ManifestIsEnvelope(env, w, ch, state, q);
    PublishGoesRecovered(env, w, ch, state, q, writes);
    PublishedAppendSucceeds(env, w, ch, state, q, true, writes);
  }

  lemma PromotedPublishes(env: Env, w: World, ch: Checked, state: Event, q: PublishRequest, writes: nat)
    requires Laws(env) && Inv(env, w) && Publishing(env, w, ch, state, q) && w.ledger != []
    requires q.gates.arguments && q.binding.sequence !in ch.snapshot.live && ch.authority.recovery == NoRecovery
    ensures var r := Publish(env, w, q, writes);
      if !q.gates.staging then r == (w, Raised(StagingFailure))
      else if writes == 0 then r == (w, Crashed)
      else if !q.gates.promoted then r == (Promoted(w, q), Raised(PromotionUnconfirmed))
      else Records(env, Promoted(w, q), ch.ledger, PublishedEventOf(state, q, ch.ledger.head), false, writes - 1, r)
  {
    hide Inv, Publish, PublishFresh, AppendPublished, Publishing, FreshHistory, BindingAgrees, Verify, ReconcileLedger;
    PublishGoesFresh(env, w, ch, state, q, writes);
    var promoted := PromotedRecords(env, w, ch, state, q, if writes == 0 then 0 else writes - 1);
    var l, s, a := Checks(env, Promoted(w, q));
    FreshGates(env, w, state, q, ch.ledger.head, writes);
  }

  /** A publication goes through exactly when the release is publishable, the arguments hold and the outside world
      agrees: for a release that is live already the public release has to match, for any other one the draft has to
      be staged and its promotion confirmed. Nothing goes live without the arguments and the staging; nothing is
      recorded without these answers. What is recorded is the SIGNED event of the sequence again, now PUBLISHED. */
  lemma PublishMeans(env: Env, w: World, q: PublishRequest, writes: nat)
    requires Laws(env) && Inv(env, w)
    ensures var (after, out) := Publish(env, w, q, writes);
      var l, s := Check(env, w).value.ledger, Check(env, w).value.snapshot;
      var live, promoted := q.binding.sequence in s.live, if q.binding.sequence in s.live then 0 else 1;
      var ready := q.gates.arguments && Publishable(env, l, s, q);
      && (out.Raised? <==>
            !(ready && if live then q.gates.publicRelease else q.gates.staging && (q.gates.promoted || writes == 0)))
      && after.custody == w.custody && after.issued == w.issued
      && after.live == w.live + (if !live && ready && q.gates.staging && writes > 0
           then [Record(sourceId := q.tag, kind := LiveUpdates, envelope := q.manifest, provenance := None)] else [])
      && (out.Raised? || writes <= promoted ==> after.ledger == w.ledger)
      && (!out.Raised? ==>
            var e := Latest(l.events, q.binding.sequence).value.(status := Published, timestamp := q.timestamp,
              previous := l.head);
            var head := env.c.sha(env.c.dumpEvent(e));
            && (writes > promoted ==>
                  && after.ledger == w.ledger + [Entry(env.c.dumpEvent(e), head)]
                  && Verify(env.c, after.ledger) == Ok(VerifiedLedger(l.genesis, l.events + [e], head)))
            && out == if writes < promoted + 2 then Crashed
                 else Done(PublishResult(recovered := live, entrySha := head)))
  {
    hide Inv, Check, Publish, PublishFresh, AppendPublished, ManifestAgrees, StateAgrees, BindingAgrees, Publishable,
      Publishing, FreshHistory;
    var l, s, a := InvChecks(env, w);
    var ch, n := Checked(l, s, a), q.binding.sequence;
    PublishableMeans(env, w, ch, q);
    if !(q.gates.arguments && Publishable(env, l, s, q)) || (n in s.live && !q.gates.publicRelease) {
      UnpublishableIsRefused(env, w, ch, q, writes);
    } else {
      var state := Latest(l.events, n).value;
      PublishedIsSigned(env, w, ch, state, q);
      if n in s.live {
        LivePublishes(env, w, ch, state, q, writes);
      } else {
        PromotedPublishes(env, w, ch, state, q, writes);
      }
    }
  }

  // ---- sign ----------------------------------------------------------------------------------

  /** The request brings the payload of the unsigned baseline, made for this very allocation. */
  ghost predicate WellAsked(er: EnvelopeReader, q: SignRequest) {
    && q.unsigned.sequence == q.allocation.sequence && q.unsigned.releaseId == q.allocation.releaseId
    && q.unsigned.componentSet == q.allocation.componentSet
    && q.unsigned.payload.Some? && er.sha(q.unsigned.payload.value) == q.unsigned.payloadSha
  }

  /** The event that the life of a sequence begins with. */
  ghost function ReservationOf(l: VerifiedLedger, n: int): Option<Event> {
    var h := OfSequence(l.events, n);
    if h == [] then None else Some(h[0])
  }

  /** The sequence was reserved, nothing newer was, nothing as new is authenticated, and nothing is pending. */
  ghost predicate Signable(l: VerifiedLedger, s: Snapshot, n: int) {
    && ReservationOf(l, n).Some? && NothingPending(l, s)
    && (forall x :: x in l.events ==> x.sequence <= n) && (forall m :: m in s.bindings ==> m < n)
  }

  /** The envelope is in canonical form and says what the reservation and the request say, the reserved commit is a
      whole one, and custody has no entry under the name of this sequence and no other file under the name of this
      envelope. */
  ghost predicate Deliverable(env: Env, w: World, reserved: Event, q: SignRequest, envelope: Bytes) {
    var file := env.cr.er.sha(envelope) + ".json";
    && env.cr.er.verify(envelope) == Some(VerifiedEnvelope(sequence := q.allocation.sequence,
         releaseId := reserved.releaseId, payloadSha := q.unsigned.payloadSha, keyId := q.productionKey))
    && env.cr.er.canonical(envelope)
    && q.allocation.releaseId == reserved.releaseId && q.unsigned.componentSet == reserved.componentSet
    && |reserved.sourceCommit| == 40
    && (forall x :: x in EntriesOf(w.custody.index) ==> x.sourceId != "custody-" + Format04(q.allocation.sequence))
    && (file in w.custody.envelopes ==> w.custody.envelopes[file] == envelope)
  }

  /** The pending binding is the one the request asks for, of the reserved component set. */
  ghost predicate Repairable(l: VerifiedLedger, s: Snapshot, q: SignRequest) {
    var n := q.allocation.sequence;
    && n in s.bindings && ReservationOf(l, n).Some?
    && s.bindings[n].releaseId == q.allocation.releaseId && s.bindings[n].payloadSha == q.unsigned.payloadSha
    && s.bindings[n].keyId == q.productionKey && ReservationOf(l, n).value.componentSet == q.unsigned.componentSet
  }

  lemma ReservationIsFound(l: VerifiedLedger, n: int)
    requires AllLifelines(l.genesis.floor.sequence, l.events)
    ensures FindReserved(l.events, n) == ReservationOf(l, n)
  {
    FindReservedMeans(l.events, n);
    OfSequenceMembers(l.events, n);
    var h := OfSequence(l.events, n);
    if h != [] {
      assert Lifeline(h) && h[0] in h;
      ReservationHeads(l, n, FindReserved(l.events, n).value);
    }
  }

  /** Custody takes the envelope of the normal path exactly when it has nothing else under its names. */
  lemma CustodyTakesIff(env: Env, w: World, ch: Checked, reserved: Event, q: SignRequest, envelope: Bytes)
    requires Laws(env) && Inv(env, w) && Signing(env, w, ch, reserved, q, envelope)
    ensures var file := env.cr.er.sha(envelope) + ".json";
      AppendCustody(env.cr, w.custody, CustodyRecordOf(reserved, q, envelope), CurrentIndexSha(env, w.custody),
        UNINTERRUPTED).1.Done?
      <==> && env.cr.er.canonical(envelope)
           && (forall x :: x in EntriesOf(w.custody.index) ==>
                 x.sourceId != "custody-" + Format04(q.allocation.sequence))
           && (file in w.custody.envelopes ==> w.custody.envelopes[file] == envelope)
  {
    hide Verify, ReconcileLedger, Load, Format04, EntriesOf;
    var r := CustodyRecordOf(reserved, q, envelope);
    FindEntryMeans(EntriesOf(w.custody.index), r.sourceId);
    if AppendCustody(env.cr, w.custody, r, CurrentIndexSha(env, w.custody), UNINTERRUPTED).1.Done? {
      NewToCustody(env, w, ch, reserved, q, envelope, UNINTERRUPTED);
    }
  }

  /** The guards of the action before it looks at the signer. */
  lemma NormalPath(env: Env, w: World, ch: Checked, reserved: Event, q: SignRequest, signer: Signer, writes: nat)
    requires Check(env, w) == Ok(ch) && WellAsked(env.cr.er, q) && ch.authority.recovery == NoRecovery
    requires FindReserved(ch.ledger.events, q.allocation.sequence) == Some(reserved)
    requires ch.authority.highestAuthenticated < q.allocation.sequence
    requires ch.authority.highestConsumed <= q.allocation.sequence
    requires ch.authority.nextUnused <= q.allocation.sequence + 1
    ensures Sign(env, w, q, signer, writes) ==
      match signer
      case NoSigner => (w, Done(SigningRequired(q.unsigned.payloadSha)))
      case SignerFails => (w, Raised(SignerFailure))
      case Signs(envelope) => SignFresh(env, w, reserved, q, envelope, writes)
  {
    hide Check, SignFresh, FindReserved;
    LedgerNotEmpty(env, w);
  }

  /** Without them it is refused, and nothing is touched. */
  lemma UnsignableIsRefused(env: Env, w: World, q: SignRequest, signer: Signer, writes: nat)
    requires Inv(env, w) && !WaitsForSigned(env, w, q.allocation.sequence)
    requires !WellAsked(env.cr.er, q)
      || !Signable(Check(env, w).value.ledger, Check(env, w).value.snapshot, q.allocation.sequence)
    ensures Sign(env, w, q, signer, writes).0 == w && Sign(env, w, q, signer, writes).1.Raised?
  {
    hide Inv, Check, SignFresh, SignRecovered, FindReserved, ReservationOf, ReconcileLedger;
    if WellAsked(env.cr.er, q) {
      var l, s, a := InvChecks(env, w);
      ReservationIsFound(l, q.allocation.sequence);
      ReconcileMeans(l, s);
      NextUnusedExceedsAll(l, s, a.recovery);
    }
  }

  lemma SignableBounds(env: Env, w: World, ch: Checked, q: SignRequest) returns (reserved: Event)
    requires Inv(env, w) && Check(env, w) == Ok(ch) && Signable(ch.ledger, ch.snapshot, q.allocation.sequence)
    ensures ReservationOf(ch.ledger, q.allocation.sequence) == Some(reserved)
    ensures FindReserved(ch.ledger.events, q.allocation.sequence) == Some(reserved)
    ensures reserved in ch.ledger.events && reserved.sequence == q.allocation.sequence && reserved.status.Reserved?
    ensures ch.authority.recovery == NoRecovery && ch.authority.highestAuthenticated < q.allocation.sequence
    ensures ch.authority.highestConsumed <= q.allocation.sequence
    ensures ch.authority.nextUnused <= q.allocation.sequence + 1
  {
    hide Inv, Check, ReservationOf, ReconcileLedger;
    var l, s, a := InvChecks(env, w);
    var n := q.allocation.sequence;
    ReservationIsFound(l, n);
    FindReservedMeans(l.events, n);
    reserved := FindReserved(l.events, n).value;
    ReconcileMeans(l, s);
    NextUnusedExceedsAll(l, s, a.recovery);
    MaxKeyMeans(SortedKeys(s.bindings.Keys), l.genesis.floor.sequence);
    MaxKeyMeans(ConsumedBy(l.events), l.genesis.floor.sequence);
    assert l.genesis.floor.sequence in s.bindings;
    assert forall k :: k in ConsumedBy(l.events) ==> k <= n;
  }

  /** The envelope has been added to custody, under its digest and as one more record of history. */
  ghost predicate FilesEnvelope(env: Env, w: World, v: World, reserved: Event, q: SignRequest, envelope: Bytes) {
    var er := env.cr.er;
    && v == w.(custody := v.custody)
    && v.custody.envelopes == w.custody.envelopes[er.sha(envelope) + ".json" := envelope]
    && LoadCustody(er, w.custody).Ok?
    && LoadCustody(er, v.custody) == Ok(Sort(LoadCustody(er, w.custody).value
         + [Record(sourceId := "custody-" + Format04(q.allocation.sequence), kind := SourceKind.Custody,
              envelope := envelope, provenance := Some(reserved.sourceCommit))], RecordById))
  }

  /** The reservation has been recorded again from `v`, now SIGNED with the requested payload and key and the given
      envelope, and the same has been given in evidence. */
  ghost predicate RecordsSigned(env: Env, v: World, l: VerifiedLedger, reserved: Event, q: SignRequest, sha: Digest,
      r: (World, Outcome<SignResult, ReleaseError>))
  {
    var e := reserved.(status := Signed, payloadSha := Some(q.unsigned.payloadSha), envelopeSha := Some(sha),
      keyId := Some(q.productionKey), timestamp := q.timestamp, previous := l.head);
    var head := env.c.sha(env.c.dumpEvent(e));
    && r.0 == v.(ledger := v.ledger + [Entry(env.c.dumpEvent(e), head)])
    && Verify(env.c, r.0.ledger) == Ok(VerifiedLedger(l.genesis, l.events + [e], head))
    && r.1 == Done(SignedEvidence(sequence := reserved.sequence, releaseId := reserved.releaseId,
         componentSet := reserved.componentSet, payloadSha := q.unsigned.payloadSha, envelopeSha := sha,
         keyId := q.productionKey))
  }

  lemma SignedIsReserved(reserved: Event, q: SignRequest, sha: Digest, head: Digest)
    requires NamesReservation(reserved, q) && reserved.sequence == q.allocation.sequence
    ensures SignedEventOf(reserved, q, sha, head) == reserved.(status := Signed,
      payloadSha := Some(q.unsigned.payloadSha), envelopeSha := Some(sha), keyId := Some(q.productionKey),
      timestamp := q.timestamp, previous := head)
    ensures EvidenceOf(q, sha) == SignedEvidence(sequence := reserved.sequence, releaseId := reserved.releaseId,
      componentSet := reserved.componentSet, payloadSha := q.unsigned.payloadSha, envelopeSha := sha,
      keyId := q.productionKey)
  {}

  lemma FiledEnvelope(env: Env, w: World, ch: Checked, reserved: Event, q: SignRequest, envelope: Bytes)
    requires Laws(env) && Inv(env, w) && FreshSigning(env, w, ch, reserved, q, envelope)
    requires Files(env, w, CustodyRecordOf(reserved, q, envelope), 2)
    ensures FilesEnvelope(env, w, Filed(env, w, CustodyRecordOf(reserved, q, envelope), 2), reserved, q, envelope)
  {
    hide Inv, Check, EnvelopeMatches, LoadCustody, FreshHistory, OneMore;
    FiledHistory(env, w, ch, reserved, q, envelope, 2);
    AppendWrites(env.cr, w.custody, CustodyRecordOf(reserved, q, envelope), CurrentIndexSha(env, w.custody), 2);
    InvReadsCustody(env, w);
  }

  lemma FreshNeverDies(env: Env, w: World, reserved: Event, q: SignRequest, envelope: Bytes)
    ensures var out := SignFresh(env, w, reserved, q, envelope, UNINTERRUPTED).1;
      && !out.Crashed?
      && (out.Done? ==>
            && EnvelopeMatches(env.cr.er, envelope, q)
            && AppendCustody(env.cr, w.custody, CustodyRecordOf(reserved, q, envelope), CurrentIndexSha(env, w.custody),
              UNINTERRUPTED).1.Done?)
  {
    hide Check, EnvelopeMatches, Append, Verify, CustodyRecordOf;
    var r := CustodyRecordOf(reserved, q, envelope);
    AppendBudget(env.cr, w.custody, r, CurrentIndexSha(env, w.custody), UNINTERRUPTED);
    hide AppendCustody;
  }

  /** The normal path, for a signable sequence: it completes exactly when its envelope is deliverable. */
  lemma FreshSigns(env: Env, w: World, ch: Checked, reserved: Event, q: SignRequest, envelope: Bytes)
    requires Laws(env) && Inv(env, w) && Check(env, w) == Ok(ch)
    requires reserved in ch.ledger.events && reserved.sequence == q.allocation.sequence && reserved.status.Reserved?
    requires ch.authority.recovery == NoRecovery && ch.authority.highestAuthenticated < q.allocation.sequence
    requires ch.authority.highestConsumed <= q.allocation.sequence
    ensures var r := SignFresh(env, w, reserved, q, envelope, UNINTERRUPTED);
      && (r.1.Done? <==> Deliverable(env, w, reserved, q, envelope))
      && (r.1.Done? ==>
            && r.1.value.SignedEvidence?
            && FilesEnvelope(env, w, r.0.(ledger := w.ledger), reserved, q, envelope)
            && RecordsSigned(env, r.0.(ledger := w.ledger), ch.ledger, reserved, q, env.cr.er.sha(envelope), r))
      && (!r.1.Done? ==> r.1.Raised?)
  {
    hide Inv, Check, AppendCustody, Verify, LoadCustody, AppendSigned, CurrentIndexSha, CustodyRecordOf, SignFresh,
      FilesEnvelope;
    var r := CustodyRecordOf(reserved, q, envelope);
    if EnvelopeMatches(env.cr.er, envelope, q) {
      CustodyTakesIff(env, w, ch, reserved, q, envelope);
      if AppendCustody(env.cr, w.custody, r, CurrentIndexSha(env, w.custody), UNINTERRUPTED).1.Done? {
        SigningCompletesIff(env, w, ch, reserved, q, envelope);
        if NamesReservation(reserved, q) && |reserved.sourceCommit| == 40 {
          NewToCustody(env, w, ch, reserved, q, envelope, UNINTERRUPTED);
          AppendBudget(env.cr, w.custody, r, CurrentIndexSha(env, w.custody), UNINTERRUPTED);
          CostIsSmall(env, w, r);
          FiledEnvelope(env, w, ch, reserved, q, envelope);
          FreshOutcome(env, w, ch, reserved, q, envelope, UNINTERRUPTED);
          SignedIsReserved(reserved, q, env.cr.er.sha(envelope), ch.ledger.head);
        }
      }
    }
    FreshNeverDies(env, w, reserved, q, envelope);
  }

  /** The recovery path, for a sequence that waits for its SIGNED event: it completes exactly for what the
      reservation and the authenticated binding say. */
  lemma RepairSigns(env: Env, w: World, q: SignRequest, signer: Signer)
    requires Laws(env) && Inv(env, w) && WaitsForSigned(env, w, q.allocation.sequence) && WellAsked(env.cr.er, q)
    ensures var r := Sign(env, w, q, signer, UNINTERRUPTED);
      var l, s, n := Check(env, w).value.ledger, Check(env, w).value.snapshot, q.allocation.sequence;
      && (r.1.Done? <==> Repairable(l, s, q))
      && (r.1.Done? ==>
            && r.1.value.SignedEvidence?
            && RecordsSigned(env, w, l, ReservationOf(l, n).value, q, s.bindings[n].envelopeSha, r))
      && (!r.1.Done? ==> r.1.Raised? && r.0 == w)
  {
    hide *;
    var n := q.allocation.sequence;
    var ch, reserved := WaitingReservation(env, w, n);
    var bytes := PendingIsFiled(env, w, ch, n);
    var binding := ch.snapshot.bindings[n];
    var l, s, a := InvChecks(env, w);
    ReservationIsFound(l, n);
    LedgerNotEmpty(env, w);
    AskedIsSame(env.cr.er, q);
    SignPathIsFixed(env, w, q, signer, ch, reserved, UNINTERRUPTED);
    MatchingFile(env.cr.er, bytes, q, binding);
    RecoveredOutcome(env, w, ch, reserved, q, bytes);
    ReservedReleaseIsBound(l, s, reserved);
    RepairableMeans(l, s, reserved, q);
    if BindingFits(binding, q) {
      if q.unsigned.componentSet == reserved.componentSet {
        SignedAppendSucceeds(env, w, ch, reserved, q, binding.envelopeSha, UNINTERRUPTED);
        AppendedIsRecorded(env, w, l, reserved, q, binding.envelopeSha);
      } else {
        OtherComponentSetRefused(l, reserved, q, binding.envelopeSha);
        RefusedAppend(env, w, l, reserved, q, binding.envelopeSha, UNINTERRUPTED, 0);
      }
    }
  }

  lemma AskedIsSame(er: EnvelopeReader, q: SignRequest)
    ensures SameAllocationAndPayload(er, q) <==> WellAsked(er, q)
    ensures UNINTERRUPTED == 4
  {}

  lemma RepairableMeans(l: VerifiedLedger, s: Snapshot, reserved: Event, q: SignRequest)
    requires ReservationOf(l, q.allocation.sequence) == Some(reserved) && q.allocation.sequence in s.bindings
    requires s.bindings[q.allocation.sequence].releaseId == reserved.releaseId
    ensures Repairable(l, s, q)
      <==> BindingFits(s.bindings[q.allocation.sequence], q) && q.unsigned.componentSet == reserved.componentSet
    ensures Repairable(l, s, q) ==> NamesReservation(reserved, q)
  {
    hide ReservationOf;
  }

  lemma AppendedIsRecorded(env: Env, w: World, l: VerifiedLedger, reserved: Event, q: SignRequest, sha: Digest)
    requires NamesReservation(reserved, q) && reserved.sequence == q.allocation.sequence
    requires var e := SignedEventOf(reserved, q, sha, l.head);
      Verify(env.c, Appended(env, w, e).ledger) == Ok(Extend(l, e, EventLine(env.c, e).entrySha))
    ensures RecordsSigned(env, w, l, reserved, q, sha,
      (Appended(env, w, SignedEventOf(reserved, q, sha, l.head)), Done(EvidenceOf(q, sha))))
  {
    hide Verify;
    SignedIsReserved(reserved, q, sha, l.head);
  }

  lemma MatchingFile(er: EnvelopeReader, bytes: Bytes, q: SignRequest, b: Binding)
    requires var v := er.verify(bytes);
      v.Some? && v.value.sequence == q.allocation.sequence
        && b == Binding(q.allocation.sequence, v.value.releaseId, v.value.payloadSha, b.envelopeSha, v.value.keyId)
    ensures EnvelopeMatches(er, bytes, q) && b.keyId == q.productionKey <==> BindingFits(b, q)
  {}

  lemma RecoveredOutcome(env: Env, w: World, ch: Checked, reserved: Event, q: SignRequest, bytes: Bytes)
    requires q.allocation.sequence in ch.snapshot.bindings
    requires var b := ch.snapshot.bindings[q.allocation.sequence];
      && FileName(b.envelopeSha) in w.custody.envelopes && w.custody.envelopes[FileName(b.envelopeSha)] == bytes
      && env.cr.er.sha(bytes) == b.envelopeSha
    ensures var b := ch.snapshot.bindings[q.allocation.sequence];
      SignRecovered(env, w, ch, reserved, q, UNINTERRUPTED)
      == if EnvelopeMatches(env.cr.er, bytes, q) && b.keyId == q.productionKey
         then AppendSigned(env, w, reserved, q, b.envelopeSha, ch.ledger.head, UNINTERRUPTED)
         else (w, Raised(EnvelopeRejected))
  {
    hide AppendSigned, EnvelopeMatches;
  }

  /** A pending binding has the release id of its reservation. */
  lemma ReservedReleaseIsBound(l: VerifiedLedger, s: Snapshot, reserved: Event)
    requires AllLifelines(l.genesis.floor.sequence, l.events)
    requires ReconcileLedger(l, s).Ok?
    requires ReconcileLedger(l, s).value.recovery == SignedAppendRequired(reserved.sequence)
    requires reserved in l.events && reserved.status.Reserved?
    ensures reserved.sequence in s.bindings && s.bindings[reserved.sequence].releaseId == reserved.releaseId
    ensures Latest(l.events, reserved.sequence) == Some(reserved)
  {
    var n, b, state := PendingFacts(l, s);
    LatestEndsLifeline(l, n);
    ReservedIsAlone(OfSequence(l.events, n));
    ReservationHeads(l, n, reserved);
  }

  /** A signing gives evidence exactly in two cases. Either the sequence waits for its SIGNED event and the request
      is for what the reservation and the authenticated binding say: then any signer will do, and only the ledger is
      written. Or the sequence is signable and the signer gives a deliverable envelope: then that envelope has been
      filed in custody before it was recorded. A signable sequence without a signer is told what has to be signed.
      Everything else is refused. */
  lemma SignMeans(env: Env, w: World, q: SignRequest, signer: Signer)
    requires Laws(env) && Inv(env, w)
    ensures var r := Sign(env, w, q, signer, UNINTERRUPTED);
      var l, s, n := Check(env, w).value.ledger, Check(env, w).value.snapshot, q.allocation.sequence;
      var waits, signable := WaitsForSigned(env, w, n), WellAsked(env.cr.er, q) && Signable(l, s, n);
      && (r.1.Done? && r.1.value.SignedEvidence? <==>
            if waits then WellAsked(env.cr.er, q) && Repairable(l, s, q)
            else signable && signer.Signs? && Deliverable(env, w, ReservationOf(l, n).value, q, signer.envelope))
      && (r.1.Done? && r.1.value.SigningRequired? <==> !waits && signable && signer.NoSigner?)
      && (r.1.Done? && r.1.value.SigningRequired? ==> r == (w, Done(SigningRequired(q.unsigned.payloadSha))))
      && (r.1.Done? && r.1.value.SignedEvidence? ==>
            var reserved, v := ReservationOf(l, n).value, if waits then w else r.0.(ledger := w.ledger);
            && (!waits ==> FilesEnvelope(env, w, v, reserved, q, signer.envelope))
            && RecordsSigned(env, v, l, reserved, q,
                 if waits then s.bindings[n].envelopeSha else env.cr.er.sha(signer.envelope), r))
      && (!r.1.Done? ==> r.1.Raised?)
  {
    hide *;
    var l, s, a := InvChecks(env, w);
    var ch := Checked(l, s, a);
    if WaitsForSigned(env, w, q.allocation.sequence) {
      if WellAsked(env.cr.er, q) {
        RepairSigns(env, w, q, signer);
      } else {
        IllAskedIsRefused(env, w, q, signer);
      }
    } else if WellAsked(env.cr.er, q) && Signable(l, s, q.allocation.sequence) {
      var reserved := SignableBounds(env, w, ch, q);
      NormalPath(env, w, ch, reserved, q, signer, UNINTERRUPTED);
      if signer.Signs? { FreshSigns(env, w, ch, reserved, q, signer.envelope); }
    } else {
      UnsignableIsRefused(env, w, q, signer, UNINTERRUPTED);
    }
  }

  lemma IllAskedIsRefused(env: Env, w: World, q: SignRequest, signer: Signer)
    requires !WellAsked(env.cr.er, q)
    ensures Sign(env, w, q, signer, UNINTERRUPTED) == (w, Raised(AllocationMismatch))
  {}

  /** Evidence is never given but for an envelope that custody holds under that digest, and that says what was asked
      for; whatever the stores were before. */
  lemma EvidenceIsFiled(env: Env, w: World, q: SignRequest, signer: Signer, writes: nat)
    requires Laws(env)
    requires Sign(env, w, q, signer, writes).1.Done? && Sign(env, w, q, signer, writes).1.value.SignedEvidence?
    ensures var (after, out) := Sign(env, w, q, signer, writes);
      var file := out.value.envelopeSha + ".json";
      && file in after.custody.envelopes && env.cr.er.sha(after.custody.envelopes[file]) == out.value.envelopeSha
      && var v := env.cr.er.verify(after.custody.envelopes[file]);
      v == Some(VerifiedEnvelope(sequence := q.allocation.sequence, releaseId := q.allocation.releaseId,
        payloadSha := q.unsigned.payloadSha, keyId := q.productionKey))
  {
    hide Check, SignRecovered, SignFresh, FindReserved, SameAllocationAndPayload, Laws;
    var ch := Check(env, w).value;
    var reserved := FindReserved(ch.ledger.events, q.allocation.sequence).value;
    if ch.authority.recovery == SignedAppendRequired(q.allocation.sequence) {
      RecoveredEvidence(env, w, ch, reserved, q, writes);
    } else {
      FreshEvidenceIsFiled(env, w, reserved, q, signer.envelope, writes);
    }
  }

  lemma RecoveredEvidence(env: Env, w: World, ch: Checked, reserved: Event, q: SignRequest, writes: nat)
    requires SignRecovered(env, w, ch, reserved, q, writes).1.Done?
    ensures var (after, out) := SignRecovered(env, w, ch, reserved, q, writes);
      && out.value.SignedEvidence? && after.custody == w.custody
      && var file := out.value.envelopeSha + ".json";
      && file in w.custody.envelopes && env.cr.er.sha(w.custody.envelopes[file]) == out.value.envelopeSha
      && EnvelopeMatches(env.cr.er, w.custody.envelopes[file], q)
  {
    hide EnvelopeMatches, Append, Verify;
  }

  lemma FreshEvidenceIsFiled(env: Env, w: World, reserved: Event, q: SignRequest, envelope: Bytes, writes: nat)
    requires Laws(env) && SignFresh(env, w, reserved, q, envelope, writes).1.Done?
    ensures var (after, out) := SignFresh(env, w, reserved, q, envelope, writes);
      && out.value.SignedEvidence? && out.value.envelopeSha == env.cr.er.sha(envelope)
      && EnvelopeMatches(env.cr.er, envelope, q)
      && var file := out.value.envelopeSha + ".json";
      file in after.custody.envelopes && after.custody.envelopes[file] == envelope
  {
    hide EnvelopeMatches, Append, Verify, AppendCustody, CustodyRecordOf, LoadCustody, Load, ReconcileLedger,
      CustodyCost;
    var r := CustodyRecordOf(reserved, q, envelope);
    var filed := Filed(env, w, r, writes);
    assert LoadCustody(env.cr.er, filed.custody).Ok?;
    CustodyHasEnvelope(env, w, reserved, q, envelope, writes);
  }

  lemma CustodyHasEnvelope(env: Env, w: World, reserved: Event, q: SignRequest, envelope: Bytes, writes: nat)
    requires Laws(env)
    requires var r := CustodyRecordOf(reserved, q, envelope);
      && AppendCustody(env.cr, w.custody, r, CurrentIndexSha(env, w.custody), writes).1.Done?
      && LoadCustody(env.cr.er, Filed(env, w, r, writes).custody).Ok?
    ensures var file := env.cr.er.sha(envelope) + ".json";
      var filed := Filed(env, w, CustodyRecordOf(reserved, q, envelope), writes);
      file in filed.custody.envelopes && filed.custody.envelopes[file] == envelope
  {
    hide LoadCustody, Format04;
    var r := CustodyRecordOf(reserved, q, envelope);
    if FindEntry(EntriesOf(w.custody.index), r.sourceId).Some? {
      KnownEntryHasEnvelope(env.cr, w.custody, r, CurrentIndexSha(env, w.custody), writes);
      var e := FindEntry(EntriesOf(w.custody.index), r.sourceId).value;
      var loaded := EntryIsLoaded(env.cr, w.custody, e);
      CustodyIsFiled(env.cr.er, w.custody, loaded);
    }
  }

  // ---- supersede -----------------------------------------------------------------------------

  /** The history knows nothing else of the sequence: it is not live, and its binding, if there is one, is the one of
      the request. */
  ghost predicate Unpublished(s: Snapshot, q: SupersedeRequest) {
    && q.sequence !in s.live
    && (q.sequence in s.bindings ==>
          && s.bindings[q.sequence].releaseId == q.releaseId
          && s.bindings[q.sequence].payloadSha == q.payloadSha
          && s.bindings[q.sequence].envelopeSha == q.envelopeSha)
  }

  /** A supersession is prepared exactly when the request describes the SIGNED event that the sequence ended with and
      the present head, the history knows nothing else of it, and ledger and history still tell one story once that
      event is recorded again as FAILED. */
  lemma PreparedIff(env: Env, l: VerifiedLedger, s: Snapshot, q: SupersedeRequest, timestamp: string)
    ensures var r, state := PrepareSupersession(env, l, s, q, timestamp), Latest(l.events, q.sequence);
      && (r.Ok? ==> state.Some? && state.value.status == Signed)
      && (state.Some? && state.value.status == Signed ==>
            var e := state.value.(status := Status.Failed, timestamp := timestamp, previous := l.head);
            var head := env.c.sha(env.c.dumpEvent(e));
            var after := VerifiedLedger(genesis := l.genesis, events := l.events + [e], head := head);
            && (r.Ok? <==> DescribesSigned(q, state.value, l.head) && Unpublished(s, q) && Coherent(after, s))
            && (r.Ok? ==>
                  && ReconcileLedger(after, s).Ok?
                  && var a := ReconcileLedger(after, s).value;
                  r.value == Supersession(event := e, proposedSha := head, head := l.head, nextUnused := a.nextUnused,
                    authority := a)))
  {
    hide ReconcileLedger, Coherent;
    var state := Latest(l.events, q.sequence);
    LatestMember(l.events, q.sequence);
    NeverStuck(env, l, s, q, timestamp);
    if state.Some? {
      var e := FailedEventOf(state.value, timestamp, l.head);
      ReconcileMeans(VerifiedLedger(l.genesis, l.events + [e], EventLine(env.c, e).entrySha), s);
    }
  }

  /** A supersession goes through exactly when the file verifies and the request can be prepared against it. A dry one
      changes nothing; a real one records exactly the prepared event, unless it dies before. */
  lemma SupersedeMeans(env: Env, w: World, s: Snapshot, q: SupersedeRequest, timestamp: string, mutate: bool,
      writes: nat)
    requires Laws(env)
    ensures var (after, out) := Supersede(env, w, s, q, timestamp, mutate, writes);
      && (out.Raised? <==> !(Verify(env.c, w.ledger).Ok?
                             && PrepareSupersession(env, Verify(env.c, w.ledger).value, s, q, timestamp).Ok?))
      && (out.Raised? ==> after == w)
      && (!out.Raised? ==>
            var l := Verify(env.c, w.ledger).value;
            var p := PrepareSupersession(env, l, s, q, timestamp).value;
            var head := env.c.sha(env.c.dumpEvent(p.event));
            && after == (if mutate && writes > 0 then w.(ledger := w.ledger + [Entry(env.c.dumpEvent(p.event), head)])
                         else w)
            && Verify(env.c, after.ledger)
               == Ok(if mutate && writes > 0 then VerifiedLedger(l.genesis, l.events + [p.event], head) else l)
            && out == if mutate && writes < 2 then Crashed else Done(p))
  {
    hide Verify, PrepareSupersession, AppendError;
    if Verify(env.c, w.ledger).Ok? {
      var l := Verify(env.c, w.ledger).value;
      if PrepareSupersession(env, l, s, q, timestamp).Ok? {
        var state := PreparedShape(env, l, s, q, timestamp);
        VerifyMeans(env.c, w.ledger);
        LatestMember(l.events, q.sequence);
        FailedAccepted(l, state, timestamp);
        AppendLaw(env, w, l, FailedEventOf(state, timestamp, l.head), writes);
      }
    }
  }
}
