/** Whole runs of the release protocol, and the resumption of an interrupted action. */
module ReleaseRuns {
  import opened Prelude
  import opened Text
  import opened Ledger
  import opened Reconcile
  import opened History
  import opened Custody
  import opened Release
  import opened ReleaseLaws

  // ---- the start -------------------------------------------------------------------------

  lemma BootstrapShape(env: Env, w: World, floor: Binding, provenance: Option<string>, timestamp: string)
    requires Laws(env) && w.ledger == [] && Bootstrap(env, w, floor, provenance, timestamp).1.Done?
    ensures var g, after := Genesis(floor, provenance, timestamp), Bootstrap(env, w, floor, provenance, timestamp).0;
      && floor.sequence > 0 && after == w.(ledger := [GenesisLine(env.c, g)])
      && Verify(env.c, after.ledger) == Ok(VerifiedLedger(g, [], GenesisLine(env.c, g).entrySha))
      && FreshHistory(env, w).Ok? && FreshHistory(env, after) == FreshHistory(env, w)
      && var s := FreshHistory(env, w).value;
      && floor.sequence in s.bindings && s.bindings[floor.sequence] == floor && s.highest == floor.sequence
      && provenance == if floor.sequence in s.provenance then Some(s.provenance[floor.sequence]) else None
  {
    hide LoadCustody, Load;
    assert FreshHistory(env, Bootstrap(env, w, floor, provenance, timestamp).0) == FreshHistory(env, w);
  }

  lemma FreshLedgerCoherent(l: VerifiedLedger, s: Snapshot)
    requires l.events == [] && FloorUnchanged(l, s) && (forall n :: n in s.bindings ==> n <= l.genesis.floor.sequence)
    ensures Coherent(l, s)
  {}

  /** A ledger that bootstrap has just written satisfies the invariant of the protocol. */
  lemma BootstrapStarts(env: Env, w: World, floor: Binding, provenance: Option<string>, timestamp: string)
    requires Laws(env) && w.ledger == [] && w.issued == []
    requires Bootstrap(env, w, floor, provenance, timestamp).1.Done?
    ensures Inv(env, Bootstrap(env, w, floor, provenance, timestamp).0)
  {
    hide Bootstrap, Verify, ReconcileLedger, Load;
    BootstrapShape(env, w, floor, provenance, timestamp);
    var after := Bootstrap(env, w, floor, provenance, timestamp).0;
    var l, s := Verify(env.c, after.ledger).value, FreshHistory(env, after).value;
    LoadTells(env.cr.er, LoadCustody(env.cr.er, w.custody).value + w.live);
    MaxKeyMeans(SortedKeys(s.bindings.Keys), 0);
    forall n | n in s.bindings ensures n <= floor.sequence { assert n in SortedKeys(s.bindings.Keys); }
    FreshLedgerCoherent(l, s);
    ReconcileMeans(l, s);
    assert Check(env, after).Ok?;
  }

  // ---- runs ------------------------------------------------------------------------------

  datatype Action =
    | ReserveAction(target: Target, timestamp: string)
    | SignAction(sign: SignRequest, signer: Signer)
    | PublishAction(publish: PublishRequest)
    | SupersedeAction(supersede: SupersedeRequest, snapshot: Snapshot, timestamp: string, mutate: bool)

  /** One action that dies after at most `writes` writes. */
  function Act(env: Env, w: World, action: Action, writes: nat): World {
    match action
    case ReserveAction(t, timestamp) => Reserve(env, w, t, timestamp, writes).0
    case SignAction(q, signer) => Sign(env, w, q, signer, writes).0
    case PublishAction(q) => Publish(env, w, q, writes).0
    case SupersedeAction(q, s, timestamp, mutate) => Supersede(env, w, s, q, timestamp, mutate, writes).0
  }

  /** What the operators see to before they act: a signing names the release of its reservation, whose commit has 40
      characters, and the snapshot given to a supersession does not miss that its sequence is live. */
  ghost predicate Admissible(env: Env, w: World, action: Action) {
    match action
    case SignAction(q, _) => SignsItsReservation(env, w, q)
    case SupersedeAction(q, s, _, _) => SeesLive(env, w, s, q.sequence)
    case _ => true
  }

  ghost predicate Start(env: Env, v: World) {
    exists w: World, floor, provenance, timestamp ::
      && w.ledger == [] && w.issued == []
      && Bootstrap(env, w, floor, provenance, timestamp).1.Done?
      && v == Bootstrap(env, w, floor, provenance, timestamp).0
  }

  ghost predicate Step(env: Env, v: World, w: World) {
    exists action, writes :: Admissible(env, v, action) && w == Act(env, v, action, writes)
  }

  ghost predicate Run(env: Env, ws: seq<World>) {
    && ws != [] && Start(env, ws[0])
    && forall i :: 0 < i < |ws| ==> Step(env, ws[i - 1], ws[i])
  }

  lemma ActKeepsInv(env: Env, w: World, action: Action, writes: nat)
    requires Laws(env) && Inv(env, w) && Admissible(env, w, action)
    ensures Inv(env, Act(env, w, action, writes))
  {
    hide Inv, Reserve, Sign, Publish, Supersede, FreshHistory, SignsItsReservation, SeesLive;
    match action
    case ReserveAction(t, timestamp) => ReserveKeepsInv(env, w, t, timestamp, writes);
    case SignAction(q, signer) => SignKeepsInv(env, w, q, signer, writes);
    case PublishAction(q) => PublishKeepsInv(env, w, q, writes);
    case SupersedeAction(q, s, timestamp, mutate) => SupersedeKeepsInv(env, w, s, q, timestamp, mutate, writes);
  }

  lemma {:induction false} RunKeepsInv(env: Env, ws: seq<World>, i: nat)
    requires Laws(env) && Run(env, ws) && i < |ws|
    ensures Inv(env, ws[i])
  {
    hide Inv, Bootstrap, Act;
    if i == 0 {
      var w: World, floor, provenance, timestamp :| w.ledger == [] && w.issued == []
        && Bootstrap(env, w, floor, provenance, timestamp).1.Done?
        && ws[0] == Bootstrap(env, w, floor, provenance, timestamp).0;
      BootstrapStarts(env, w, floor, provenance, timestamp);
    } else {
      RunKeepsInv(env, ws, i - 1);
      assert Step(env, ws[i - 1], ws[i]);
      var action, writes :| Admissible(env, ws[i - 1], action) && ws[i] == Act(env, ws[i - 1], action, writes);
      ActKeepsInv(env, ws[i - 1], action, writes);
    }
  }

  /** Ledger, custody and history are in order: everything reads back and reconciles, at most one
      sequence waits for a repair, custody holds at most one envelope for each sequence, and the
      ledger reserves and publishes in strictly increasing order without reusing a release id. */
  ghost predicate InOrder(env: Env, w: World) {
    && Check(env, w).Ok?
    && LoadCustody(env.cr.er, w.custody).Ok?
    && OneEnvelopeEach(env.cr.er, LoadCustody(env.cr.er, w.custody).value)
    && var l, s := Check(env, w).value.ledger, Check(env, w).value.snapshot;
    && AtMostOnePending(l, s)
    && StrictlyIncreasing(l.events, Reserved)
    && StrictlyIncreasing(l.events, Published)
    && (forall x, y :: x in l.events && y in l.events && x.releaseId == y.releaseId ==> x.sequence == y.sequence)
  }

  ghost predicate OneEnvelopeEach(er: EnvelopeReader, rs: seq<Record>) {
    forall q, r :: q in rs && r in rs && WellFormed(er, q) && WellFormed(er, r)
      && SequenceOf(er, q) == SequenceOf(er, r)
      ==> q.envelope == r.envelope
  }

  lemma InvIsInOrder(env: Env, w: World)
    requires Laws(env) && Inv(env, w)
    ensures InOrder(env, w)
  {
    hide Verify, ReconcileLedger, Load;
    var l, s, a := InvChecks(env, w);
    var custody := LoadCustody(env.cr.er, w.custody).value;
    LoadTells(env.cr.er, custody + w.live);
    forall q, r | q in custody && r in custody && WellFormed(env.cr.er, q) && WellFormed(env.cr.er, r)
      && SequenceOf(env.cr.er, q) == SequenceOf(env.cr.er, r) ensures q.envelope == r.envelope
    {
      assert q in custody + w.live && r in custody + w.live;
      assert BindingOf(env.cr.er, q) == BindingOf(env.cr.er, r);
    }
    forall x, y | x in l.events && y in l.events && x.releaseId == y.releaseId ensures x.sequence == y.sequence {
      assert x.releaseId[7..] == Format04(x.sequence) && y.releaseId[7..] == Format04(y.sequence);
      Format04Injective(x.sequence, y.sequence);
    }
  }

  /** In every run from bootstrap, whatever the actions, their outcomes and the points where they
      die, the stores stay in order. */
  lemma RunsStayInOrder(env: Env, ws: seq<World>, i: nat)
    requires Laws(env) && Run(env, ws) && i < |ws|
    ensures InOrder(env, ws[i])
  {
    hide *;
    RunKeepsInv(env, ws, i);
    InvIsInOrder(env, ws[i]);
  }

  // ---- what one action appends -----------------------------------------------------------

  /** Everything that reserve hands out is new: above the floor, the ledger and the history. */
  lemma ReserveHandsOutNew(env: Env, w: World, t: Target, timestamp: string, writes: nat)
    requires Laws(env) && Inv(env, w)
    requires Reserve(env, w, t, timestamp, writes).0.ledger != w.ledger
    ensures var l, s := Check(env, w).value.ledger, Check(env, w).value.snapshot;
      var verified := Verify(env.c, Reserve(env, w, t, timestamp, writes).0.ledger);
      && verified.Ok? && |verified.value.events| == |l.events| + 1 && l.events <= verified.value.events
      && var e := verified.value.events[|l.events|];
      && e.sequence > l.genesis.floor.sequence
      && (forall n :: n in s.bindings ==> n < e.sequence)
      && (forall x :: x in l.events ==> x.sequence < e.sequence && x.releaseId != e.releaseId)
      && (Reserve(env, w, t, timestamp, writes).1.Done? ==>
            var a := Reserve(env, w, t, timestamp, writes).1.value;
            a.sequence == e.sequence && a.releaseId == e.releaseId)
  {
    hide Verify, LoadCustody, Load, ReconcileLedger, AppendError, VersionOf;
    var l, s, a := InvChecks(env, w);
    var e := ReservedEvent(a.nextUnused, t, timestamp, l.head);
    ReservedFits(l, s, a, t, timestamp);
    AppendLaw(env, w, l, e, writes);
    ReconcileMeans(l, s);
    NextUnusedExceedsAll(l, s, a.recovery);
    forall x | x in l.events ensures x.releaseId != e.releaseId {
      assert x.releaseId[7..] == Format04(x.sequence) && e.releaseId[7..] == Format04(e.sequence);
      if x.releaseId == e.releaseId { Format04Injective(x.sequence, e.sequence); }
    }
  }

  /** A PUBLISHED event is appended only for a sequence that is then live with the exact signed
      binding, when nothing larger had been reserved or authenticated at the locked check. */
  lemma PublishAppendsLive(env: Env, w: World, q: PublishRequest, writes: nat)
    requires Laws(env) && Inv(env, w)
    requires Publish(env, w, q, writes).0.ledger != w.ledger
    ensures var l, s := Check(env, w).value.ledger, Check(env, w).value.snapshot; var n := q.binding.sequence;
      var after := Publish(env, w, q, writes).0;
      && Check(env, w).Ok? && Latest(l.events, n).Some? && Latest(l.events, n).value.status.Signed?
      && StateAgrees(Latest(l.events, n).value, q.binding)
      && Verify(env.c, after.ledger).Ok? && Verify(env.c, after.ledger).value.events == l.events
        + [Latest(l.events, n).value.(status := Published, timestamp := q.timestamp, previous := l.head)]
      && FreshHistory(env, after).Ok? && n in FreshHistory(env, after).value.live
      && BindingAgrees(FreshHistory(env, after).value, q.binding)
      && (forall x :: x in l.events ==> x.sequence <= n)
      && (forall m :: m in s.bindings ==> m <= n)
  {
    hide Verify, LoadCustody, Load, ReconcileLedger, AppendError, Publish, Inv, ManifestAgrees;
    var ch, state, recovered := PublishPaths(env, w, q, writes);
    var l, s, a := InvChecks(env, w);
    ReconcileMeans(l, s);
    NextUnusedExceedsAll(l, s, a.recovery);
    PublishedIsSigned(env, w, ch, state, q);
    hide PublishedEventOf, AuthorityOf, Publishing;
    if recovered {
      AppendLaw(env, w, l, PublishedEventOf(state, q, l.head), writes);
    } else {
      PromotedAppends(env, w, ch, state, q, writes);
    }
  }

  lemma PromotedAppends(env: Env, w: World, ch: Checked, state: Event, q: PublishRequest, writes: nat)
    requires Laws(env) && Inv(env, w) && Publishing(env, w, ch, state, q) && ch.authority.recovery == NoRecovery
    requires PublishFresh(env, w, state, q, ch.ledger.head, writes).0.ledger != w.ledger
    ensures writes > 0
    ensures PublishFresh(env, w, state, q, ch.ledger.head, writes)
            == AppendPublished(env, Promoted(w, q), state, q, false, ch.ledger.head, writes - 1)
    ensures PublishFresh(env, w, state, q, ch.ledger.head, writes).0
            == Appended(env, Promoted(w, q), PublishedEventOf(state, q, ch.ledger.head))
    ensures FreshHistory(env, Promoted(w, q)).Ok? && BindingAgrees(FreshHistory(env, Promoted(w, q)).value, q.binding)
    ensures q.binding.sequence in FreshHistory(env, Promoted(w, q)).value.live
    ensures Verify(env.c, PublishFresh(env, w, state, q, ch.ledger.head, writes).0.ledger).Ok?
    ensures Verify(env.c, PublishFresh(env, w, state, q, ch.ledger.head, writes).0.ledger).value.events
      == ch.ledger.events + [PublishedEventOf(state, q, ch.ledger.head)]
  {
    hide Verify, LoadCustody, Load, ReconcileLedger, AppendError, Inv, ManifestAgrees, StateAgrees;
    PromotedKeepsInv(env, w, ch, state, q);
    var l, s, a := InvChecks(env, Promoted(w, q));
    AppendLaw(env, Promoted(w, q), l, PublishedEventOf(state, q, l.head), writes - 1);
  }
}
