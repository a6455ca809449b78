/** A custody in which every file and every name is where the protocol puts it: every action keeps it so, and it takes
    every envelope that a signing has for it. */
module TidyCustody {
  import opened Prelude
  import opened Text
  import opened Sorting
  import opened Ledger
  import opened Reconcile
  import opened History
  import opened Custody
  import opened Release
  import opened ReleaseLaws
  import opened ReleaseRuns
  import opened ReleaseLimits
  import opened ReleaseOutcomes

  ghost predicate FiledByDigest(er: EnvelopeReader, envelopes: map<string, Bytes>) {
    forall name :: name in envelopes ==> name == FileName(er.sha(envelopes[name]))
  }

  ghost predicate NamesOnly(entries: seq<IndexEntry>, bindings: map<int, Binding>) {
    forall x, n :: x in entries && x.sourceId == "custody-" + Format04(n) ==> n in bindings
  }

  /** Every envelope file lies under its own digest, and no entry of the index bears the name of a sequence that is not
      authenticated. */
  ghost predicate Tidy(env: Env, w: World) {
    && FreshHistory(env, w).Ok?
    && FiledByDigest(env.cr.er, w.custody.envelopes)
    && NamesOnly(EntriesOf(w.custody.index), FreshHistory(env, w).value.bindings)
  }

  lemma HistoryMentionsMore(er: EnvelopeReader, rs: seq<Record>, more: seq<Record>, n: int)
    requires Load(er, rs).Ok? && Load(er, rs + more).Ok? && n in Load(er, rs).value.bindings
    ensures n in Load(er, rs + more).value.bindings
  {
    LoadTells(er, rs);
    LoadTells(er, rs + more);
    assert Mentions(er, rs, n);
    var r :| r in rs && WellFormed(er, r) && SequenceOf(er, r) == n;
    assert r in rs + more && Mentions(er, rs + more, n);
  }

  lemma SameCustodyStaysTidy(env: Env, w: World, v: World, more: seq<Record>)
    requires Tidy(env, w) && v.custody == w.custody && v.live == w.live + more && FreshHistory(env, v).Ok?
    ensures Tidy(env, v)
  {
    hide Load, LoadCustody, EntriesOf, Format04;
    var custody := LoadCustody(env.cr.er, w.custody).value;
    assert custody + v.live == (custody + w.live) + more;
    forall n | n in FreshHistory(env, w).value.bindings ensures n in FreshHistory(env, v).value.bindings {
      HistoryMentionsMore(env.cr.er, custody + w.live, more, n);
    }
  }

  lemma NewFileIsTidy(er: EnvelopeReader, envelopes: map<string, Bytes>, envelope: Bytes)
    requires FiledByDigest(er, envelopes)
    ensures FiledByDigest(er, envelopes[FileName(er.sha(envelope)) := envelope])
  {}

  lemma UnfiledIsTidy(env: Env, w: World, r: Record, writes: nat)
    requires Inv(env, w) && Tidy(env, w) && !Files(env, w, r, writes)
    ensures Tidy(env, Filed(env, w, r, writes))
  {
    hide Inv, AppendCustody, Verify, ReconcileLedger, LoadCustody, Load, EntriesOf, FindEntry, NamesOnly, FiledByDigest;
    UnfiledShape(env.cr, w.custody, r, CurrentIndexSha(env, w.custody), writes);
    UnfiledKeepsInv(env, w, r, writes);
    var l, s, a := InvChecks(env, Filed(env, w, r, writes));
    NewFileIsTidy(env.cr.er, w.custody.envelopes, r.envelope);
  }

  lemma NewNameIsTidy(entries: seq<IndexEntry>, e: IndexEntry, n: int, bindings: map<int, Binding>, b: Binding)
    requires NamesOnly(entries, bindings) && e.sourceId == "custody-" + Format04(n)
    ensures NamesOnly(Sort(entries + [e], ById), bindings[n := b])
  {
    hide Format04;
    forall x, m | x in Sort(entries + [e], ById) && x.sourceId == "custody-" + Format04(m)
      ensures m in bindings[n := b]
    {
      SortMember(entries + [e], ById, x);
      if x == e {
        assert x.sourceId[8..] == Format04(m) && e.sourceId[8..] == Format04(n);
        Format04Injective(m, n);
      }
    }
  }

  lemma FiledIsTidy(env: Env, w: World, ch: Checked, reserved: Event, q: SignRequest, envelope: Bytes, writes: nat)
    requires Laws(env) && Inv(env, w) && Tidy(env, w) && Signing(env, w, ch, reserved, q, envelope)
    requires Filable(reserved, q) && Files(env, w, CustodyRecordOf(reserved, q, envelope), writes)
    ensures Tidy(env, Filed(env, w, CustodyRecordOf(reserved, q, envelope), writes))
  {
    hide Inv, AppendCustody, Verify, ReconcileLedger, LoadCustody, FreshHistory, FindEntry, NamesOnly, FiledByDigest,
      EnvelopeMatches, Format04;
    var er, r, n := env.cr.er, CustodyRecordOf(reserved, q, envelope), q.allocation.sequence;
    FiledHistory(env, w, ch, reserved, q, envelope, writes);
    AppendWrites(env.cr, w.custody, r, CurrentIndexSha(env, w.custody), writes);
    NewFileIsTidy(er, w.custody.envelopes, envelope);
    NewNameIsTidy(EntriesOf(w.custody.index), NewEntry(er, r), n, FreshHistory(env, w).value.bindings,
      BindingOf(er, r));
  }

  /** A signing touches the ledger and what its append to custody touches. */
  lemma SignTouches(env: Env, w: World, reserved: Event, q: SignRequest, envelope: Bytes, writes: nat)
    requires EnvelopeMatches(env.cr.er, envelope, q)
    ensures var filed := Filed(env, w, CustodyRecordOf(reserved, q, envelope), writes);
      var after := SignFresh(env, w, reserved, q, envelope, writes).0;
      after == filed.(ledger := after.ledger)
  {
    hide Check, EnvelopeMatches, AppendCustody, CustodyRecordOf, CustodyCost, Append, Verify;
  }

  lemma RecoveryTouches(env: Env, w: World, ch: Checked, reserved: Event, q: SignRequest, writes: nat)
    ensures var after := SignRecovered(env, w, ch, reserved, q, writes).0; after == w.(ledger := after.ledger)
  {
    hide EnvelopeMatches, Append, Verify;
  }

  lemma TidyIgnoresLedger(env: Env, w: World, v: World)
    requires Tidy(env, w) && v == w.(ledger := v.ledger)
    ensures Tidy(env, v)
  {
    hide NamesOnly, FiledByDigest;
    HistoryIgnoresLedger(env, w, v);
  }

  lemma SignKeepsTidy(env: Env, w: World, q: SignRequest, signer: Signer, writes: nat)
    requires Laws(env) && Inv(env, w) && Tidy(env, w) && SignsItsReservation(env, w, q)
    ensures Tidy(env, Sign(env, w, q, signer, writes).0)
  {
    hide Inv, Check, Sign, SignRecovered, SignFresh, EnvelopeMatches, Laws, Tidy, Files, CustodyRecordOf, Filed;
    if Sign(env, w, q, signer, writes).0 != w {
      var ch, reserved, recovered := SignPaths(env, w, q, signer, writes);
      FindReservedMeans(ch.ledger.events, q.allocation.sequence);
      var after := Sign(env, w, q, signer, writes).0;
      if recovered {
        RecoveryTouches(env, w, ch, reserved, q, writes);
        TidyIgnoresLedger(env, w, after);
      } else {
        var r := CustodyRecordOf(reserved, q, signer.envelope);
        if Files(env, w, r, writes) {
          FiledIsTidy(env, w, ch, reserved, q, signer.envelope, writes);
        } else {
          UnfiledIsTidy(env, w, r, writes);
        }
        SignTouches(env, w, reserved, q, signer.envelope, writes);
        TidyIgnoresLedger(env, Filed(env, w, r, writes), after);
      }
    }
  }

  // ---- in every run ----------------------------------------------------------------------------

  lemma ActKeepsTidy(env: Env, w: World, action: Action, writes: nat)
    requires Laws(env) && Inv(env, w) && Tidy(env, w) && Admissible(env, w, action)
    ensures Tidy(env, Act(env, w, action, writes))
  {
    hide Inv, Laws, Tidy, Check, Reserve, Sign, Publish, Supersede, PrepareSupersession, FreshHistory, Publishable,
      NothingPending, Verify, SignsItsReservation, SeesLive;
    ActKeepsInv(env, w, action, writes);
    var after := Act(env, w, action, writes);
    var l, s, a := InvChecks(env, after);
    match action
    case SignAction(q, signer) => SignKeepsTidy(env, w, q, signer, writes);
    case ReserveAction(t, timestamp) =>
      ReserveMeans(env, w, t, timestamp, writes);
      SameCustodyStaysTidy(env, w, after, []);
    case PublishAction(q) =>
      PublishMeans(env, w, q, writes);
      SameCustodyStaysTidy(env, w, after, after.live[|w.live|..]);
    case SupersedeAction(q, t, timestamp, mutate) =>
      SupersedeMeans(env, w, t, q, timestamp, mutate, writes);
      SameCustodyStaysTidy(env, w, after, []);
  }

  /** What starts tidy stays tidy. */
  lemma {:induction false} RunsStayTidy(env: Env, ws: seq<World>, i: nat)
    requires Laws(env) && Run(env, ws) && Tidy(env, ws[0]) && i < |ws|
    ensures Tidy(env, ws[i])
  {
    hide Inv, Act, Tidy, Start;
    if i > 0 {
      RunsStayTidy(env, ws, i - 1);
      RunKeepsInv(env, ws, i - 1);
      assert Step(env, ws[i - 1], ws[i]);
      var action, writes :| Admissible(env, ws[i - 1], action) && ws[i] == Act(env, ws[i - 1], action, writes);
      ActKeepsTidy(env, ws[i - 1], action, writes);
    }
  }

  // ---- and what it is good for -------------------------------------------------------------------

  /** The signer's envelope is what it should be, and the request is for what was reserved, with a whole commit. */
  ghost predicate SignsReserved(er: EnvelopeReader, reserved: Event, q: SignRequest, envelope: Bytes) {
    && er.verify(envelope) == Some(VerifiedEnvelope(sequence := q.allocation.sequence, releaseId := reserved.releaseId,
         payloadSha := q.unsigned.payloadSha, keyId := q.productionKey))
    && er.canonical(envelope)
    && q.allocation.releaseId == reserved.releaseId && q.unsigned.componentSet == reserved.componentSet
    && |reserved.sourceCommit| == 40
  }

  lemma TidyTakes(env: Env, w: World, reserved: Event, q: SignRequest, envelope: Bytes)
    requires Laws(env) && Tidy(env, w) && q.allocation.sequence !in FreshHistory(env, w).value.bindings
    ensures Deliverable(env, w, reserved, q, envelope) <==> SignsReserved(env.cr.er, reserved, q, envelope)
  {
    hide FreshHistory, Format04;
    var file := FileName(env.cr.er.sha(envelope));
    if file in w.custody.envelopes {
      FileNameIsInjective(env.cr.er.sha(w.custody.envelopes[file]), env.cr.er.sha(envelope));
    }
  }

  /** In a tidy custody nothing stands in the way of a signing: a signable sequence is signed exactly when the signer's
      envelope and the request say what the reservation says and the reserved commit is a whole one. */
  lemma TidySigningCompletesIff(env: Env, w: World, q: SignRequest, envelope: Bytes)
    requires Laws(env) && Inv(env, w) && Tidy(env, w) && WellAsked(env.cr.er, q)
    requires Signable(Check(env, w).value.ledger, Check(env, w).value.snapshot, q.allocation.sequence)
    ensures Sign(env, w, q, Signs(envelope), UNINTERRUPTED).1.Done?
      <==> SignsReserved(env.cr.er, ReservationOf(Check(env, w).value.ledger, q.allocation.sequence).value, q, envelope)
  {
    hide Inv, Laws, Tidy, Check, Sign, ReservationOf, WellAsked, Deliverable, SignsReserved, RecordsSigned,
      FilesEnvelope, ReconcileLedger, FreshHistory;
    var l, s, a := InvChecks(env, w);
    ReconcileMeans(l, s);
    SignMeans(env, w, q, Signs(envelope));
    TidyTakes(env, w, ReservationOf(l, q.allocation.sequence).value, q, envelope);
  }

  /** So in every state of every run that started tidy: the newest sequence, reserved and not yet signed, can be signed
      there and then. */
  lemma ReservedCanBeSigned(env: Env, ws: seq<World>, i: nat, q: SignRequest, envelope: Bytes)
    requires Laws(env) && Run(env, ws) && Tidy(env, ws[0]) && i < |ws|
    requires Check(env, ws[i]).Ok? && WellAsked(env.cr.er, q)
    requires Signable(Check(env, ws[i]).value.ledger, Check(env, ws[i]).value.snapshot, q.allocation.sequence)
    ensures Sign(env, ws[i], q, Signs(envelope), UNINTERRUPTED).1.Done?
      <==> SignsReserved(env.cr.er, ReservationOf(Check(env, ws[i]).value.ledger, q.allocation.sequence).value, q,
             envelope)
  {
    hide *;
    RunKeepsInv(env, ws, i);
    RunsStayTidy(env, ws, i);
    TidySigningCompletesIff(env, ws[i], q, envelope);
  }
}
