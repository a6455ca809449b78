/** Superseding a signed release before publication: the dry run and the real one. */
module Supersession {
  import opened Prelude
  import opened Ledger
  import opened LedgerLaws
  import opened Reconcile
  import opened RecoveryLaws
  import opened Release
  import opened ReleaseLaws

  lemma {:induction false} OfSequenceConcat(a: seq<Event>, b: seq<Event>, n: int)
    ensures OfSequence(a + b, n) == OfSequence(a, n) + OfSequence(b, n)
  {
    if b == [] {
      assert a + b == a;
    } else {
      var front, last := b[..|b| - 1], b[|b| - 1];
      assert a + b == (a + front) + [last] && b == front + [last];
      OfSequenceConcat(a, front, n);
      OfSequenceSnoc(a + front, last, n);
      OfSequenceSnoc(front, last, n);
    }
  }

  /** FAILED ends a life, and no life that ends so was ever published. */
  lemma FailedIsLast(h: seq<Event>, i: nat)
    requires Lifeline(h) && i < |h| && h[i].status.Failed?
    ensures i == |h| - 1 && forall j :: 0 <= j < |h| ==> !h[j].status.Published?
  {
    assert i + 1 < |h| ==> h[i + 1].status in AllowedNext(h[i].status);
    forall j | 0 <= j < |h| ensures !h[j].status.Published? {
      if 0 < i {
        assert h[i].status in AllowedNext(h[i - 1].status);
        if j < i { RankGrows(h, j, i - 1); }
      }
    }
  }

  /** The lines of a file after a verified beginning add events to the verified ones. */
  lemma ExtensionKeepsEvents(c: Codec, lines: seq<Line>, more: seq<Line>)
    requires Verify(c, lines).Ok? && Verify(c, lines + more).Ok?
    ensures Verify(c, lines).value.events <= Verify(c, lines + more).value.events
  {
    VerifyMeans(c, lines);
    VerifyMeans(c, lines + more);
    var all := lines + more;
    assert forall i :: 0 <= i < |lines| ==> all[i] == lines[i];
    assert EventsIn(c, lines) == EventsIn(c, all)[..|lines| - 1];
  }

  ghost predicate NeverPublishes(l: VerifiedLedger, n: int) {
    forall e :: e in l.events && e.sequence == n ==> !e.status.Published?
  }

  /** Once the ledger says FAILED of a sequence, no verified extension of it ever says PUBLISHED. */
  lemma FailedForever(c: Codec, lines: seq<Line>, more: seq<Line>, n: int)
    requires Verify(c, lines).Ok? && Verify(c, lines + more).Ok?
    requires Latest(Verify(c, lines).value.events, n).Some?
    requires Latest(Verify(c, lines).value.events, n).value.status.Failed?
    ensures NeverPublishes(Verify(c, lines + more).value, n)
  {
    hide Verify;
    var old', all := Verify(c, lines).value.events, Verify(c, lines + more).value.events;
    ExtensionKeepsEvents(c, lines, more);
    VerifiedLives(c, lines + more, n);
    LatestIsLastOfSequence(old', n);
    OfSequenceConcat(old', all[|old'|..], n);
    assert all == old' + all[|old'|..];
    var h, g := OfSequence(old', n), OfSequence(all, n);
    assert g[|h| - 1] == h[|h| - 1];
    FailedIsLast(g, |h| - 1);
    OfSequenceMembers(all, n);
    forall e | e in all && e.sequence == n ensures !e.status.Published? { assert e in g; }
  }

  lemma FailedAccepted(l: VerifiedLedger, state: Event, timestamp: string)
    requires AllLifelines(l.genesis.floor.sequence, l.events)
    requires Latest(l.events, state.sequence) == Some(state) && state.status.Signed?
    ensures AppendError(l, FailedEventOf(state, timestamp, l.head), l.head) == None
  {
    var e := FailedEventOf(state, timestamp, l.head);
    LatestEndsLifeline(l, state.sequence);
    var h := OfSequence(l.events, state.sequence);
    FailedProlongs(h, e);
    AppendErrorProlongs(l, e);
  }

  lemma FailedProlongs(h: seq<Event>, e: Event)
    requires Lifeline(h) && h != [] && h[|h| - 1].status.Signed?
    requires e.status.Failed? && SameAllocation(e, h[|h| - 1]) && Fields(e) == Fields(h[|h| - 1])
    ensures Lifeline(h + [e])
  {
    var g := h + [e];
    assert forall i :: 0 <= i < |h| ==> g[i] == h[i];
    assert SameAllocation(h[|h| - 1], h[0]);
  }

  /** A dry run leaves the stores alone and predicts the real run with the same timestamp and
      snapshot: the real run succeeds with the same result, writes exactly the proposed line, and
      the re-read ledger has the proposed digest and the hypothetical reconciliation; the next
      unused sequence exceeds the superseded one, which no later verified ledger publishes. */
  lemma DryRunPredicts(env: Env, w: World, s: Snapshot, q: SupersedeRequest, timestamp: string, writes: nat)
    requires Faithful(env.c) && Supersede(env, w, s, q, timestamp, false, writes).1.Done?
    ensures Supersede(env, w, s, q, timestamp, false, writes).0 == w
    ensures var p := Supersede(env, w, s, q, timestamp, false, writes).1.value;
      var after := w.(ledger := w.ledger + [EventLine(env.c, p.event)]);
      && Supersede(env, w, s, q, timestamp, true, UNINTERRUPTED) == (after, Done(p))
      && Verify(env.c, after.ledger).Ok? && Verify(env.c, after.ledger).value.head == p.proposedSha
      && ReconcileLedger(Verify(env.c, after.ledger).value, s) == Ok(p.authority)
      && p.nextUnused == p.authority.nextUnused > q.sequence
      && (forall more :: Verify(env.c, after.ledger + more).Ok? ==>
           NeverPublishes(Verify(env.c, after.ledger + more).value, q.sequence))
  {
    hide PrepareSupersession, ReconcileLedger, AppendError;
    var l := Verify(env.c, w.ledger).value;
    var p := PrepareSupersession(env, l, s, q, timestamp).value;
    var state := PreparedShape(env, l, s, q, timestamp);
    PreparedAdvances(env, l, s, q, timestamp);
    VerifyMeans(env.c, w.ledger);
    LatestMember(l.events, q.sequence);
    FailedAccepted(l, state, timestamp);
    AppendAgreesWithVerify(env.c, w.ledger, p.event);
    var after := w.ledger + [EventLine(env.c, p.event)];
    LatestSnoc(l.events, p.event, q.sequence);
    forall more | Verify(env.c, after + more).Ok?
      ensures NeverPublishes(Verify(env.c, after + more).value, q.sequence) {
      FailedForever(env.c, after, more, q.sequence);
    }
  }

  lemma PreparedAdvances(env: Env, l: VerifiedLedger, s: Snapshot, q: SupersedeRequest, timestamp: string)
    requires PrepareSupersession(env, l, s, q, timestamp).Ok?
    ensures PrepareSupersession(env, l, s, q, timestamp).value.nextUnused > q.sequence
  {}

  /** The last check of the preparation never fires: a consumed sequence is never the next unused. */
  lemma NeverStuck(env: Env, l: VerifiedLedger, s: Snapshot, q: SupersedeRequest, timestamp: string)
    ensures PrepareSupersession(env, l, s, q, timestamp) != Err(NextUnusedStuck)
  {
    hide ReconcileLedger, AuthorityOf;
    if Latest(l.events, q.sequence).Some? {
      var event := FailedEventOf(Latest(l.events, q.sequence).value, timestamp, l.head);
      var m := VerifiedLedger(l.genesis, l.events + [event], EventLine(env.c, event).entrySha);
      LatestMember(l.events, q.sequence);
      ReconcileMeans(m, s);
      if ReconcileLedger(m, s).Ok? { NextUnusedExceedsAll(m, s, ReconcileLedger(m, s).value.recovery); }
      assert event in m.events;
    }
  }
}
