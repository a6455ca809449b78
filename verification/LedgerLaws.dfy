/** What verification of a ledger means: the life of every sequence, agreement between appending
    and re-reading, and how a head digest fixes the whole history. */
module LedgerLaws {
  import opened Prelude
  import opened Ledger

  // ---- the life of one sequence ----------------------------------------------------------

  /** A path of the lifecycle graph that starts RESERVED, keeps its allocation, and from the SIGNED
      event on keeps its (payload, envelope, key) fields. */
  ghost predicate Lifeline(h: seq<Event>) {
    && (h != [] ==> h[0].status.Reserved?)
    && (forall i :: 0 < i < |h| ==> SameAllocation(h[i], h[0]) && h[i].status in AllowedNext(h[i - 1].status))
    && (forall i :: 0 <= i < |h| && h[i].status.Signed? ==> HasSignedFields(h[i]))
    && (forall i, j :: 0 <= i <= j < |h| && h[i].status.Signed? ==> Fields(h[j]) == Fields(h[i]))
  }

  /** A life, spelled out field by field. */
  lemma LifelineMeans(h: seq<Event>)
    ensures Lifeline(h) <==>
      && (h != [] ==> h[0].status == Reserved)
      && (forall i :: 0 < i < |h| ==>
            && (h[i - 1].status, h[i].status) in {(Reserved, Signed), (Reserved, Status.Failed), (Signed, Published),
                 (Signed, Status.Failed), (Published, Retired)}
            && h[i].releaseId == h[0].releaseId && h[i].version == h[0].version && h[i].channel == h[0].channel
            && h[i].sourceCommit == h[0].sourceCommit && h[i].componentSet == h[0].componentSet)
      && (forall i :: 0 <= i < |h| && h[i].status == Signed ==>
            && h[i].payloadSha != None && h[i].payloadSha != Some("") && h[i].envelopeSha != None
            && h[i].envelopeSha != Some("") && h[i].keyId != None && h[i].keyId != Some(""))
      && (forall i, j :: 0 <= i <= j < |h| && h[i].status == Signed ==>
            h[j].payloadSha == h[i].payloadSha && h[j].envelopeSha == h[i].envelopeSha && h[j].keyId == h[i].keyId)
  {}

  function Rank(s: Status): nat {
    match s
    case Reserved => 0
    case Signed => 1
    case Published => 2
    case _ => 3
  }

  lemma {:induction false} RankGrows(h: seq<Event>, i: nat, j: nat)
    requires Lifeline(h) && i <= j < |h|
    ensures Rank(h[j].status) >= Rank(h[i].status) + j - i
    decreases j - i
  {
    if i < j {
      RankGrows(h, i, j - 1);
      assert h[j].status in AllowedNext(h[j - 1].status);
    }
  }

  lemma LifelineIsShort(h: seq<Event>)
    requires Lifeline(h)
    ensures |h| <= 4
  {
    if h != [] { RankGrows(h, 0, |h| - 1); }
  }

  lemma {:induction false} FirstSignedMeans(h: seq<Event>)
    ensures FirstSigned(h).None? <==> forall i :: 0 <= i < |h| ==> !h[i].status.Signed?
    ensures FirstSigned(h).Some? ==>
      exists i :: 0 <= i < |h| && h[i].status.Signed? && FirstSigned(h) == Some(Fields(h[i]))
  {
    if h != [] && !h[0].status.Signed? {
      FirstSignedMeans(h[1..]);
      assert forall i :: 0 < i < |h| ==> h[i] == h[1..][i - 1];
      if FirstSigned(h).Some? {
        var i :| 0 <= i < |h| - 1 && h[1..][i].status.Signed? && FirstSigned(h[1..]) == Some(Fields(h[1..][i]));
        assert h[i + 1].status.Signed?;
      }
    }
  }

  lemma {:induction false} LastSignedMeans(h: seq<Event>)
    ensures LastSigned(h).None? <==> forall i :: 0 <= i < |h| ==> !h[i].status.Signed?
    ensures LastSigned(h).Some? ==>
      exists i :: 0 <= i < |h| && h[i].status.Signed? && LastSigned(h) == Some(Fields(h[i]))
  {
    if h != [] && !h[|h| - 1].status.Signed? {
      LastSignedMeans(h[..|h| - 1]);
    }
  }

  /** Both ways of remembering the signed fields, the dictionary and the scan, see the same ones. */
  lemma SignedOnce(h: seq<Event>)
    requires Lifeline(h)
    ensures FirstSigned(h) == LastSigned(h)
  {
    FirstSignedMeans(h);
    LastSignedMeans(h);
  }

  lemma SignedIsSecond(h: seq<Event>, e: Event)
    requires Lifeline(h) && h != [] && LifecycleError(h, e) == None && e.status.Signed?
    ensures |h| == 1
  {
    RankGrows(h, 0, |h| - 1);
  }

  lemma AcceptedProlongs(floor: int, h: seq<Event>, e: Event)
    requires Lifeline(h) && VerifyEvent(floor, h, e) == None
    ensures e.sequence > floor && Lifeline(h + [e])
  {
    hide SameAllocation, HasSignedFields, LastSigned, AllowedNext;
    var g := h + [e];
    LastSignedMeans(h);
    assert g[|h|] == e && forall i :: 0 <= i < |h| ==> g[i] == h[i];
    if h != [] {
      assert SameAllocation(e, g[0]) && e.status in AllowedNext(g[|h| - 1].status);
      if e.status.Signed? { SignedIsSecond(h, e); }
    }
  }

  lemma ProlongingAccepted(floor: int, h: seq<Event>, e: Event)
    requires Lifeline(h) && e.sequence > floor && Lifeline(h + [e])
    ensures VerifyEvent(floor, h, e) == None
  {
    var g := h + [e];
    LastSignedMeans(h);
    assert g[|h|] == e && forall i :: 0 <= i < |h| ==> g[i] == h[i];
  }

  /** The event check of the file reader accepts exactly the events that prolong the life. */
  lemma VerifyEventProlongs(floor: int, h: seq<Event>, e: Event)
    requires Lifeline(h)
    ensures VerifyEvent(floor, h, e) == None <==> e.sequence > floor && Lifeline(h + [e])
  {
    hide VerifyEvent, Lifeline;
    if VerifyEvent(floor, h, e) == None { AcceptedProlongs(floor, h, e); }
    if e.sequence > floor && Lifeline(h + [e]) { ProlongingAccepted(floor, h, e); }
  }

  /** So does the check of an append. */
  lemma AppendErrorProlongs(l: VerifiedLedger, e: Event)
    requires Lifeline(OfSequence(l.events, e.sequence)) && e.previous == l.head
    ensures AppendError(l, e, l.head) == None
            <==> e.sequence > l.genesis.floor.sequence && Lifeline(OfSequence(l.events, e.sequence) + [e])
  {
    var h := OfSequence(l.events, e.sequence);
    VerifyEventProlongs(l.genesis.floor.sequence, h, e);
    SignedOnce(h);
    if LifecycleError(h, e) == None && e.status.Signed? && h != [] { SignedIsSecond(h, e); }
    assert LifecycleError(h, e) == None ==> !e.status.Unknown?;
  }

  /** A refused append says why, and what it says is so. */
  lemma AppendRefusals(l: VerifiedLedger, e: Event, expected: Digest)
    ensures var r, h := AppendError(l, e, expected), OfSequence(l.events, e.sequence);
      && (r == Some(StalePrevious) <==> expected != l.head)
      && (r == Some(PreviousMismatch) ==> e.previous != l.head)
      && (r == Some(AtOrBelowFloor) ==> e.sequence <= l.genesis.floor.sequence)
      && (r == Some(FirstNotReserved) ==> h == [] && e.status != Reserved)
      && (r == Some(AllocationChanged) ==> h != [] && !SameAllocation(e, h[0]))
      && (r == Some(IllegalTransition) ==> h != [] && e.status !in AllowedNext(h[|h| - 1].status))
      && (r == Some(SignedFieldsMissing) ==> e.status == Signed && !HasSignedFields(e))
      && (r == Some(SignedFieldsChanged) ==>
            exists i :: 0 <= i < |h| && h[i].status.Signed? && Fields(h[i]) != Fields(e))
  {
    hide OfSequence, SameAllocation, HasSignedFields, AllowedNext, FirstSigned;
    FirstSignedMeans(OfSequence(l.events, e.sequence));
  }

  // ---- verified ledgers ------------------------------------------------------------------

  /** The events written in a file, taking every line after the first at its word. */
  ghost function EventsIn(c: Codec, lines: seq<Line>): seq<Event>
    requires Chained(c, lines)
  {
    seq(|lines| - 1, i requires 0 <= i < |lines| - 1 => c.parse(lines[i + 1].body).event)
  }

  /** A genesis record, then event records, every line under its own digest and every event
      naming the digest of the line before it. */
  ghost predicate Chained(c: Codec, lines: seq<Line>) {
    && lines != []
    && (forall i :: 0 <= i < |lines| ==> lines[i].Entry? && lines[i].entrySha == c.sha(lines[i].body))
    && c.parse(lines[0].body).GenesisBody? && !c.parse(lines[0].body).hasPrevious
    && c.parse(lines[0].body).genesis.floor.sequence > 0
    && (forall i :: 0 < i < |lines| ==>
          c.parse(lines[i].body).EventBody? && c.parse(lines[i].body).event.previous == lines[i - 1].entrySha)
  }

  ghost predicate AllLifelines(floor: int, events: seq<Event>) {
    && (forall e :: e in events ==> e.sequence > floor)
    && (forall s :: Lifeline(OfSequence(events, s)))
  }

  ghost function LedgerIn(c: Codec, lines: seq<Line>): VerifiedLedger
    requires Chained(c, lines)
  {
    VerifiedLedger(c.parse(lines[0].body).genesis, EventsIn(c, lines), lines[|lines| - 1].entrySha)
  }

  lemma ChainedSnoc(c: Codec, lines: seq<Line>, line: Line)
    requires lines != []
    ensures Chained(c, lines + [line]) <==> Chained(c, lines) && EventOf(c, lines[|lines| - 1].entrySha, line).Ok?
    ensures Chained(c, lines + [line]) ==>
              EventsIn(c, lines + [line]) == EventsIn(c, lines) + [c.parse(line.body).event]
  {
    var all := lines + [line];
    assert all[|lines|] == line && all[|lines| - 1] == lines[|lines| - 1];
    assert forall i :: 0 <= i < |lines| ==> all[i] == lines[i];
  }

  /** Verification, without its loop: the chain is unbroken, every event lies above the floor, and
      the events of every sequence form a life. The verified ledger is what the lines say. */
  lemma {:induction false} VerifyMeans(c: Codec, lines: seq<Line>)
    ensures Verify(c, lines).Ok? <==>
              Chained(c, lines) && AllLifelines(c.parse(lines[0].body).genesis.floor.sequence, EventsIn(c, lines))
    ensures Verify(c, lines).Ok? ==> Verify(c, lines).value == LedgerIn(c, lines)
  {
    if |lines| == 1 {
      if Chained(c, lines) { assert EventsIn(c, lines) == []; }
    } else if lines != [] {
      var front, last := lines[..|lines| - 1], lines[|lines| - 1];
      assert lines == front + [last];
      VerifyMeans(c, front);
      ChainedSnoc(c, front, last);
      if Chained(c, lines) {
        var e := c.parse(last.body).event;
        var floor := c.parse(lines[0].body).genesis.floor.sequence;
        VerifyMeansStep(floor, EventsIn(c, front), e);
      }
    }
  }

  lemma VerifyMeansStep(floor: int, events: seq<Event>, e: Event)
    ensures AllLifelines(floor, events + [e]) <==>
              AllLifelines(floor, events) && VerifyEvent(floor, OfSequence(events, e.sequence), e) == None
  {
    if AllLifelines(floor, events + [e]) { AllLifelinesPrefix(floor, events, e); }
    if AllLifelines(floor, events) {
      VerifyEventProlongs(floor, OfSequence(events, e.sequence), e);
      AllLifelinesStep(floor, events, e);
    }
  }

  lemma AllLifelinesStep(floor: int, events: seq<Event>, e: Event)
    requires AllLifelines(floor, events)
    ensures AllLifelines(floor, events + [e]) <==> e.sequence > floor && Lifeline(OfSequence(events, e.sequence) + [e])
  {
    forall s ensures OfSequence(events + [e], s) == if e.sequence == s then OfSequence(events, s) + [e]
      else OfSequence(events, s) {
      OfSequenceSnoc(events, e, s);
    }
    assert e in events + [e];
    if AllLifelines(floor, events + [e]) { assert Lifeline(OfSequence(events + [e], e.sequence)); }
  }

  lemma AllLifelinesPrefix(floor: int, events: seq<Event>, e: Event)
    requires AllLifelines(floor, events + [e])
    ensures AllLifelines(floor, events)
  {
    forall x | x in events ensures x.sequence > floor { assert x in events + [e]; }
    forall s ensures Lifeline(OfSequence(events, s)) {
      OfSequenceSnoc(events, e, s);
      var h, g := OfSequence(events, s), OfSequence(events + [e], s);
      assert Lifeline(g);
      assert |h| <= |g| && h == g[..|h|];
    }
  }

  /** In every verified ledger each sequence has a life of at most four events. */
  lemma VerifiedLives(c: Codec, lines: seq<Line>, s: int)
    requires Verify(c, lines).Ok?
    ensures Lifeline(OfSequence(Verify(c, lines).value.events, s))
    ensures |OfSequence(Verify(c, lines).value.events, s)| <= 4
  {
    VerifyMeans(c, lines);
    LifelineIsShort(OfSequence(Verify(c, lines).value.events, s));
  }

  ghost function Sequences(events: seq<Event>): set<int> {
    set e | e in events :: e.sequence
  }

  /** The ledger holds at most four events for each sequence it mentions. */
  lemma EventCount(c: Codec, lines: seq<Line>)
    requires Verify(c, lines).Ok?
    ensures var events := Verify(c, lines).value.events; |events| <= 4 * |Sequences(events)|
  {
    var events := Verify(c, lines).value.events;
    forall s ensures |OfSequence(events, s)| <= 4 { VerifiedLives(c, lines, s); }
    CountBySequence(events);
  }

  ghost function Without(events: seq<Event>, s: int): seq<Event> {
    if events == [] then []
    else
      var last := events[|events| - 1];
      Without(events[..|events| - 1], s) + (if last.sequence == s then [] else [last])
  }

  lemma {:induction false} WithoutMembers(events: seq<Event>, s: int)
    ensures forall e :: e in Without(events, s) <==> e in events && e.sequence != s
    ensures |events| == |OfSequence(events, s)| + |Without(events, s)|
  {
    if events != [] { WithoutMembers(events[..|events| - 1], s); }
  }

  lemma {:induction false} OthersStay(events: seq<Event>, s: int, t: int)
    requires t != s
    ensures OfSequence(Without(events, s), t) == OfSequence(events, t)
  {
    if events != [] {
      var front, last := events[..|events| - 1], events[|events| - 1];
      OthersStay(front, s, t);
      if last.sequence == s {
        assert Without(events, s) == Without(front, s);
      } else {
        OfSequenceSnoc(Without(front, s), last, t);
      }
    }
  }

  lemma {:induction false} CountBySequence(events: seq<Event>)
    requires forall s :: |OfSequence(events, s)| <= 4
    ensures |events| <= 4 * |Sequences(events)|
    decreases |events|
  {
    if events != [] {
      var s := events[0].sequence;
      var rest := Without(events, s);
      WithoutMembers(events, s);
      OfSequenceMembers(events, s);
      assert events[0] in OfSequence(events, s);
      forall t ensures |OfSequence(rest, t)| <= 4 {
        if t != s {
          OthersStay(events, s, t);
        } else {
          OfSequenceMembers(rest, t);
          assert forall e :: e !in OfSequence(rest, t);
          assert |OfSequence(rest, t)| > 0 ==> OfSequence(rest, t)[0] in OfSequence(rest, t);
        }
      }
      CountBySequence(rest);
      assert Sequences(events) == Sequences(rest) + {s};
      assert s !in Sequences(rest);
    }
  }

  // ---- appending agrees with re-reading --------------------------------------------------

  /** For every file that verifies and every event: an append that names the current head accepts
      the event exactly when the reader accepts the file with that line added, and the re-read
      ledger is then the old one with this event and the returned digest as its head. */
  lemma AppendAgreesWithVerify(c: Codec, lines: seq<Line>, e: Event)
    requires Faithful(c) && Verify(c, lines).Ok?
    ensures var l := Verify(c, lines).value;
      var longer := Verify(c, lines + [EventLine(c, e)]);
      && (e.previous == l.head ==> (Append(c, lines, e, l.head).Ok? <==> longer.Ok?))
      && (e.previous != l.head ==> Append(c, lines, e, l.head).Err? && longer.Err?)
      && (longer.Ok? ==>
            Append(c, lines, e, l.head) == Ok((lines + [EventLine(c, e)], longer.value.head)) &&
            longer.value == VerifiedLedger(l.genesis, l.events + [e], EventLine(c, e).entrySha))
  {
    var l := Verify(c, lines).value;
    VerifyMeans(c, lines);
    assert (lines + [EventLine(c, e)])[..|lines|] == lines;
    assert EventOf(c, l.head, EventLine(c, e)) == if e.previous == l.head then Ok(e) else Err(ChainBroken);
    VerifyEventProlongs(l.genesis.floor.sequence, OfSequence(l.events, e.sequence), e);
    if e.previous == l.head { AppendErrorProlongs(l, e); }
  }

  // ---- a head digest fixes the history ---------------------------------------------------

  ghost predicate Collision(sha: Bytes -> Digest) {
    exists x, y :: x != y && sha(x) == sha(y)
  }

  /** Two verified files with the same head digest hold the same lines, or they exhibit two
      different bodies with one digest. */
  lemma {:induction false} HeadFixesHistory(c: Codec, a: seq<Line>, b: seq<Line>)
    requires Verify(c, a).Ok? && Verify(c, b).Ok?
    requires Verify(c, a).value.head == Verify(c, b).value.head
    ensures a == b || Collision(c.sha)
  {
    VerifyMeans(c, a);
    VerifyMeans(c, b);
    ChainFixesLines(c, a, b);
  }

  lemma ChainedFront(c: Codec, a: seq<Line>)
    requires Chained(c, a) && |a| > 1
    ensures Chained(c, a[..|a| - 1])
    ensures c.parse(a[|a| - 1].body).EventBody? && c.parse(a[|a| - 1].body).event.previous == a[|a| - 2].entrySha
  {}

  lemma {:induction false} ChainFixesLines(c: Codec, a: seq<Line>, b: seq<Line>)
    requires Chained(c, a) && Chained(c, b)
    requires a[|a| - 1].entrySha == b[|b| - 1].entrySha
    ensures a == b || Collision(c.sha)
  {
    var x, y := a[|a| - 1], b[|b| - 1];
    if x.body != y.body {
      assert c.sha(x.body) == c.sha(y.body);
    } else if |a| > 1 && |b| > 1 {
      ChainedFront(c, a);
      ChainedFront(c, b);
      ChainFixesLines(c, a[..|a| - 1], b[..|b| - 1]);
      assert a == a[..|a| - 1] + [x] && b == b[..|b| - 1] + [y];
    }
  }

  /** If the head digest of one verified file occurs in another one, the first file is the
      beginning of the second, up to a collision. */
  lemma HeadOccursInExtension(c: Codec, a: seq<Line>, b: seq<Line>, k: nat)
    requires Verify(c, a).Ok? && Verify(c, b).Ok? && k < |b|
    requires b[k].Entry? && b[k].entrySha == Verify(c, a).value.head
    ensures a == b[..k + 1] || Collision(c.sha)
    ensures a == b[..k + 1] ==>
              && Verify(c, a).value.genesis == Verify(c, b).value.genesis
              && Verify(c, a).value.events <= Verify(c, b).value.events
  {
    var front := b[..k + 1];
    if Verify(c, front).Err? { VerifyFailureIsFinal(c, b, k + 1); }
    VerifyMeans(c, b);
    VerifyMeans(c, front);
    HeadFixesHistory(c, a, front);
    assert EventsIn(c, front) == EventsIn(c, b)[..k];
  }
}
