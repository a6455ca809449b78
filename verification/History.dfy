/** Authenticated history: signed envelopes from custody and from the live channel, folded into
    one snapshot. */
module History {
  import opened Prelude
  import opened Text
  import opened Sorting
  import opened Ledger
  import opened Reconcile

  datatype SourceKind = Custody | LiveUpdates | OtherKind(name: string)

  datatype Record = Record(sourceId: string, kind: SourceKind, envelope: Bytes, provenance: Option<string>)

  /** What signature verification says of an envelope. */
  datatype VerifiedEnvelope = VerifiedEnvelope(sequence: int, releaseId: string, payloadSha: string, keyId: string)

  /** One line of the record list inside the snapshot document. */
  datatype Summary = Summary(envelopeSha: Digest, provenance: Option<string>, sourceId: string, kind: SourceKind)

  /** SHA-256 of raw bytes, canonical JSON, envelope verification under the trusted keys, and the
      digests of the two snapshot documents; all abstract. */
  datatype EnvelopeReader = EnvelopeReader(
    sha: Bytes -> Digest,
    canonical: Bytes -> bool,
    verify: Bytes -> Option<VerifiedEnvelope>,
    bindingsDigest: seq<Binding> -> Digest,
    snapshotDigest: (seq<Binding>, seq<int>, seq<(int, string)>, seq<Summary>) -> Digest)

  datatype LoadError = InvalidRecord | BindingConflict | ProvenanceConflict

  datatype Accumulated = Accumulated(bindings: map<int, Binding>, provenance: map<int, string>, live: set<int>)

  // ---- one record ------------------------------------------------------------------------

  predicate WellFormed(er: EnvelopeReader, r: Record) {
    && !r.kind.OtherKind?
    && (r.kind.LiveUpdates? ==> r.provenance.None?)
    && er.canonical(r.envelope)
    && er.verify(r.envelope).Some?
  }

  function SequenceOf(er: EnvelopeReader, r: Record): int
    requires WellFormed(er, r)
  {
    er.verify(r.envelope).value.sequence
  }

  function BindingOf(er: EnvelopeReader, r: Record): Binding
    requires WellFormed(er, r)
  {
    var v := er.verify(r.envelope).value;
    Binding(v.sequence, v.releaseId, v.payloadSha, er.sha(r.envelope), v.keyId)
  }

  /** A record that can be told: from custody or from the live channel, then without provenance, with a canonical and
      verified envelope; and what it tells. */
  lemma RecordMeans(er: EnvelopeReader, r: Record)
    ensures WellFormed(er, r) <==>
      && (r.kind == SourceKind.Custody || (r.kind == LiveUpdates && r.provenance == None))
      && er.canonical(r.envelope) && er.verify(r.envelope) != None
    ensures WellFormed(er, r) ==>
      var v := er.verify(r.envelope).value;
      BindingOf(er, r) == Binding(sequence := v.sequence, releaseId := v.releaseId, payloadSha := v.payloadSha,
        envelopeSha := er.sha(r.envelope), keyId := v.keyId) && SequenceOf(er, r) == v.sequence
  {}

  function AddRecord(er: EnvelopeReader, a: Accumulated, r: Record): Result<Accumulated, LoadError> {
    if !WellFormed(er, r) then Err(InvalidRecord)
    else
      var n, binding := SequenceOf(er, r), BindingOf(er, r);
      if n in a.bindings && a.bindings[n] != binding then Err(BindingConflict)
      else if r.provenance.Some? && n in a.provenance && a.provenance[n] != r.provenance.value then
        Err(ProvenanceConflict)
      else Ok(Accumulated(
        a.bindings[n := binding],
        if r.provenance.Some? then a.provenance[n := r.provenance.value] else a.provenance,
        if r.kind.LiveUpdates? then a.live + {n} else a.live))
  }

  function Accumulate(er: EnvelopeReader, rs: seq<Record>): Result<Accumulated, LoadError> {
    if rs == [] then Ok(Accumulated(map[], map[], {}))
    else
      match Accumulate(er, rs[..|rs| - 1])
      case Err(error) => Err(error)
      case Ok(a) => AddRecord(er, a, rs[|rs| - 1])
  }

  // ---- the snapshot ----------------------------------------------------------------------

  function KindRank(k: SourceKind): nat {
    match k
    case Custody => 0
    case LiveUpdates => 1
    case OtherKind(_) => 2
  }

  /** The order of (source_kind, source_id). */
  predicate Before(a: Record, b: Record) {
    KindRank(a.kind) < KindRank(b.kind) || (KindRank(a.kind) == KindRank(b.kind) && Leq(a.sourceId, b.sourceId))
  }

  function NameOf(k: SourceKind): string {
    match k
    case Custody => "custody"
    case LiveUpdates => "live_updates"
    case OtherKind(name) => name
  }

  /** Among the kinds that load, that is the order of the pairs of names. */
  lemma BeforeMeans(a: Record, b: Record)
    requires !a.kind.OtherKind? && !b.kind.OtherKind?
    ensures Before(a, b)
      <==> if a.kind == b.kind then Leq(a.sourceId, b.sourceId) else Leq(NameOf(a.kind), NameOf(b.kind))
  {
    LeqMeans("custody", "live_updates");
    LeqMeans("live_updates", "custody");
    assert "custody"[..0] == "live_updates"[..0] && "custody"[0] == 'c' && "live_updates"[0] == 'l';
  }

  function Summarise(er: EnvelopeReader, rs: seq<Record>): seq<Summary> {
    seq(|rs|, i requires 0 <= i < |rs| =>
      Summary(er.sha(rs[i].envelope), rs[i].provenance, rs[i].sourceId, rs[i].kind))
  }

  function Values<T>(m: map<int, T>, keys: seq<int>): seq<T>
    requires forall i :: 0 <= i < |keys| ==> keys[i] in m
  {
    seq(|keys|, i requires 0 <= i < |keys| => m[keys[i]])
  }

  function Pairs(m: map<int, string>, keys: seq<int>): seq<(int, string)>
    requires forall i :: 0 <= i < |keys| ==> keys[i] in m
  {
    seq(|keys|, i requires 0 <= i < |keys| => (keys[i], m[keys[i]]))
  }

  function SnapshotOf(er: EnvelopeReader, a: Accumulated, rs: seq<Record>): Snapshot {
    var keys := SortedKeys(a.bindings.Keys);
    var bindings := Values(a.bindings, keys);
    Snapshot(a.bindings, a.provenance, a.live, MaxKey(keys, 0), er.bindingsDigest(bindings),
      er.snapshotDigest(bindings, SortedKeys(a.live), Pairs(a.provenance, SortedKeys(a.provenance.Keys)),
                        Summarise(er, Sort(rs, Before))))
  }

  function Load(er: EnvelopeReader, rs: seq<Record>): Result<Snapshot, LoadError> {
    match Accumulate(er, rs)
    case Err(error) => Err(error)
    case Ok(a) => Ok(SnapshotOf(er, a, rs))
  }

  lemma {:induction false} AccumulateFailureIsFinal(er: EnvelopeReader, rs: seq<Record>, i: nat)
    requires i <= |rs| && Accumulate(er, rs[..i]).Err?
    ensures Accumulate(er, rs) == Accumulate(er, rs[..i])
    decreases |rs| - i
  {
    if i < |rs| {
      assert rs[..i + 1][..i] == rs[..i];
      AccumulateFailureIsFinal(er, rs, i + 1);
    } else {
      assert rs[..i] == rs;
    }
  }

  method LoadHistory(er: EnvelopeReader, rs: seq<Record>) returns (r: Result<Snapshot, LoadError>)
    ensures r == Load(er, rs)
  {
    var bindings: map<int, Binding> := map[];
    var provenance: map<int, string> := map[];
    var live: set<int> := {};
    var i := 0;
    while i < |rs|
      invariant 0 <= i <= |rs|
      invariant Accumulate(er, rs[..i]) == Ok(Accumulated(bindings, provenance, live))
    {
      assert rs[..i + 1][..i] == rs[..i];
      var rec := rs[i];
      ghost var step := AddRecord(er, Accumulated(bindings, provenance, live), rec);
      if step.Err? { AccumulateFailureIsFinal(er, rs, i + 1); }
      if rec.kind.OtherKind? { return Err(InvalidRecord); }
      if rec.kind.LiveUpdates? && rec.provenance.Some? { return Err(InvalidRecord); }
      if !er.canonical(rec.envelope) { return Err(InvalidRecord); }
      var verified := er.verify(rec.envelope);
      if verified.None? { return Err(InvalidRecord); }
      var n := verified.value.sequence;
      var binding := Binding(n, verified.value.releaseId, verified.value.payloadSha, er.sha(rec.envelope),
        verified.value.keyId);
      ghost var before := Accumulated(bindings, provenance, live);
      if n in bindings {
        if bindings[n] != binding { return Err(BindingConflict); }
        assert bindings == bindings[n := binding];
      } else {
        bindings := bindings[n := binding];
      }
      if rec.provenance.Some? {
        if n in provenance {
          if provenance[n] != rec.provenance.value { return Err(ProvenanceConflict); }
          assert provenance == provenance[n := rec.provenance.value];
        } else {
          provenance := provenance[n := rec.provenance.value];
        }
      }
      if rec.kind.LiveUpdates? { live := live + {n}; }
      assert step == Ok(Accumulated(bindings, provenance, live));
      i := i + 1;
    }
    assert rs[..i] == rs;
    r := Ok(SnapshotOf(er, Accumulated(bindings, provenance, live), rs));
  }

  // ---- the relation ----------------------------------------------------------------------

  /** Records that can be told as one history, in whatever order they come. */
  ghost predicate Consistent(er: EnvelopeReader, rs: seq<Record>) {
    && (forall r :: r in rs ==> WellFormed(er, r))
    && (forall q, r :: q in rs && r in rs && SequenceOf(er, q) == SequenceOf(er, r) ==>
          BindingOf(er, q) == BindingOf(er, r)
            && (q.provenance.Some? && r.provenance.Some? ==> q.provenance == r.provenance))
  }

  ghost predicate Mentions(er: EnvelopeReader, rs: seq<Record>, n: int) {
    exists r :: r in rs && WellFormed(er, r) && SequenceOf(er, r) == n
  }

  ghost predicate Attests(er: EnvelopeReader, rs: seq<Record>, n: int) {
    exists r :: r in rs && WellFormed(er, r) && SequenceOf(er, r) == n && r.provenance.Some?
  }

  ghost predicate Broadcasts(er: EnvelopeReader, rs: seq<Record>, n: int) {
    exists r :: r in rs && WellFormed(er, r) && SequenceOf(er, r) == n && r.kind.LiveUpdates?
  }

  /** The accumulated maps say what the records say, and nothing else. */
  ghost predicate Tells(er: EnvelopeReader, rs: seq<Record>, a: Accumulated) {
    && (forall n :: n in a.bindings <==> Mentions(er, rs, n))
    && (forall n :: n in a.provenance <==> Attests(er, rs, n))
    && (forall n :: n in a.live <==> Broadcasts(er, rs, n))
    && (forall r :: r in rs && WellFormed(er, r) && SequenceOf(er, r) in a.bindings ==>
          a.bindings[SequenceOf(er, r)] == BindingOf(er, r))
    && (forall r :: r in rs && WellFormed(er, r) && r.provenance.Some? && SequenceOf(er, r) in a.provenance ==>
          a.provenance[SequenceOf(er, r)] == r.provenance.value)
  }

  lemma MentionsSnoc(er: EnvelopeReader, rs: seq<Record>, r: Record, n: int)
    requires WellFormed(er, r)
    ensures Mentions(er, rs + [r], n) <==> Mentions(er, rs, n) || SequenceOf(er, r) == n
    ensures Attests(er, rs + [r], n) <==> Attests(er, rs, n) || (SequenceOf(er, r) == n && r.provenance.Some?)
    ensures Broadcasts(er, rs + [r], n) <==> Broadcasts(er, rs, n) || (SequenceOf(er, r) == n && r.kind.LiveUpdates?)
  {
    var all := rs + [r];
    assert r in all;
    if Mentions(er, rs, n) { var q :| q in rs && WellFormed(er, q) && SequenceOf(er, q) == n; assert q in all; }
    if Attests(er, rs, n) {
      var q :| q in rs && WellFormed(er, q) && SequenceOf(er, q) == n && q.provenance.Some?;
      assert q in all;
    }
    if Broadcasts(er, rs, n) {
      var q :| q in rs && WellFormed(er, q) && SequenceOf(er, q) == n && q.kind.LiveUpdates?;
      assert q in all;
    }
  }

  lemma AddedRecordTells(er: EnvelopeReader, rs: seq<Record>, r: Record, a: Accumulated)
    requires Consistent(er, rs) && Tells(er, rs, a) && AddRecord(er, a, r).Ok?
    ensures Tells(er, rs + [r], AddRecord(er, a, r).value)
  {
    forall n ensures (Mentions(er, rs + [r], n) <==> Mentions(er, rs, n) || SequenceOf(er, r) == n)
      && (Attests(er, rs + [r], n) <==> Attests(er, rs, n) || (SequenceOf(er, r) == n && r.provenance.Some?))
      && (Broadcasts(er, rs + [r], n) <==> Broadcasts(er, rs, n) || (SequenceOf(er, r) == n && r.kind.LiveUpdates?)) {
      MentionsSnoc(er, rs, r, n);
    }
    forall q | q in rs ensures Mentions(er, rs, SequenceOf(er, q))
      && (q.provenance.Some? ==> Attests(er, rs, SequenceOf(er, q))) {}
  }

  lemma AddedRecordConsistent(er: EnvelopeReader, rs: seq<Record>, r: Record, a: Accumulated)
    requires Consistent(er, rs) && Tells(er, rs, a)
    ensures Consistent(er, rs + [r]) <==> AddRecord(er, a, r).Ok?
  {
    var all := rs + [r];
    assert r in all && forall q :: q in rs ==> q in all;
    if WellFormed(er, r) {
      var n := SequenceOf(er, r);
      forall q | q in rs ensures Mentions(er, rs, SequenceOf(er, q))
        && (q.provenance.Some? ==> Attests(er, rs, SequenceOf(er, q))) {}
      if n in a.bindings && a.bindings[n] != BindingOf(er, r) {
        var q :| q in rs && WellFormed(er, q) && SequenceOf(er, q) == n;
        assert q in all;
      } else if r.provenance.Some? && n in a.provenance && a.provenance[n] != r.provenance.value {
        var q :| q in rs && WellFormed(er, q) && SequenceOf(er, q) == n && q.provenance.Some?;
        assert q in all;
      }
    }
  }

  lemma {:induction false} AccumulateMeans(er: EnvelopeReader, rs: seq<Record>)
    ensures Accumulate(er, rs).Ok? <==> Consistent(er, rs)
    ensures Accumulate(er, rs).Ok? ==> Tells(er, rs, Accumulate(er, rs).value)
  {
    if rs != [] {
      var front, r := rs[..|rs| - 1], rs[|rs| - 1];
      assert rs == front + [r];
      AccumulateMeans(er, front);
      if Accumulate(er, front).Ok? {
        AddedRecordConsistent(er, front, r, Accumulate(er, front).value);
        if Accumulate(er, rs).Ok? { AddedRecordTells(er, front, r, Accumulate(er, front).value); }
      } else if Consistent(er, rs) {
        assert forall q :: q in front ==> q in rs;
        assert Consistent(er, front);
      }
    }
  }

  lemma TellsOnce(er: EnvelopeReader, rs: seq<Record>, qs: seq<Record>, a: Accumulated, b: Accumulated)
    requires forall r :: r in rs <==> r in qs
    requires Tells(er, rs, a) && Tells(er, qs, b)
    ensures a == b
  {
    forall n ensures Mentions(er, rs, n) <==> Mentions(er, qs, n) {}
    forall n ensures Attests(er, rs, n) <==> Attests(er, qs, n) {}
    forall n ensures Broadcasts(er, rs, n) <==> Broadcasts(er, qs, n) {}
    assert forall n :: n in a.bindings <==> n in b.bindings;
    forall n | n in a.bindings ensures a.bindings[n] == b.bindings[n] {
      var r :| r in rs && WellFormed(er, r) && SequenceOf(er, r) == n;
      assert r in qs;
    }
    assert forall n :: n in a.provenance <==> n in b.provenance;
    forall n | n in a.provenance ensures a.provenance[n] == b.provenance[n] {
      var r :| r in rs && WellFormed(er, r) && SequenceOf(er, r) == n && r.provenance.Some?;
      assert r in qs;
    }
    SetsEqual(a.live, b.live);
  }

  // ---- sorting forgets the order ---------------------------------------------------------

  lemma BeforeIsAnOrder()
    ensures Order(Before)
    ensures forall a, b :: Before(a, b) && Before(b, a) ==>
      KindRank(a.kind) == KindRank(b.kind) && a.sourceId == b.sourceId
  {
    forall a, b ensures Before(a, b) || Before(b, a) { LeqTotal(a.sourceId, b.sourceId); }
    forall a, b, d | Before(a, b) && Before(b, d) ensures Before(a, d) {
      if Leq(a.sourceId, b.sourceId) && Leq(b.sourceId, d.sourceId) {
        LeqTransitive(a.sourceId, b.sourceId, d.sourceId);
      }
    }
    forall a, b | Before(a, b) && Before(b, a) ensures a.sourceId == b.sourceId {
      LeqAntisymmetric(a.sourceId, b.sourceId);
    }
  }

  /** No two different records share their (source_kind, source_id). */
  ghost predicate DistinctSources(rs: seq<Record>) {
    forall q, r :: q in rs && r in rs && q.kind == r.kind && q.sourceId == r.sourceId ==> q == r
  }

  /** Loading does not depend on the order of the records: it succeeds exactly when they can be
      told as one history, and then every permutation of records with distinct sources gives the
      same bindings, provenance, live set, highest sequence and both digests. */
  lemma LoadIsOrderIndependent(er: EnvelopeReader, rs: seq<Record>, qs: seq<Record>)
    requires multiset(rs) == multiset(qs)
    ensures Load(er, rs).Ok? <==> Consistent(er, rs)
    ensures Load(er, rs).Ok? <==> Load(er, qs).Ok?
    ensures Load(er, rs).Ok? && DistinctSources(rs) ==> Load(er, rs) == Load(er, qs)
    ensures Load(er, rs).Ok? ==>
              var s, t := Load(er, rs).value, Load(er, qs).value;
              && s.bindings == t.bindings && s.provenance == t.provenance && s.live == t.live
              && s.highest == t.highest && s.bindingsSha == t.bindingsSha
  {
    AccumulateMeans(er, rs);
    AccumulateMeans(er, qs);
    forall r ensures r in rs <==> r in qs {
      assert r in rs <==> r in multiset(rs);
      assert r in qs <==> r in multiset(qs);
    }
    if Consistent(er, rs) {
      TellsOnce(er, rs, qs, Accumulate(er, rs).value, Accumulate(er, qs).value);
      if DistinctSources(rs) { SortedAlike(er, rs, qs); }
    }
  }

  lemma SortedAlike(er: EnvelopeReader, rs: seq<Record>, qs: seq<Record>)
    requires multiset(rs) == multiset(qs) && DistinctSources(rs)
    requires forall r :: r in rs ==> WellFormed(er, r)
    ensures Sort(rs, Before) == Sort(qs, Before)
  {
    BeforeIsAnOrder();
    SortSorts(rs, Before);
    SortSorts(qs, Before);
    forall a, b | a in multiset(rs) && b in multiset(rs) && Before(a, b) && Before(b, a) ensures a == b {
      assert a in rs && b in rs;
    }
    SortedOnce(Sort(rs, Before), Sort(qs, Before), Before);
  }

  /** What a loaded snapshot says of the records. */
  lemma LoadTells(er: EnvelopeReader, rs: seq<Record>)
    requires Load(er, rs).Ok?
    ensures Consistent(er, rs)
    ensures var s := Load(er, rs).value; Tells(er, rs, Accumulated(s.bindings, s.provenance, s.live))
    ensures var s := Load(er, rs).value; s.highest == MaxKey(SortedKeys(s.bindings.Keys), 0)
  {
    AccumulateMeans(er, rs);
  }

  // ---- the digests of a snapshot ---------------------------------------------------------

  lemma BindingsNameTheirKeys(er: EnvelopeReader, rs: seq<Record>, n: int)
    requires Load(er, rs).Ok? && n in Load(er, rs).value.bindings
    ensures Load(er, rs).value.bindings[n].sequence == n
  {
    LoadTells(er, rs);
    assert Mentions(er, rs, n);
    var r :| r in rs && WellFormed(er, r) && SequenceOf(er, r) == n;
  }

  /** The documents behind the two digests: all bindings, live sequences and provenances in increasing order of their
      sequences, and all records in the order of their sources. */
  lemma SnapshotDocuments(er: EnvelopeReader, rs: seq<Record>)
    returns (bindings: seq<Binding>, live: seq<int>, provenance: seq<(int, string)>, sorted: seq<Record>,
        summaries: seq<Summary>)
    requires Load(er, rs).Ok?
    ensures var s := Load(er, rs).value;
      s.bindingsSha == er.bindingsDigest(bindings) && s.snapshotSha == er.snapshotDigest(bindings, live, provenance,
        summaries)
    ensures var s := Load(er, rs).value;
      && (forall b :: b in bindings <==> b.sequence in s.bindings && s.bindings[b.sequence] == b)
      && (forall i, j :: 0 <= i < j < |bindings| ==> bindings[i].sequence < bindings[j].sequence)
      && (forall n :: n in live <==> n in s.live) && Increasing(live)
      && (forall p :: p in provenance <==> p.0 in s.provenance && s.provenance[p.0] == p.1)
      && (forall i, j :: 0 <= i < j < |provenance| ==> provenance[i].0 < provenance[j].0)
    ensures Sorted(sorted, Before) && multiset(sorted) == multiset(rs) && |summaries| == |sorted|
    ensures forall i :: 0 <= i < |sorted| ==> summaries[i] == Summary(envelopeSha := er.sha(sorted[i].envelope),
      provenance := sorted[i].provenance, sourceId := sorted[i].sourceId, kind := sorted[i].kind)
  {
    hide Accumulate, SortedKeys, Sort, Before;
    var s := Load(er, rs).value;
    var keys, attested := SortedKeys(s.bindings.Keys), SortedKeys(s.provenance.Keys);
    bindings, live, provenance := Values(s.bindings, keys), SortedKeys(s.live), Pairs(s.provenance, attested);
    sorted := Sort(rs, Before);
    summaries := Summarise(er, sorted);
    SortedKeysIncrease(s.bindings.Keys);
    SortedKeysIncrease(s.live);
    SortedKeysIncrease(s.provenance.Keys);
    BeforeIsAnOrder();
    SortSorts(rs, Before);
    forall n | n in s.bindings ensures s.bindings[n].sequence == n { BindingsNameTheirKeys(er, rs, n); }
    ValuesHold(s.bindings, keys);
    PairsHold(s.provenance, attested);
  }

  lemma ValuesHold(m: map<int, Binding>, keys: seq<int>)
    requires forall i :: 0 <= i < |keys| ==> keys[i] in m
    requires (forall k :: k in m ==> k in keys) && (forall n :: n in m ==> m[n].sequence == n)
    ensures forall b :: b in Values(m, keys) <==> b.sequence in m && m[b.sequence] == b
    ensures forall i :: 0 <= i < |keys| ==> Values(m, keys)[i].sequence == keys[i]
  {
    forall b: Binding | b.sequence in m && m[b.sequence] == b ensures b in Values(m, keys) {
      var i :| 0 <= i < |keys| && keys[i] == b.sequence;
      assert Values(m, keys)[i] == b;
    }
    forall i | 0 <= i < |keys| ensures Values(m, keys)[i].sequence == keys[i] {}
  }

  lemma PairsHold(m: map<int, string>, keys: seq<int>)
    requires (forall i :: 0 <= i < |keys| ==> keys[i] in m) && (forall k :: k in m ==> k in keys)
    ensures forall p :: p in Pairs(m, keys) <==> p.0 in m && m[p.0] == p.1
  {
    forall p: (int, string) | p.0 in m && m[p.0] == p.1 ensures p in Pairs(m, keys) {
      var i :| 0 <= i < |keys| && keys[i] == p.0;
      assert Pairs(m, keys)[i] == p;
    }
  }

  /** Different documents have different digests. */
  ghost predicate DigestsDiffer(er: EnvelopeReader) {
    && (forall x, y :: er.sha(x) == er.sha(y) ==> x == y)
    && (forall x, y :: er.bindingsDigest(x) == er.bindingsDigest(y) ==> x == y)
    && (forall b, l, p, r, b', l', p', r' ::
          er.snapshotDigest(b, l, p, r) == er.snapshotDigest(b', l', p', r') ==>
            b == b' && l == l' && p == p' && r == r')
  }

  lemma SameValuesSameMap(m: map<int, Binding>, m': map<int, Binding>, bindings: seq<Binding>)
    requires forall b :: b in bindings <==> b.sequence in m && m[b.sequence] == b
    requires forall b :: b in bindings <==> b.sequence in m' && m'[b.sequence] == b
    requires (forall n :: n in m ==> m[n].sequence == n) && (forall n :: n in m' ==> m'[n].sequence == n)
    ensures m == m'
  {
    forall n | n in m ensures n in m' && m'[n] == m[n] { assert m[n] in bindings; }
    forall n | n in m' ensures n in m { assert m'[n] in bindings; }
  }

  /** The digest of the bindings fixes the bindings; the digest of the snapshot fixes the very records it was made from,
      up to their order. */
  lemma DigestsFixHistory(er: EnvelopeReader, rs: seq<Record>, qs: seq<Record>)
    requires DigestsDiffer(er) && Load(er, rs).Ok? && Load(er, qs).Ok? && DistinctSources(rs)
    ensures Load(er, rs).value.bindingsSha == Load(er, qs).value.bindingsSha
      <==> Load(er, rs).value.bindings == Load(er, qs).value.bindings
    ensures Load(er, rs).value.snapshotSha == Load(er, qs).value.snapshotSha <==> multiset(rs) == multiset(qs)
  {
    var s, t := Load(er, rs).value, Load(er, qs).value;
    var bs, live, provenance, sorted, summaries := SnapshotDocuments(er, rs);
    var bs', live', provenance', sorted', summaries' := SnapshotDocuments(er, qs);
    if s.bindingsSha == t.bindingsSha {
      forall n | n in s.bindings ensures s.bindings[n].sequence == n { BindingsNameTheirKeys(er, rs, n); }
      forall n | n in t.bindings ensures t.bindings[n].sequence == n { BindingsNameTheirKeys(er, qs, n); }
      SameValuesSameMap(s.bindings, t.bindings, bs);
    }
    if s.snapshotSha == t.snapshotSha {
      assert summaries == summaries';
      forall i | 0 <= i < |sorted| ensures sorted[i] == sorted'[i] {
        assert summaries[i] == summaries'[i];
      }
      assert sorted == sorted';
    }
    if multiset(rs) == multiset(qs) { LoadIsOrderIndependent(er, rs, qs); }
  }

  // ---- what a refusal says ---------------------------------------------------------------

  lemma AddRecordRefusals(er: EnvelopeReader, rs: seq<Record>, r: Record, a: Accumulated)
    requires Consistent(er, rs) && Tells(er, rs, a)
    ensures AddRecord(er, a, r) == Err(InvalidRecord) ==> !WellFormed(er, r)
    ensures AddRecord(er, a, r) == Err(BindingConflict) ==>
      && WellFormed(er, r)
      && exists q :: q in rs && WellFormed(er, q) && SequenceOf(er, q) == SequenceOf(er, r)
           && BindingOf(er, q) != BindingOf(er, r)
    ensures AddRecord(er, a, r) == Err(ProvenanceConflict) ==>
      && WellFormed(er, r) && r.provenance.Some?
      && exists q :: q in rs && WellFormed(er, q) && SequenceOf(er, q) == SequenceOf(er, r) && q.provenance.Some?
           && q.provenance != r.provenance
  {
    if WellFormed(er, r) {
      var n := SequenceOf(er, r);
      if n in a.bindings && a.bindings[n] != BindingOf(er, r) {
        var q :| q in rs && WellFormed(er, q) && SequenceOf(er, q) == n;
      } else if r.provenance.Some? && n in a.provenance && a.provenance[n] != r.provenance.value {
        var q :| q in rs && WellFormed(er, q) && SequenceOf(er, q) == n && q.provenance.Some?;
        assert a.provenance[n] == q.provenance.value;
      }
    }
  }

  /** A refused history has an ill-formed record, or two records of one sequence with different bindings, or two with
      different provenances, and says which. */
  lemma {:induction false} LoadRefusals(er: EnvelopeReader, rs: seq<Record>)
    ensures Load(er, rs) == Err(InvalidRecord) ==> exists r :: r in rs && !WellFormed(er, r)
    ensures Load(er, rs) == Err(BindingConflict) ==>
      exists q, r :: q in rs && r in rs && WellFormed(er, q) && WellFormed(er, r)
        && SequenceOf(er, q) == SequenceOf(er, r) && BindingOf(er, q) != BindingOf(er, r)
    ensures Load(er, rs) == Err(ProvenanceConflict) ==>
      exists q, r :: q in rs && r in rs && WellFormed(er, q) && WellFormed(er, r)
        && SequenceOf(er, q) == SequenceOf(er, r)
        && q.provenance.Some? && r.provenance.Some? && q.provenance != r.provenance
  {
    if rs != [] {
      var front, r := rs[..|rs| - 1], rs[|rs| - 1];
      assert forall q :: q in front ==> q in rs;
      LoadRefusals(er, front);
      AccumulateMeans(er, front);
      if Accumulate(er, front).Ok? { AddRecordRefusals(er, front, r, Accumulate(er, front).value); }
    }
  }
}
