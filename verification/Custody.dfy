/** The content-addressed custody of signed envelopes: an index file, and one file for each
    envelope, named after its digest. */
module Custody {
  import opened Prelude
  import opened Text
  import opened Sorting
  import opened History

  datatype RelPath = RelPath(absolute: bool, parts: seq<string>)

  datatype IndexEntry = IndexEntry(
    sourceId: string, kind: SourceKind, path: RelPath, envelopeSha: Digest, provenance: Option<string>)

  /** The index file: absent, not a canonical JSON object with a list of entries, or such an
      object; closed says that it has no keys besides the two of its schema. */
  datatype IndexFile =
    | Missing
    | Malformed(raw: Bytes)
    | Index(closed: bool, schemaVersion: int, entries: seq<IndexEntry>)

  /** The two kinds of file. Envelope files are keyed by their name under "envelopes". */
  datatype Store = Store(index: IndexFile, envelopes: map<string, Bytes>)

  datatype CustodyReader = CustodyReader(er: EnvelopeReader, indexSha: IndexFile -> Digest)

  datatype CustodyError =
    | NotCustody | NotCanonical | StaleIndex | MalformedIndex | ConflictingEntry | ConflictingEnvelope
    | NotClosed | UnsupportedSchema | InvalidSourceId | DuplicateSourceId | Unconfined | NameMismatch
    | EnvelopeMissing | EnvelopeMismatch | InvalidProvenance

  function FileName(sha: Digest): string {
    sha + ".json"
  }

  // ---- reading ---------------------------------------------------------------------------

  function LoadEntry(er: EnvelopeReader, envelopes: map<string, Bytes>, e: IndexEntry): Result<Record, CustodyError> {
    if e.sourceId == "" then Err(InvalidSourceId)
    else if !e.kind.Custody? then Err(NotCustody)
    else if e.path.absolute || ".." in e.path.parts || |e.path.parts| != 2 || e.path.parts[0] != "envelopes" then
      Err(Unconfined)
    else if e.path.parts[1] != FileName(e.envelopeSha) then Err(NameMismatch)
    else if e.path.parts[1] !in envelopes then Err(EnvelopeMissing)
    else
      var bytes := envelopes[e.path.parts[1]];
      if er.sha(bytes) != e.envelopeSha then Err(EnvelopeMismatch)
      else if !er.canonical(bytes) then Err(NotCanonical)
      else if e.provenance.Some? && |e.provenance.value| != 40 then Err(InvalidProvenance)
      else Ok(Record(e.sourceId, SourceKind.Custody, bytes, e.provenance))
  }

  function Ids(entries: seq<IndexEntry>): set<string> {
    set e | e in entries :: e.sourceId
  }

  function LoadEntries(er: EnvelopeReader, envelopes: map<string, Bytes>, entries: seq<IndexEntry>)
    : Result<seq<Record>, CustodyError>
  {
    if entries == [] then Ok([])
    else
      var front, last := entries[..|entries| - 1], entries[|entries| - 1];
      match LoadEntries(er, envelopes, front)
      case Err(error) => Err(error)
      case Ok(records) =>
        if last.sourceId != "" && last.sourceId in Ids(front) then Err(DuplicateSourceId)
        else
          match LoadEntry(er, envelopes, last)
          case Err(error) => Err(error)
          case Ok(record) => Ok(records + [record])
  }

  function LoadCustody(er: EnvelopeReader, st: Store): Result<seq<Record>, CustodyError> {
    match st.index
    case Missing => Ok([])
    case Malformed(_) => Err(MalformedIndex)
    case Index(closed, schema, entries) =>
      if !closed then Err(NotClosed)
      else if schema != 1 then Err(UnsupportedSchema)
      else LoadEntries(er, st.envelopes, entries)
  }

  lemma {:induction false} EntriesFailureIsFinal(er: EnvelopeReader, envelopes: map<string, Bytes>,
      entries: seq<IndexEntry>, i: nat)
    requires i <= |entries| && LoadEntries(er, envelopes, entries[..i]).Err?
    ensures LoadEntries(er, envelopes, entries) == LoadEntries(er, envelopes, entries[..i])
    decreases |entries| - i
  {
    if i < |entries| {
      assert entries[..i + 1][..i] == entries[..i];
      EntriesFailureIsFinal(er, envelopes, entries, i + 1);
    } else {
      assert entries[..i] == entries;
    }
  }

  // ---- appending -------------------------------------------------------------------------

  function NewEntry(er: EnvelopeReader, r: Record): IndexEntry {
    var sha := er.sha(r.envelope);
    IndexEntry(r.sourceId, SourceKind.Custody, RelPath(false, ["envelopes", FileName(sha)]), sha, r.provenance)
  }

  predicate ById(a: IndexEntry, b: IndexEntry) {
    Leq(a.sourceId, b.sourceId)
  }

  function EntriesOf(index: IndexFile): seq<IndexEntry> {
    if index.Index? then index.entries else []
  }

  /** The first entry that already has the new source id. */
  function FindEntry(entries: seq<IndexEntry>, sourceId: string): Option<IndexEntry> {
    if entries == [] then None
    else if entries[0].sourceId == sourceId then Some(entries[0])
    else FindEntry(entries[1..], sourceId)
  }

  /** How many store writes an append that is not refused makes. */
  function CustodyCost(cr: CustodyReader, st: Store, r: Record): nat {
    if FindEntry(EntriesOf(st.index), r.sourceId).Some? then 0
    else if FileName(cr.er.sha(r.envelope)) in st.envelopes then 1
    else 2
  }

  /** One append that dies after at most `writes` store writes: first the envelope file, unless it
      is already there, then the index. */
  function AppendCustody(cr: CustodyReader, st: Store, r: Record, expected: Option<Digest>, writes: nat)
    : (Store, Outcome<Digest, CustodyError>)
  {
    var sha := cr.er.sha(r.envelope);
    var name, current := FileName(sha), cr.indexSha(st.index);
    if !r.kind.Custody? then (st, Raised(NotCustody))
    else if !cr.er.canonical(r.envelope) then (st, Raised(NotCanonical))
    else if expected != (if st.index.Missing? then None else Some(current)) then (st, Raised(StaleIndex))
    else if st.index.Malformed? then (st, Raised(MalformedIndex))
    else
      var entries, known := EntriesOf(st.index), FindEntry(EntriesOf(st.index), r.sourceId);
      if known.Some? then
        if known.value.envelopeSha == sha && known.value.provenance == r.provenance then (st, Done(current))
        else (st, Raised(ConflictingEntry))
      else if name in st.envelopes && st.envelopes[name] != r.envelope then (st, Raised(ConflictingEnvelope))
      else if name !in st.envelopes && writes == 0 then (st, Crashed)
      else
        var filed := Store(st.index, st.envelopes[name := r.envelope]);
        if writes < CustodyCost(cr, st, r) then (filed, Crashed)
        else
          var index := Index(true, 1, Sort(entries + [NewEntry(cr.er, r)], ById));
          (Store(index, filed.envelopes), Done(cr.indexSha(index)))
  }

  /** The loop over the index, with the ids seen so far. */
  method ReadEntries(er: EnvelopeReader, envelopes: map<string, Bytes>, entries: seq<IndexEntry>)
    returns (r: Result<seq<Record>, CustodyError>)
    ensures r == LoadEntries(er, envelopes, entries)
  {
    var seen: set<string> := {};
    var records: seq<Record> := [];
    var i := 0;
    while i < |entries|
      invariant 0 <= i <= |entries|
      invariant seen == Ids(entries[..i])
      invariant LoadEntries(er, envelopes, entries[..i]) == Ok(records)
    {
      assert entries[..i + 1][..i] == entries[..i];
      var e := entries[i];
      if LoadEntries(er, envelopes, entries[..i + 1]).Err? { EntriesFailureIsFinal(er, envelopes, entries, i + 1); }
      if e.sourceId == "" { return Err(InvalidSourceId); }
      if e.sourceId in seen { return Err(DuplicateSourceId); }
      seen := seen + {e.sourceId};
      var record := LoadEntry(er, envelopes, e);
      if record.Err? { return Err(record.error); }
      records := records + [record.value];
      IdsSnoc(entries[..i], e);
      assert entries[..i + 1] == entries[..i] + [e];
      i := i + 1;
    }
    assert entries[..i] == entries;
    r := Ok(records);
  }

  lemma IdsSnoc(entries: seq<IndexEntry>, e: IndexEntry)
    ensures Ids(entries + [e]) == Ids(entries) + {e.sourceId}
  {
    assert forall x :: x in entries + [e] <==> x in entries || x == e;
  }

  class CustodyRoot {
    var index: IndexFile
    var envelopes: map<string, Bytes>

    ghost function Contents(): Store
      reads this
    {
      Store(index, envelopes)
    }

    constructor (st: Store)
      ensures Contents() == st
    {
      index, envelopes := st.index, st.envelopes;
    }

    method LoadCustodyRecords(er: EnvelopeReader) returns (r: Result<seq<Record>, CustodyError>)
      ensures r == LoadCustody(er, Contents())
    {
      if index.Missing? { return Ok([]); }
      if index.Malformed? { return Err(MalformedIndex); }
      if !index.closed { return Err(NotClosed); }
      if index.schemaVersion != 1 { return Err(UnsupportedSchema); }
      r := ReadEntries(er, envelopes, index.entries);
    }

    method AppendCustodyRecord(cr: CustodyReader, r: Record, expected: Option<Digest>, writes: nat)
      returns (out: Outcome<Digest, CustodyError>)
      modifies this
      ensures (Contents(), out) == AppendCustody(cr, old(Contents()), r, expected, writes)
    {
      if !r.kind.Custody? { return Raised(NotCustody); }
      if !cr.er.canonical(r.envelope) { return Raised(NotCanonical); }
      var sha := cr.er.sha(r.envelope);
      var current := cr.indexSha(index);
      var entries := [];
      if !index.Missing? {
        if expected == None { return Raised(StaleIndex); }
        if expected != Some(current) { return Raised(StaleIndex); }
        if index.Malformed? { return Raised(MalformedIndex); }
        entries := index.entries;
      } else if expected != None {
        return Raised(StaleIndex);
      }
      for i := 0 to |entries|
        invariant FindEntry(entries, r.sourceId) == FindEntry(entries[i..], r.sourceId)
      {
        var e := entries[i];
        assert entries[i..][0] == e && entries[i..][1..] == entries[i + 1..];
        if e.sourceId == r.sourceId {
          if e.envelopeSha == sha && e.provenance == r.provenance { return Done(current); }
          return Raised(ConflictingEntry);
        }
      }
      var name := FileName(sha);
      var left := writes;
      if name in envelopes {
        if envelopes[name] != r.envelope { return Raised(ConflictingEnvelope); }
        assert envelopes[name := r.envelope] == envelopes;
      } else {
        if left == 0 { return Crashed; }
        envelopes, left := envelopes[name := r.envelope], left - 1;
      }
      if left == 0 { return Crashed; }
      entries := Sort(entries + [NewEntry(cr.er, r)], ById);
      index := Index(true, 1, entries);
      out := Done(cr.indexSha(index));
    }
  }

  // ---- what reading means ----------------------------------------------------------------

  ghost predicate DistinctIds(entries: seq<IndexEntry>) {
    forall i, j :: 0 <= i < j < |entries| ==> entries[i].sourceId != entries[j].sourceId
  }

  ghost predicate AllLoad(er: EnvelopeReader, envelopes: map<string, Bytes>, entries: seq<IndexEntry>) {
    forall i :: 0 <= i < |entries| ==> LoadEntry(er, envelopes, entries[i]).Ok?
  }

  /** The record an entry stands for, once it loads. */
  function RecordOf(envelopes: map<string, Bytes>, e: IndexEntry): Record {
    var name := FileName(e.envelopeSha);
    Record(e.sourceId, SourceKind.Custody, if name in envelopes then envelopes[name] else "", e.provenance)
  }

  function RecordsOf(envelopes: map<string, Bytes>, entries: seq<IndexEntry>): seq<Record> {
    if entries == [] then []
    else RecordsOf(envelopes, entries[..|entries| - 1]) + [RecordOf(envelopes, entries[|entries| - 1])]
  }

  lemma SnocLoads(er: EnvelopeReader, envelopes: map<string, Bytes>, front: seq<IndexEntry>, last: IndexEntry)
    ensures AllLoad(er, envelopes, front + [last])
      <==> AllLoad(er, envelopes, front) && LoadEntry(er, envelopes, last).Ok?
  {
    var all := front + [last];
    assert all[|front|] == last && forall i :: 0 <= i < |front| ==> all[i] == front[i];
    if AllLoad(er, envelopes, all) {
      assert LoadEntry(er, envelopes, all[|front|]).Ok?;
      forall i | 0 <= i < |front| ensures LoadEntry(er, envelopes, front[i]).Ok? {
        assert LoadEntry(er, envelopes, all[i]).Ok?;
      }
    }
  }

  lemma {:induction false} LoadEntriesMeans(er: EnvelopeReader, envelopes: map<string, Bytes>, entries: seq<IndexEntry>)
    ensures LoadEntries(er, envelopes, entries).Ok? <==> AllLoad(er, envelopes, entries) && DistinctIds(entries)
    ensures LoadEntries(er, envelopes, entries).Ok? ==>
              LoadEntries(er, envelopes, entries).value == RecordsOf(envelopes, entries)
  {
    if entries != [] {
      var front, last := entries[..|entries| - 1], entries[|entries| - 1];
      assert entries == front + [last];
      LoadEntriesMeans(er, envelopes, front);
      SnocLoads(er, envelopes, front, last);
      DistinctIdsSnoc(front, last);
    }
  }

  /** An entry loads exactly when it has an id, names the file of its digest inside the custody, that file is there with
      the bytes of that digest, in canonical form, and the provenance, if any, is a whole commit. */
  lemma LoadEntryMeans(er: EnvelopeReader, envelopes: map<string, Bytes>, e: IndexEntry)
    ensures var file := e.envelopeSha + ".json"; var r := LoadEntry(er, envelopes, e);
      && (r.Ok? <==>
            && e.sourceId != "" && e.kind == SourceKind.Custody
            && e.path == RelPath(absolute := false, parts := ["envelopes", file])
            && file in envelopes && er.sha(envelopes[file]) == e.envelopeSha && er.canonical(envelopes[file])
            && (e.provenance.Some? ==> |e.provenance.value| == 40))
      && (r.Ok? ==> r.value == Record(sourceId := e.sourceId, kind := SourceKind.Custody, envelope := envelopes[file],
            provenance := e.provenance))
  {
    var file := e.envelopeSha + ".json";
    assert file[|file| - 1] == 'n';
    if |e.path.parts| == 2 { assert e.path.parts == [e.path.parts[0], e.path.parts[1]]; }
  }

  /** Custody loads exactly when there is no index, or a closed one of schema version 1 whose entries all load and have
      different ids. */
  lemma LoadCustodyMeans(er: EnvelopeReader, st: Store)
    ensures LoadCustody(er, st).Ok? <==>
      || st.index == Missing
      || (&& st.index.Index? && st.index.closed && st.index.schemaVersion == 1
          && AllLoad(er, st.envelopes, st.index.entries) && DistinctIds(st.index.entries))
    ensures LoadCustody(er, st).Ok? ==>
      && LoadCustody(er, st).value == RecordsOf(st.envelopes, EntriesOf(st.index))
      && AllLoad(er, st.envelopes, EntriesOf(st.index)) && DistinctIds(EntriesOf(st.index))
  {
    hide LoadEntries;
    if st.index.Index? { LoadEntriesMeans(er, st.envelopes, st.index.entries); }
  }

  /** Every record that loads is filed under the digest of its own bytes. */
  lemma {:induction false} LoadedAreFiled(er: EnvelopeReader, envelopes: map<string, Bytes>, entries: seq<IndexEntry>)
    requires LoadEntries(er, envelopes, entries).Ok?
    ensures forall r :: r in LoadEntries(er, envelopes, entries).value ==>
              && r.kind.Custody? && er.canonical(r.envelope)
              && FileName(er.sha(r.envelope)) in envelopes
              && envelopes[FileName(er.sha(r.envelope))] == r.envelope
  {
    if entries != [] { LoadedAreFiled(er, envelopes, entries[..|entries| - 1]); }
  }

  // ---- arrangements of entries -----------------------------------------------------------

  lemma DistinctIdsSnoc(front: seq<IndexEntry>, last: IndexEntry)
    ensures DistinctIds(front + [last]) <==> DistinctIds(front) && last.sourceId !in Ids(front)
  {
    var all := front + [last];
    assert all[|front|] == last && forall i :: 0 <= i < |front| ==> all[i] == front[i];
    if last.sourceId in Ids(front) {
      var e :| e in front && e.sourceId == last.sourceId;
      var i :| 0 <= i < |front| && front[i] == e;
      assert all[i].sourceId == all[|front|].sourceId;
    } else {
      forall i | 0 <= i < |front| ensures all[i].sourceId != last.sourceId { assert front[i] in front; }
    }
    if DistinctIds(all) {
      forall i, j | 0 <= i < j < |front| ensures front[i].sourceId != front[j].sourceId {
        assert all[i].sourceId != all[j].sourceId;
      }
    }
  }

  lemma {:induction false} DistinctIdsByCount(entries: seq<IndexEntry>)
    ensures |Ids(entries)| <= |entries|
    ensures DistinctIds(entries) <==> |Ids(entries)| == |entries|
  {
    if entries != [] {
      var front, last := entries[..|entries| - 1], entries[|entries| - 1];
      assert entries == front + [last];
      DistinctIdsByCount(front);
      IdsSnoc(front, last);
      DistinctIdsSnoc(front, last);
      if last.sourceId in Ids(front) { assert Ids(front) + {last.sourceId} == Ids(front); }
    }
  }

  lemma ByIdIsAnOrder()
    ensures Order(ById)
  {
    forall a, b ensures ById(a, b) || ById(b, a) { LeqTotal(a.sourceId, b.sourceId); }
    forall a, b, d | ById(a, b) && ById(b, d) ensures ById(a, d) { LeqTransitive(a.sourceId, b.sourceId, d.sourceId); }
  }

  lemma SortKeepsIds(entries: seq<IndexEntry>)
    ensures DistinctIds(Sort(entries, ById)) <==> DistinctIds(entries)
  {
    ByIdIsAnOrder();
    SortSorts(entries, ById);
    var sorted := Sort(entries, ById);
    assert |sorted| == |multiset(sorted)| == |entries|;
    forall e ensures e in sorted <==> e in entries { SortMember(entries, ById, e); }
    assert Ids(sorted) == Ids(entries);
    DistinctIdsByCount(sorted);
    DistinctIdsByCount(entries);
  }

  lemma SortKeepsLoads(er: EnvelopeReader, envelopes: map<string, Bytes>, entries: seq<IndexEntry>)
    ensures AllLoad(er, envelopes, Sort(entries, ById)) <==> AllLoad(er, envelopes, entries)
  {
    var sorted := Sort(entries, ById);
    if AllLoad(er, envelopes, entries) {
      forall i | 0 <= i < |sorted| ensures LoadEntry(er, envelopes, sorted[i]).Ok? {
        SortMember(entries, ById, sorted[i]);
        assert sorted[i] in entries;
      }
    }
    if AllLoad(er, envelopes, sorted) {
      forall i | 0 <= i < |entries| ensures LoadEntry(er, envelopes, entries[i]).Ok? {
        SortMember(entries, ById, entries[i]);
        assert entries[i] in sorted;
      }
    }
  }

  predicate RecordById(a: Record, b: Record) {
    Leq(a.sourceId, b.sourceId)
  }

  lemma {:induction false} RecordsOfIsMap(envelopes: map<string, Bytes>, entries: seq<IndexEntry>,
      f: IndexEntry -> Record)
    requires forall e :: f(e) == RecordOf(envelopes, e)
    ensures RecordsOf(envelopes, entries) == Map(f, entries)
  {
    if entries != [] {
      RecordsOfIsMap(envelopes, entries[..|entries| - 1], f);
      assert Map(f, entries) == Map(f, entries[..|entries| - 1]) + [f(entries[|entries| - 1])];
    }
  }

  lemma RecordsOfSorted(envelopes: map<string, Bytes>, entries: seq<IndexEntry>)
    ensures RecordsOf(envelopes, Sort(entries, ById)) == Sort(RecordsOf(envelopes, entries), RecordById)
  {
    var f := e => RecordOf(envelopes, e);
    RecordsOfIsMap(envelopes, entries, f);
    RecordsOfIsMap(envelopes, Sort(entries, ById), f);
    SortMap(f, entries, ById, RecordById);
  }

  lemma {:induction false} MoreFiles(er: EnvelopeReader, envelopes: map<string, Bytes>, more: map<string, Bytes>,
      entries: seq<IndexEntry>)
    requires AllLoad(er, envelopes, entries)
    requires forall n :: n in envelopes ==> n in more && more[n] == envelopes[n]
    ensures AllLoad(er, more, entries) && RecordsOf(more, entries) == RecordsOf(envelopes, entries)
  {
    forall i | 0 <= i < |entries| ensures LoadEntry(er, more, entries[i]).Ok? {
      assert LoadEntry(er, envelopes, entries[i]).Ok?;
    }
    if entries != [] {
      assert LoadEntry(er, envelopes, entries[|entries| - 1]).Ok?;
      MoreFiles(er, envelopes, more, entries[..|entries| - 1]);
    }
  }

  // ---- the round trip --------------------------------------------------------------------

  /** A record that custody can read back. */
  predicate Readable(r: Record) {
    r.sourceId != "" && (r.provenance.Some? ==> |r.provenance.value| == 40)
  }

  lemma {:induction false} FindEntryMeans(entries: seq<IndexEntry>, id: string)
    ensures FindEntry(entries, id).None? <==> forall e :: e in entries ==> e.sourceId != id
    ensures FindEntry(entries, id).Some? ==>
      FindEntry(entries, id).value in entries && FindEntry(entries, id).value.sourceId == id
  {
    if entries != [] {
      assert entries == [entries[0]] + entries[1..];
      FindEntryMeans(entries[1..], id);
    }
  }

  lemma SortedLoads(er: EnvelopeReader, envelopes: map<string, Bytes>, entries: seq<IndexEntry>)
    ensures LoadEntries(er, envelopes, Sort(entries, ById)).Ok?
      <==> AllLoad(er, envelopes, entries) && DistinctIds(entries)
    ensures LoadEntries(er, envelopes, Sort(entries, ById)).Ok? ==>
              LoadEntries(er, envelopes, Sort(entries, ById)).value == Sort(RecordsOf(envelopes, entries), RecordById)
  {
    LoadEntriesMeans(er, envelopes, Sort(entries, ById));
    SortKeepsIds(entries);
    SortKeepsLoads(er, envelopes, entries);
    RecordsOfSorted(envelopes, entries);
  }

  lemma NewEntryReadable(er: EnvelopeReader, more: map<string, Bytes>, r: Record)
    requires r.kind.Custody? && er.canonical(r.envelope)
    requires FileName(er.sha(r.envelope)) in more && more[FileName(er.sha(r.envelope))] == r.envelope
    ensures LoadEntry(er, more, NewEntry(er, r)).Ok? <==> Readable(r)
    ensures RecordOf(more, NewEntry(er, r)) == r
  {
    var parts := NewEntry(er, r).path.parts;
    assert parts == ["envelopes", FileName(er.sha(r.envelope))];
    assert parts[1] != "..";
  }

  /** The entries with a new one, over the files with its envelope. */
  lemma NewEntryLoads(er: EnvelopeReader, envelopes: map<string, Bytes>, more: map<string, Bytes>,
      entries: seq<IndexEntry>, r: Record)
    requires AllLoad(er, envelopes, entries) && DistinctIds(entries)
    requires FindEntry(entries, r.sourceId).None?
    requires r.kind.Custody? && er.canonical(r.envelope)
    requires more == envelopes[FileName(er.sha(r.envelope)) := r.envelope]
    requires FileName(er.sha(r.envelope)) in envelopes ==> envelopes[FileName(er.sha(r.envelope))] == r.envelope
    ensures var all := entries + [NewEntry(er, r)];
      && (AllLoad(er, more, all) && DistinctIds(all) <==> Readable(r))
      && RecordsOf(more, all) == RecordsOf(envelopes, entries) + [r]
  {
    var new' := NewEntry(er, r);
    var all := entries + [new'];
    FindEntryMeans(entries, r.sourceId);
    MoreFiles(er, envelopes, more, entries);
    SnocLoads(er, more, entries, new');
    DistinctIdsSnoc(entries, new');
    NewEntryReadable(er, more, r);
    assert all[..|entries|] == entries;
  }

  /** What a completed append of a new record has written. */
  lemma AppendWrites(cr: CustodyReader, st: Store, r: Record, expected: Option<Digest>, writes: nat)
    requires AppendCustody(cr, st, r, expected, writes).1.Done?
    requires FindEntry(EntriesOf(st.index), r.sourceId).None?
    ensures r.kind.Custody? && cr.er.canonical(r.envelope)
    ensures var name := FileName(cr.er.sha(r.envelope));
      && (name in st.envelopes ==> st.envelopes[name] == r.envelope)
      && AppendCustody(cr, st, r, expected, writes).0
         == Store(Index(true, 1, Sort(EntriesOf(st.index) + [NewEntry(cr.er, r)], ById)),
           st.envelopes[name := r.envelope])
  {}

  /** After a new record is appended, custody loads exactly when the record is readable, and then
      as the old records and this one in the order of their ids. */
  lemma AppendRoundTrip(cr: CustodyReader, st: Store, r: Record, expected: Option<Digest>, writes: nat)
    requires LoadCustody(cr.er, st).Ok?
    requires AppendCustody(cr, st, r, expected, writes).1.Done?
    requires FindEntry(EntriesOf(st.index), r.sourceId).None?
    ensures var after := LoadCustody(cr.er, AppendCustody(cr, st, r, expected, writes).0);
      && (after.Ok? <==> Readable(r))
      && (after.Ok? ==> after.value == Sort(LoadCustody(cr.er, st).value + [r], RecordById))
  {
    hide AppendCustody, LoadEntries, LoadEntry, Sort, FindEntry, RecordsOf, DistinctIds, AllLoad;
    AppendWrites(cr, st, r, expected, writes);
    LoadCustodyMeans(cr.er, st);
    var entries, more := EntriesOf(st.index), st.envelopes[FileName(cr.er.sha(r.envelope)) := r.envelope];
    NewEntryLoads(cr.er, st.envelopes, more, entries, r);
    SortedLoads(cr.er, more, entries + [NewEntry(cr.er, r)]);
  }

  const EMPTY := Store(Missing, map[])

  lemma FirstAppendCompletes(cr: CustodyReader, r: Record)
    requires r.kind.Custody? && cr.er.canonical(r.envelope)
    ensures AppendCustody(cr, EMPTY, r, None, 2).1.Done? && FindEntry(EntriesOf(EMPTY.index), r.sourceId).None?
    ensures LoadCustody(cr.er, EMPTY).Ok?
  {}

  /** A record without a source id is taken into an empty custody, which then loads no more. */
  lemma EmptySourceIdBlocks(cr: CustodyReader, envelope: Bytes)
    requires cr.er.canonical(envelope)
    ensures var (after, out) := AppendCustody(cr, EMPTY, Record("", SourceKind.Custody, envelope, None), None, 2);
      out.Done? && LoadCustody(cr.er, after).Err?
  {
    hide AppendCustody, LoadCustody;
    var r := Record("", SourceKind.Custody, envelope, None);
    FirstAppendCompletes(cr, r);
    AppendRoundTrip(cr, EMPTY, r, None, 2);
  }

  /** So is one with an abbreviated commit. */
  lemma ShortProvenanceBlocks(cr: CustodyReader, envelope: Bytes)
    requires cr.er.canonical(envelope)
    ensures var r := Record("custody-0007", SourceKind.Custody, envelope, Some("0a1b2c3"));
      var (after, out) := AppendCustody(cr, EMPTY, r, None, 2);
      out.Done? && LoadCustody(cr.er, after).Err?
  {
    hide AppendCustody, LoadCustody;
    var r := Record("custody-0007", SourceKind.Custody, envelope, Some("0a1b2c3"));
    FirstAppendCompletes(cr, r);
    AppendRoundTrip(cr, EMPTY, r, None, 2);
  }

  /** An append completes exactly for a custody record in canonical form, on the index whose digest it names, when
      its id is either known with the same digest and provenance, or new and the file of its digest is absent or its
      own. */
  lemma AppendCompletesIff(cr: CustodyReader, st: Store, r: Record, expected: Option<Digest>)
    requires DistinctIds(EntriesOf(st.index))
    ensures var sha := cr.er.sha(r.envelope);
      AppendCustody(cr, st, r, expected, 2).1.Done? <==>
        && r.kind == SourceKind.Custody && cr.er.canonical(r.envelope) && !st.index.Malformed?
        && expected == (if st.index == Missing then None else Some(cr.indexSha(st.index)))
        && (forall e :: e in EntriesOf(st.index) && e.sourceId == r.sourceId ==>
             e.envelopeSha == sha && e.provenance == r.provenance)
        && ((exists e :: e in EntriesOf(st.index) && e.sourceId == r.sourceId)
            || (sha + ".json" in st.envelopes ==> st.envelopes[sha + ".json"] == r.envelope))
  {
    var entries := EntriesOf(st.index);
    FindEntryMeans(entries, r.sourceId);
    if FindEntry(entries, r.sourceId).Some? {
      forall e | e in entries && e.sourceId == r.sourceId ensures e == FindEntry(entries, r.sourceId).value {
        SameIdSameEntry(entries, e, FindEntry(entries, r.sourceId).value);
      }
    }
  }

  lemma SameIdSameEntry(entries: seq<IndexEntry>, a: IndexEntry, b: IndexEntry)
    requires DistinctIds(entries) && a in entries && b in entries && a.sourceId == b.sourceId
    ensures a == b
  {
    var i :| 0 <= i < |entries| && entries[i] == a;
    var j :| 0 <= j < |entries| && entries[j] == b;
    assert i == j;
  }

  /** An append either dies before it has paid its cost, with the index untouched, or does what it
      would do uninterrupted. */
  lemma AppendBudget(cr: CustodyReader, st: Store, r: Record, expected: Option<Digest>, writes: nat)
    ensures CustodyCost(cr, st, r) <= 2
    ensures var (after, out) := AppendCustody(cr, st, r, expected, writes);
      if out.Crashed? then writes < CustodyCost(cr, st, r) && after.index == st.index
      else AppendCustody(cr, st, r, expected, 2) == (after, out)
    ensures writes >= CustodyCost(cr, st, r) ==> !AppendCustody(cr, st, r, expected, writes).1.Crashed?
  {}

  /** An append that leaves the index alone adds at most the file of its envelope. */
  lemma UnfiledShape(cr: CustodyReader, st: Store, r: Record, expected: Option<Digest>, writes: nat)
    requires var out := AppendCustody(cr, st, r, expected, writes).1;
      out.Done? ==> FindEntry(EntriesOf(st.index), r.sourceId).Some?
    ensures var after := AppendCustody(cr, st, r, expected, writes).0;
      && after.index == st.index
      && (after == st || after.envelopes == st.envelopes[FileName(cr.er.sha(r.envelope)) := r.envelope])
    ensures AppendCustody(cr, st, r, expected, writes).1.Done? ==> AppendCustody(cr, st, r, expected, writes).0 == st
  {}

  lemma FindInSorted(entries: seq<IndexEntry>, e: IndexEntry)
    requires FindEntry(entries, e.sourceId).None?
    ensures FindEntry(Sort(entries + [e], ById), e.sourceId) == Some(e)
  {
    var sorted := Sort(entries + [e], ById);
    FindEntryMeans(entries, e.sourceId);
    FindEntryMeans(sorted, e.sourceId);
    SortMember(entries + [e], ById, e);
    assert e in sorted;
    SortMember(entries + [e], ById, FindEntry(sorted, e.sourceId).value);
  }

  /** Repeating an append with the digest it returned does nothing and returns it again. */
  lemma AppendIsIdempotent(cr: CustodyReader, st: Store, r: Record, expected: Option<Digest>, writes: nat)
    requires AppendCustody(cr, st, r, expected, 2).1.Done?
    ensures var (after, done) := AppendCustody(cr, st, r, expected, 2);
      AppendCustody(cr, after, r, Some(done.value), writes) == (after, done)
  {
    var entries := EntriesOf(st.index);
    if FindEntry(entries, r.sourceId).None? { FindInSorted(entries, NewEntry(cr.er, r)); }
  }

  /** An append that does not complete leaves every record readable as it was; one that is refused,
      above all for a stale index digest, leaves the files alone; and one that dies can be repeated
      to the result it would have had. */
  lemma AppendInterrupted(cr: CustodyReader, st: Store, r: Record, expected: Option<Digest>, writes: nat)
    ensures var (after, out) := AppendCustody(cr, st, r, expected, writes);
      && (out.Raised? ==> after == st)
      && (expected != (if st.index.Missing? then None else Some(cr.indexSha(st.index))) ==> out.Raised?)
      && (out.Crashed? ==> AppendCustody(cr, after, r, expected, 2) == AppendCustody(cr, st, r, expected, 2))
      && (!out.Done? && LoadCustody(cr.er, st).Ok? ==> LoadCustody(cr.er, after) == LoadCustody(cr.er, st))
  {
    var (after, out) := AppendCustody(cr, st, r, expected, writes);
    hide LoadCustody, LoadEntries, LoadEntry, RecordsOf, DistinctIds;
    if out.Crashed? {
      assert after.index == st.index;
      LoadCustodyMeans(cr.er, st);
      LoadCustodyMeans(cr.er, after);
      if LoadCustody(cr.er, st).Ok? {
        MoreFiles(cr.er, st.envelopes, after.envelopes, EntriesOf(st.index));
      }
      assert after.envelopes[FileName(cr.er.sha(r.envelope)) := r.envelope]
        == st.envelopes[FileName(cr.er.sha(r.envelope)) := r.envelope];
    }
  }

  /** A refused append says why, and what it says is so. */
  lemma AppendCustodyRefusals(cr: CustodyReader, st: Store, r: Record, expected: Option<Digest>, writes: nat)
    ensures var out, sha := AppendCustody(cr, st, r, expected, writes).1, cr.er.sha(r.envelope);
      && (out == Raised(NotCustody) <==> r.kind != SourceKind.Custody)
      && (out == Raised(NotCanonical) ==> !cr.er.canonical(r.envelope))
      && (out == Raised(StaleIndex) ==> expected != if st.index == Missing then None else Some(cr.indexSha(st.index)))
      && (out == Raised(MalformedIndex) ==> st.index.Malformed?)
      && (out == Raised(ConflictingEntry) ==>
            exists e :: e in EntriesOf(st.index) && e.sourceId == r.sourceId
                          && (e.envelopeSha != sha || e.provenance != r.provenance))
      && (out == Raised(ConflictingEnvelope) ==>
            sha + ".json" in st.envelopes && st.envelopes[sha + ".json"] != r.envelope)
      && (out.Raised? ==> out.error in {NotCustody, NotCanonical, StaleIndex, MalformedIndex, ConflictingEntry,
            ConflictingEnvelope})
  {
    FindEntryMeans(EntriesOf(st.index), r.sourceId);
  }
}
