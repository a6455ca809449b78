/** The append-only, hash-chained sequence ledger: its records, the verification of a whole
    file, and the locked session that appends one event. */
module Ledger {
  import opened Prelude

  datatype Status = Reserved | Signed | Published | Failed | Retired | Unknown(name: string)

  function AllowedNext(s: Status): set<Status> {
    match s
    case Reserved => {Signed, Failed}
    case Signed => {Published, Failed}
    case Published => {Retired}
    case _ => {}
  }

  datatype Binding = Binding(sequence: int, releaseId: string, payloadSha: string, envelopeSha: Digest, keyId: string)

  datatype Genesis = Genesis(floor: Binding, floorProvenance: Option<string>, timestamp: string)

  datatype Event = Event(
    sequence: int, releaseId: string, status: Status, version: string, channel: string,
    sourceCommit: string, componentSet: string,
    payloadSha: Option<string>, envelopeSha: Option<string>, keyId: Option<string>,
    timestamp: string, previous: Digest)

  datatype VerifiedLedger = VerifiedLedger(genesis: Genesis, events: seq<Event>, head: Digest)

  /** What the reader makes of a canonical JSON body. OtherBody stands for any other record type,
      a missing field or a field that cannot be converted. */
  datatype Body =
    | GenesisBody(genesis: Genesis, hasPrevious: bool)
    | EventBody(event: Event)
    | OtherBody

  /** One line of the file. Garbage stands for an empty line, text that is not canonical JSON, and
      a document without a well-typed "body" and "entry_sha256"; further keys of the wrapper are
      not part of an Entry. */
  datatype Line = Garbage | Entry(body: Bytes, entrySha: Digest)

  /** SHA-256 and canonical JSON, both abstract. */
  datatype Codec = Codec(
    sha: Bytes -> Digest,
    parse: Bytes -> Body,
    dumpEvent: Event -> Bytes,
    dumpGenesis: Genesis -> Bytes)

  /** The only law of canonical JSON used here: reading back a record that was printed. */
  ghost predicate Faithful(c: Codec) {
    && (forall e :: c.parse(c.dumpEvent(e)) == EventBody(e))
    && (forall g :: c.parse(c.dumpGenesis(g)) == GenesisBody(g, false))
  }

  datatype LedgerError =
    | LockNotHeld | LockAlreadyHeld | AlreadyInitialised | StalePrevious | PreviousMismatch
    | EmptyLedger | MalformedLine | EntryDigestMismatch | NotGenesis | GenesisHasPrevious
    | NonPositiveFloor | NotEvent | ChainBroken
    | AtOrBelowFloor | UnknownStatus | FirstNotReserved | AllocationChanged | IllegalTransition
    | SignedFieldsMissing | SignedFieldsChanged

  // ---- the history of one sequence -------------------------------------------------------

  /** The events of one sequence, oldest first. */
  function OfSequence(events: seq<Event>, s: int): seq<Event> {
    if events == [] then []
    else
      var last := events[|events| - 1];
      OfSequence(events[..|events| - 1], s) + (if last.sequence == s then [last] else [])
  }

  predicate SameAllocation(a: Event, b: Event) {
    && a.releaseId == b.releaseId
    && a.version == b.version
    && a.channel == b.channel
    && a.sourceCommit == b.sourceCommit
    && a.componentSet == b.componentSet
  }

  datatype SignedFields = SignedFields(payloadSha: Option<string>, envelopeSha: Option<string>, keyId: Option<string>)

  function Fields(e: Event): SignedFields {
    SignedFields(e.payloadSha, e.envelopeSha, e.keyId)
  }

  predicate Truthy(x: Option<string>) {
    x.Some? && x.value != ""
  }

  predicate HasSignedFields(e: Event) {
    Truthy(e.payloadSha) && Truthy(e.envelopeSha) && Truthy(e.keyId)
  }

  function FirstSigned(h: seq<Event>): Option<SignedFields> {
    if h == [] then None
    else if h[0].status.Signed? then Some(Fields(h[0]))
    else FirstSigned(h[1..])
  }

  function LastSigned(h: seq<Event>): Option<SignedFields> {
    if h == [] then None
    else if h[|h| - 1].status.Signed? then Some(Fields(h[|h| - 1]))
    else LastSigned(h[..|h| - 1])
  }

  /** The checks of one event against the earlier events of its sequence that do not concern the
      signed fields. */
  function LifecycleError(h: seq<Event>, e: Event): Option<LedgerError> {
    if h == [] then
      if e.status.Reserved? then None else Some(FirstNotReserved)
    else if !SameAllocation(e, h[0]) then Some(AllocationChanged)
    else if e.status !in AllowedNext(h[|h| - 1].status) then Some(IllegalTransition)
    else None
  }

  /** What verification of a file finds wrong with one event. */
  function VerifyEvent(floor: int, h: seq<Event>, e: Event): Option<LedgerError> {
    if e.sequence <= floor then Some(AtOrBelowFloor)
    else if e.status.Unknown? then Some(UnknownStatus)
    else if LifecycleError(h, e).Some? then LifecycleError(h, e)
    else if e.status.Signed? && !HasSignedFields(e) then Some(SignedFieldsMissing)
    else
      var expected := if e.status.Signed? then Some(Fields(e)) else LastSigned(h);
      if expected.Some? && expected.value != Fields(e) then Some(SignedFieldsChanged) else None
  }

  /** What an append finds wrong with one event. */
  function AppendError(l: VerifiedLedger, e: Event, expected: Digest): Option<LedgerError> {
    var h := OfSequence(l.events, e.sequence);
    if expected != l.head then Some(StalePrevious)
    else if e.previous != expected then Some(PreviousMismatch)
    else if e.sequence <= l.genesis.floor.sequence then Some(AtOrBelowFloor)
    else if LifecycleError(h, e).Some? then LifecycleError(h, e)
    else if h != [] && FirstSigned(h).Some? && FirstSigned(h).value != Fields(e) then Some(SignedFieldsChanged)
    else if e.status.Signed? && !HasSignedFields(e) then Some(SignedFieldsMissing)
    else None
  }

  // ---- verification of a file ------------------------------------------------------------

  function VerifyGenesis(c: Codec, line: Line): Result<VerifiedLedger, LedgerError> {
    if line.Garbage? then Err(MalformedLine)
    else if line.entrySha != c.sha(line.body) then Err(EntryDigestMismatch)
    else
      match c.parse(line.body)
      case GenesisBody(g, hasPrevious) =>
        if hasPrevious then Err(GenesisHasPrevious)
        else if g.floor.sequence <= 0 then Err(NonPositiveFloor)
        else Ok(VerifiedLedger(g, [], line.entrySha))
      case _ => Err(NotGenesis)
  }

  function EventOf(c: Codec, head: Digest, line: Line): Result<Event, LedgerError> {
    if line.Garbage? then Err(MalformedLine)
    else if line.entrySha != c.sha(line.body) then Err(EntryDigestMismatch)
    else if !c.parse(line.body).EventBody? then Err(NotEvent)
    else if c.parse(line.body).event.previous != head then Err(ChainBroken)
    else Ok(c.parse(line.body).event)
  }

  function VerifyLine(c: Codec, l: VerifiedLedger, line: Line): Result<VerifiedLedger, LedgerError> {
    match EventOf(c, l.head, line)
    case Err(error) => Err(error)
    case Ok(e) =>
      var problem := VerifyEvent(l.genesis.floor.sequence, OfSequence(l.events, e.sequence), e);
      if problem.Some? then Err(problem.value)
      else Ok(VerifiedLedger(l.genesis, l.events + [e], line.entrySha))
  }

  /** Verification of a whole file, line by line; a failure is final. */
  function Verify(c: Codec, lines: seq<Line>): Result<VerifiedLedger, LedgerError> {
    if lines == [] then Err(EmptyLedger)
    else if |lines| == 1 then VerifyGenesis(c, lines[0])
    else
      match Verify(c, lines[..|lines| - 1])
      case Err(error) => Err(error)
      case Ok(l) => VerifyLine(c, l, lines[|lines| - 1])
  }

  lemma {:induction false} VerifyFailureIsFinal(c: Codec, lines: seq<Line>, i: nat)
    requires 0 < i <= |lines|
    requires Verify(c, lines[..i]).Err?
    ensures Verify(c, lines) == Verify(c, lines[..i])
    decreases |lines| - i
  {
    if i < |lines| {
      assert lines[..i + 1][..i] == lines[..i];
      VerifyFailureIsFinal(c, lines, i + 1);
    } else {
      assert lines[..i] == lines;
    }
  }

  ghost predicate VerifiedSoFar(c: Codec, lines: seq<Line>, i: nat, l: VerifiedLedger) {
    0 < i <= |lines| && Verify(c, lines[..i]) == Ok(l)
  }

  lemma VerifyFirst(c: Codec, lines: seq<Line>)
    requires lines != []
    ensures VerifyGenesis(c, lines[0]).Err? ==> Verify(c, lines) == VerifyGenesis(c, lines[0])
    ensures VerifyGenesis(c, lines[0]).Ok? ==> VerifiedSoFar(c, lines, 1, VerifyGenesis(c, lines[0]).value)
  {
    assert lines[..1] == [lines[0]];
    if VerifyGenesis(c, lines[0]).Err? { VerifyFailureIsFinal(c, lines, 1); }
  }

  lemma VerifyNext(c: Codec, lines: seq<Line>, i: nat, l: VerifiedLedger)
    requires i < |lines| && VerifiedSoFar(c, lines, i, l)
    ensures VerifyLine(c, l, lines[i]).Err? ==> Verify(c, lines) == VerifyLine(c, l, lines[i])
    ensures VerifyLine(c, l, lines[i]).Ok? ==> VerifiedSoFar(c, lines, i + 1, VerifyLine(c, l, lines[i]).value)
  {
    assert lines[..i + 1][..i] == lines[..i];
    if VerifyLine(c, l, lines[i]).Err? { VerifyFailureIsFinal(c, lines, i + 1); }
  }

  lemma VerifyLast(c: Codec, lines: seq<Line>, l: VerifiedLedger)
    requires VerifiedSoFar(c, lines, |lines|, l)
    ensures Verify(c, lines) == Ok(l)
  {
    assert lines[..|lines|] == lines;
  }

  /** Verification with two dictionaries filled along the way, as the reader of the file does it:
      the events seen of each sequence, and the fields each sequence was signed with. */
  method VerifyLedger(c: Codec, lines: seq<Line>) returns (r: Result<VerifiedLedger, LedgerError>)
    ensures r == Verify(c, lines)
  {
    if lines == [] { return Err(EmptyLedger); }
    VerifyFirst(c, lines);
    r := VerifyGenesis(c, lines[0]);
    if r.Err? { return; }
    var genesis, events, head := r.value.genesis, [], r.value.head;
    var eventsBySeq: map<int, seq<Event>> := map[];
    var signedFieldsBySeq: map<int, SignedFields> := map[];
    var i := 1;
    while i < |lines|
      invariant VerifiedSoFar(c, lines, i, VerifiedLedger(genesis, events, head))
      invariant Indexed(events, eventsBySeq, signedFieldsBySeq)
    {
      VerifyNext(c, lines, i, VerifiedLedger(genesis, events, head));
      var checked := CheckLine(c, genesis, events, head, eventsBySeq, signedFieldsBySeq, lines[i]);
      if checked.Err? { return Err(checked.error); }
      var e := checked.value;
      IndexedExtends(events, eventsBySeq, signedFieldsBySeq, e);
      if e.status.Signed? { signedFieldsBySeq := signedFieldsBySeq[e.sequence := Fields(e)]; }
      eventsBySeq := eventsBySeq[e.sequence := Lookup(eventsBySeq, e.sequence) + [e]];
      events, head := events + [e], lines[i].entrySha;
      i := i + 1;
    }
    VerifyLast(c, lines, VerifiedLedger(genesis, events, head));
    r := Ok(VerifiedLedger(genesis, events, head));
  }

  function Lookup(m: map<int, seq<Event>>, s: int): seq<Event> {
    if s in m then m[s] else []
  }

  function Find(m: map<int, SignedFields>, s: int): Option<SignedFields> {
    if s in m then Some(m[s]) else None
  }

  /** One later line: its wrapper and chain, then its event against the dictionaries. */
  method CheckLine(c: Codec, genesis: Genesis, events: seq<Event>, head: Digest,
                   eventsBySeq: map<int, seq<Event>>, signedFieldsBySeq: map<int, SignedFields>, line: Line)
    returns (r: Result<Event, LedgerError>)
    requires Indexed(events, eventsBySeq, signedFieldsBySeq)
    ensures r.Ok? ==> line.Entry?
    ensures VerifyLine(c, VerifiedLedger(genesis, events, head), line)
            == if r.Err? then Err(r.error) else Ok(VerifiedLedger(genesis, events + [r.value], line.entrySha))
  {
    r := ReadEvent(c, head, line);
    if r.Err? { return; }
    var e := r.value;
    assert IndexedAt(events, eventsBySeq, signedFieldsBySeq, e.sequence);
    var problem := CheckEvent(genesis.floor.sequence, Lookup(eventsBySeq, e.sequence), signedFieldsBySeq, e);
    if problem.Some? { return Err(problem.value); }
  }

  /** The dictionaries say of a sequence what the events say. */
  ghost predicate IndexedAt(events: seq<Event>, eventsBySeq: map<int, seq<Event>>,
      signedFieldsBySeq: map<int, SignedFields>, s: int)
  {
    && Lookup(eventsBySeq, s) == OfSequence(events, s)
    && Find(signedFieldsBySeq, s) == LastSigned(OfSequence(events, s))
  }

  ghost predicate Indexed(events: seq<Event>, eventsBySeq: map<int, seq<Event>>,
      signedFieldsBySeq: map<int, SignedFields>)
  {
    forall s :: IndexedAt(events, eventsBySeq, signedFieldsBySeq, s)
  }

  lemma {:induction false} OfSequenceMembers(events: seq<Event>, s: int)
    ensures forall e :: e in OfSequence(events, s) <==> e in events && e.sequence == s
  {
    if events != [] { OfSequenceMembers(events[..|events| - 1], s); }
  }

  lemma {:induction false} OfSequenceEmpty(events: seq<Event>, s: int)
    requires forall e :: e in events ==> e.sequence != s
    ensures OfSequence(events, s) == []
  {
    if events != [] { OfSequenceEmpty(events[..|events| - 1], s); }
  }

  lemma OfSequenceSnoc(events: seq<Event>, e: Event, s: int)
    ensures OfSequence(events + [e], s) == OfSequence(events, s) + (if e.sequence == s then [e] else [])
  {
    assert (events + [e])[..|events|] == events;
  }

  lemma IndexedExtendsAt(events: seq<Event>, eventsBySeq: map<int, seq<Event>>,
      signedFieldsBySeq: map<int, SignedFields>, e: Event, s: int)
    requires IndexedAt(events, eventsBySeq, signedFieldsBySeq, s)
    ensures IndexedAt(events + [e],
              eventsBySeq[e.sequence := Lookup(eventsBySeq, e.sequence) + [e]],
              if e.status.Signed? then signedFieldsBySeq[e.sequence := Fields(e)] else signedFieldsBySeq, s)
  {
    OfSequenceSnoc(events, e, s);
    var h := OfSequence(events, s);
    if e.sequence == s {
      assert (h + [e])[..|h|] == h && (h + [e])[|h|] == e;
    } else {
      assert h + [] == h;
    }
  }

  lemma IndexedExtends(events: seq<Event>, eventsBySeq: map<int, seq<Event>>, signedFieldsBySeq: map<int, SignedFields>,
      e: Event)
    requires Indexed(events, eventsBySeq, signedFieldsBySeq)
    ensures Indexed(events + [e],
              eventsBySeq[e.sequence := Lookup(eventsBySeq, e.sequence) + [e]],
              if e.status.Signed? then signedFieldsBySeq[e.sequence := Fields(e)] else signedFieldsBySeq)
  {
    var bySeq := eventsBySeq[e.sequence := Lookup(eventsBySeq, e.sequence) + [e]];
    var signed := if e.status.Signed? then signedFieldsBySeq[e.sequence := Fields(e)] else signedFieldsBySeq;
    forall s ensures IndexedAt(events + [e], bySeq, signed, s) {
      IndexedExtendsAt(events, eventsBySeq, signedFieldsBySeq, e, s);
    }
  }

  /** The wrapper of a later line: well-formed, with the digest of its body, chained to the head. */
  method ReadEvent(c: Codec, head: Digest, line: Line) returns (r: Result<Event, LedgerError>)
    ensures r == EventOf(c, head, line)
  {
    if line.Garbage? { return Err(MalformedLine); }
    if line.entrySha != c.sha(line.body) { return Err(EntryDigestMismatch); }
    var body := c.parse(line.body);
    if !body.EventBody? { return Err(NotEvent); }
    if body.event.previous != head { return Err(ChainBroken); }
    r := Ok(body.event);
  }

  /** One event against the two dictionaries. The entry for its own sequence is written before it
      is compared, so a SIGNED event is compared with itself. */
  method CheckEvent(floor: int, history: seq<Event>, signedFieldsBySeq: map<int, SignedFields>, e: Event)
    returns (problem: Option<LedgerError>)
    requires Find(signedFieldsBySeq, e.sequence) == LastSigned(history)
    ensures problem == VerifyEvent(floor, history, e)
  {
    if e.sequence <= floor { return Some(AtOrBelowFloor); }
    if e.status.Unknown? { return Some(UnknownStatus); }
    problem := LifecycleError(history, e);
    if problem.Some? { return; }
    var signed := signedFieldsBySeq;
    if e.status.Signed? {
      if !HasSignedFields(e) { return Some(SignedFieldsMissing); }
      signed := signed[e.sequence := Fields(e)];
    }
    if e.sequence in signed && signed[e.sequence] != Fields(e) { return Some(SignedFieldsChanged); }
    problem := None;
  }

  // ---- the locked session ----------------------------------------------------------------

  function EventLine(c: Codec, e: Event): Line {
    Entry(c.dumpEvent(e), c.sha(c.dumpEvent(e)))
  }

  function GenesisLine(c: Codec, g: Genesis): Line {
    Entry(c.dumpGenesis(g), c.sha(c.dumpGenesis(g)))
  }

  /** The outcome of an append to a file: the new content and the digest of the new entry. */
  function Append(c: Codec, lines: seq<Line>, e: Event, expected: Digest): Result<(seq<Line>, Digest), LedgerError> {
    match Verify(c, lines)
    case Err(error) => Err(error)
    case Ok(l) =>
      var problem := AppendError(l, e, expected);
      if problem.Some? then Err(problem.value)
      else Ok((lines + [EventLine(c, e)], EventLine(c, e).entrySha))
  }

  class SequenceAuthoritySession {
    var lines: seq<Line>
    var isLocked: bool

    constructor (lines: seq<Line>)
      ensures this.lines == lines && !isLocked
    {
      this.lines := lines;
      isLocked := false;
    }

    method ReadVerified(c: Codec) returns (r: Result<VerifiedLedger, LedgerError>)
      ensures r == if isLocked then Verify(c, lines) else Err(LockNotHeld)
    {
      if !isLocked { return Err(LockNotHeld); }
      r := VerifyLedger(c, lines);
    }

    /** Appends one event to the file, or leaves the file as it is. */
    method AppendEvent(c: Codec, e: Event, expected: Digest) returns (r: Result<Digest, LedgerError>)
      modifies this`lines
      ensures !isLocked ==> r == Err(LockNotHeld) && lines == old(lines)
      ensures isLocked ==>
        match Append(c, old(lines), e, expected)
        case Err(error) => r == Err(error) && lines == old(lines)
        case Ok(done) => r == Ok(done.1) && lines == done.0
    {
      if !isLocked { return Err(LockNotHeld); }
      var verified := ReadVerified(c);
      if verified.Err? { return Err(verified.error); }
      var ledger := verified.value;
      if expected != ledger.head { return Err(StalePrevious); }
      if e.previous != expected { return Err(PreviousMismatch); }
      if e.sequence <= ledger.genesis.floor.sequence { return Err(AtOrBelowFloor); }
      var seqEvents := OfSequence(ledger.events, e.sequence);
      var problem := LifecycleError(seqEvents, e);
      if problem.Some? { return Err(problem.value); }
      if seqEvents != [] {
        var signed := FirstSigned(seqEvents);
        if signed.Some? && signed.value != Fields(e) { return Err(SignedFieldsChanged); }
      }
      if e.status.Signed? && !HasSignedFields(e) { return Err(SignedFieldsMissing); }
      var body := c.dumpEvent(e);
      var entrySha := c.sha(body);
      lines := lines + [Entry(body, entrySha)];
      r := Ok(entrySha);
    }

    /** Writes the first record of an empty file, or leaves the file as it is. */
    method InitializeGenesis(c: Codec, g: Genesis, hasPrevious: bool) returns (r: Result<Digest, LedgerError>)
      modifies this`lines
      ensures r.Ok? <==> isLocked && old(lines) == [] && !hasPrevious && g.floor.sequence > 0
      ensures r.Ok? ==> lines == [GenesisLine(c, g)] && r.value == GenesisLine(c, g).entrySha
      ensures r.Err? ==> lines == old(lines)
      ensures r.Ok? && Faithful(c) ==> Verify(c, lines) == Ok(VerifiedLedger(g, [], r.value))
    {
      if !isLocked { return Err(LockNotHeld); }
      if lines != [] { return Err(AlreadyInitialised); }
      if hasPrevious { return Err(GenesisHasPrevious); }
      if g.floor.sequence <= 0 { return Err(NonPositiveFloor); }
      var body := c.dumpGenesis(g);
      lines := [Entry(body, c.sha(body))];
      r := Ok(c.sha(body));
    }
  }

  // ---- the latest event of a sequence ----------------------------------------------------

  function Latest(events: seq<Event>, s: int): Option<Event> {
    if events == [] then None
    else if events[|events| - 1].sequence == s then Some(events[|events| - 1])
    else Latest(events[..|events| - 1], s)
  }

  method LatestSequenceState(events: seq<Event>, s: int) returns (r: Option<Event>)
    ensures r == Latest(events, s)
  {
    var i := |events|;
    assert events[..i] == events;
    while i > 0
      invariant 0 <= i <= |events|
      invariant Latest(events, s) == Latest(events[..i], s)
    {
      i := i - 1;
      assert events[..i + 1][..i] == events[..i];
      if events[i].sequence == s { return Some(events[i]); }
    }
    r := None;
  }

  lemma {:induction false} LatestIsLastOfSequence(events: seq<Event>, s: int)
    ensures var h := OfSequence(events, s);
      Latest(events, s) == if h == [] then None else Some(h[|h| - 1])
  {
    if events != [] {
      LatestIsLastOfSequence(events[..|events| - 1], s);
    }
  }
}
