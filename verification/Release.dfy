/** The protocol that moves a release through the ledger: bootstrap, reserve, sign, publish and
    supersede. Every action works on three stores, and may die after any of its writes. */
module Release {
  import opened Prelude
  import opened Text
  import opened Ledger
  import opened Reconcile
  import opened History
  import opened Custody

  datatype Env = Env(c: Codec, cr: CustodyReader)

  /** The number of store writes of an action that is never interrupted. */
  const UNINTERRUPTED: nat := 4

  datatype Allocation = Allocation(
    sequence: int, releaseId: string, entrySha: Digest, componentSet: string,
    bindingsSha: Digest, snapshotSha: Digest)

  /** The stores: the ledger file, custody, the live channel; and the allocations handed out. */
  datatype World = World(ledger: seq<Line>, custody: Store, live: seq<Record>, issued: seq<Allocation>)

  datatype ReleaseError =
    | LedgerFailure(ledger: LedgerError)
    | CustodyFailure(custody: CustodyError)
    | LoadFailure(load: LoadError)
    | ReconcileFailure(reconcile: ReconcileError)
    | NotInitialised | EvidenceMissing | EvidenceChanged | ReadbackMismatch
    | RecoveryPending | AllocationMismatch | PayloadMismatch | NoReservation
    | AlreadyAuthenticated | Overtaken | SignerFailure | EnvelopeRejected | UnexpectedRecovery
    | CustodyEnvelopeMissing | BindingMismatch | ArgumentsRejected | NoAllocation | NotSigned
    | StagingFailure | PublicReleaseMismatch | PromotionUnconfirmed | NotLive
    | InvalidRequest | StaleHead | Terminal | AlreadyLive | NextUnusedStuck

  // ---- reading the stores ----------------------------------------------------------------

  datatype Checked = Checked(ledger: VerifiedLedger, snapshot: Snapshot, authority: Authority)

  function FreshHistory(env: Env, w: World): Result<Snapshot, ReleaseError> {
    match LoadCustody(env.cr.er, w.custody)
    case Err(error) => Err(CustodyFailure(error))
    case Ok(records) =>
      match Load(env.cr.er, records + w.live)
      case Err(error) => Err(LoadFailure(error))
      case Ok(s) => Ok(s)
  }

  /** Verified ledger, fresh history, and their reconciliation. */
  function Check(env: Env, w: World): Result<Checked, ReleaseError> {
    match Verify(env.c, w.ledger)
    case Err(error) => Err(LedgerFailure(error))
    case Ok(l) =>
      match FreshHistory(env, w)
      case Err(error) => Err(error)
      case Ok(s) =>
        match ReconcileLedger(l, s)
        case Err(error) => Err(ReconcileFailure(error))
        case Ok(a) => Ok(Checked(l, s, a))
  }

  /** Appends to the ledger under the lock and reads the file back. */
  function AppendReadBack(env: Env, w: World, e: Event, expected: Digest, writes: nat)
    : (World, Outcome<Digest, ReleaseError>)
  {
    match Append(env.c, w.ledger, e, expected)
    case Err(error) => (w, Raised(LedgerFailure(error)))
    case Ok((lines, digest)) =>
      if writes == 0 then (w, Crashed)
      else if writes == 1 then (w.(ledger := lines), Crashed)
      else
        match Verify(env.c, lines)
        case Err(error) => (w.(ledger := lines), Raised(LedgerFailure(error)))
        case Ok(l) => (w.(ledger := lines), if l.head == digest then Done(digest) else Raised(ReadbackMismatch))
  }

  // ---- bootstrap -------------------------------------------------------------------------

  function Bootstrap(env: Env, w: World, floor: Binding, provenance: Option<string>, timestamp: string)
    : (World, Outcome<Genesis, ReleaseError>)
  {
    if w.ledger != [] then
      match Verify(env.c, w.ledger)
      case Err(error) => (w, Raised(LedgerFailure(error)))
      case Ok(l) =>
        (w, if l.genesis.floor != floor || l.genesis.floorProvenance != provenance then Raised(EvidenceChanged)
          else Done(l.genesis))
    else
      match FreshHistory(env, w)
      case Err(error) => (w, Raised(error))
      case Ok(s) =>
        if floor.sequence !in s.bindings then (w, Raised(EvidenceMissing))
        else if s.bindings[floor.sequence] != floor || s.highest != floor.sequence
          || (if floor.sequence in s.provenance then Some(s.provenance[floor.sequence]) else None) != provenance
        then (w, Raised(EvidenceChanged))
        else if floor.sequence <= 0 then (w, Raised(LedgerFailure(NonPositiveFloor)))
        else
          var genesis := Genesis(floor, provenance, timestamp);
          var after := w.(ledger := [GenesisLine(env.c, genesis)]);
          match Verify(env.c, after.ledger)
          case Err(error) => (after, Raised(LedgerFailure(error)))
          case Ok(l) => (after, if l.genesis == genesis then Done(genesis) else Raised(ReadbackMismatch))
  }

  // ---- reserve ---------------------------------------------------------------------------

  /** What reserve is asked for. `name` names the release, as in "v1.4.0". */
  datatype Target = Target(name: string, sourceCommit: string, componentSet: string)

  /** Python's lstrip("v"). */
  function VersionOf(name: string): string {
    if name != "" && name[0] == 'v' then VersionOf(name[1..]) else name
  }

  lemma {:induction false} VersionOfMeans(name: string)
    ensures var version := VersionOf(name);
      && |version| <= |name| && name[|name| - |version|..] == version
      && (forall i :: 0 <= i < |name| - |version| ==> name[i] == 'v')
      && (version != "" ==> version[0] != 'v')
  {
    if name != "" && name[0] == 'v' { VersionOfMeans(name[1..]); }
  }

  function ReleaseId(n: int): string {
    "stable-" + Format04(n)
  }

  function ReservedEvent(n: int, t: Target, timestamp: string, head: Digest): Event {
    Event(n, ReleaseId(n), Reserved, VersionOf(t.name), "stable", t.sourceCommit, t.componentSet, None, None, None,
      timestamp, head)
  }

  function Reserve(env: Env, w: World, t: Target, timestamp: string, writes: nat)
    : (World, Outcome<Allocation, ReleaseError>)
  {
    if w.ledger == [] then (w, Raised(NotInitialised))
    else
      match Check(env, w)
      case Err(error) => (w, Raised(error))
      case Ok(ch) =>
        if ch.authority.recovery != NoRecovery then (w, Raised(RecoveryPending))
        else
          var n := ch.authority.nextUnused;
          var (after, out) := AppendReadBack(env, w, ReservedEvent(n, t, timestamp, ch.ledger.head), ch.ledger.head,
            writes);
          match out
          case Raised(error) => (after, Raised(error))
          case Crashed => (after, Crashed)
          case Done(digest) =>
            var allocation := Allocation(n, ReleaseId(n), digest, t.componentSet, ch.authority.bindingsSha,
              ch.authority.snapshotSha);
            (after.(issued := after.issued + [allocation]), Done(allocation))
  }

  // ---- sign ------------------------------------------------------------------------------

  datatype Unsigned = Unsigned(sequence: int, releaseId: string, componentSet: string, payloadSha: string,
      payload: Option<Bytes>)

  /** What the signer and the assembly of the envelope come to. The envelope is in canonical form. */
  datatype Signer = NoSigner | SignerFails | Signs(envelope: Bytes)

  datatype SignResult =
    | SigningRequired(payloadSha: string)
    | SignedEvidence(sequence: int, releaseId: string, componentSet: string, payloadSha: string, envelopeSha: Digest,
        keyId: string)

  datatype SignRequest = SignRequest(allocation: Allocation, unsigned: Unsigned, productionKey: string,
      timestamp: string)

  function FindReserved(events: seq<Event>, n: int): Option<Event> {
    if events == [] then None
    else if events[0].sequence == n && events[0].status.Reserved? then Some(events[0])
    else FindReserved(events[1..], n)
  }

  /** An envelope is the one asked for: signed by the production key, for this allocation and payload. */
  predicate EnvelopeMatches(er: EnvelopeReader, bytes: Bytes, q: SignRequest) {
    var v := er.verify(bytes);
    && v.Some? && v.value.keyId == q.productionKey
    && v.value.sequence == q.allocation.sequence && v.value.releaseId == q.allocation.releaseId
    && v.value.payloadSha == q.unsigned.payloadSha
  }

  function SignedEventOf(reserved: Event, q: SignRequest, envelopeSha: Digest, head: Digest): Event {
    Event(q.allocation.sequence, q.allocation.releaseId, Signed, reserved.version, reserved.channel,
      reserved.sourceCommit,
      q.unsigned.componentSet, Some(q.unsigned.payloadSha), Some(envelopeSha), Some(q.productionKey), q.timestamp, head)
  }

  function EvidenceOf(q: SignRequest, envelopeSha: Digest): (r: SignResult)
    ensures r.SignedEvidence?
  {
    SignedEvidence(q.allocation.sequence, q.allocation.releaseId, q.unsigned.componentSet, q.unsigned.payloadSha,
      envelopeSha, q.productionKey)
  }

  function AppendSigned(env: Env, w: World, reserved: Event, q: SignRequest, envelopeSha: Digest, head: Digest,
      writes: nat)
    : (World, Outcome<SignResult, ReleaseError>)
  {
    var (after, out) := AppendReadBack(env, w, SignedEventOf(reserved, q, envelopeSha, head), head, writes);
    match out
    case Raised(error) => (after, Raised(error))
    case Crashed => (after, Crashed)
    case Done(_) => (after, Done(EvidenceOf(q, envelopeSha)))
  }

  /** Recovery: custody already holds the signed envelope. */
  function SignRecovered(env: Env, w: World, ch: Checked, reserved: Event, q: SignRequest, writes: nat)
    : (World, Outcome<SignResult, ReleaseError>)
  {
    var n := q.allocation.sequence;
    if n !in ch.snapshot.bindings then (w, Raised(BindingMismatch))
    else
      var b := ch.snapshot.bindings[n];
      var name := FileName(b.envelopeSha);
      if name !in w.custody.envelopes then (w, Raised(CustodyEnvelopeMissing))
      else if env.cr.er.sha(w.custody.envelopes[name]) != b.envelopeSha
        || !EnvelopeMatches(env.cr.er, w.custody.envelopes[name], q) || b.keyId != q.productionKey
      then (w, Raised(EnvelopeRejected))
      else AppendSigned(env, w, reserved, q, b.envelopeSha, ch.ledger.head, writes)
  }

  function CustodyRecordOf(reserved: Event, q: SignRequest, envelope: Bytes): Record {
    Record("custody-" + Format04(q.allocation.sequence), SourceKind.Custody, envelope, Some(reserved.sourceCommit))
  }

  function CurrentIndexSha(env: Env, st: Store): Option<Digest> {
    if st.index.Missing? then None else Some(env.cr.indexSha(st.index))
  }

  /** The normal path: sign, file the envelope in custody, then record it in the ledger. */
  function SignFresh(env: Env, w: World, reserved: Event, q: SignRequest, envelope: Bytes, writes: nat)
    : (World, Outcome<SignResult, ReleaseError>)
  {
    if !EnvelopeMatches(env.cr.er, envelope, q) then (w, Raised(EnvelopeRejected))
    else
      var record, sha := CustodyRecordOf(reserved, q, envelope), env.cr.er.sha(envelope);
      var (custody, out) := AppendCustody(env.cr, w.custody, record, CurrentIndexSha(env, w.custody), writes);
      var filed := w.(custody := custody);
      match out
      case Raised(error) => (filed, Raised(CustodyFailure(error)))
      case Crashed => (filed, Crashed)
      case Done(_) =>
        if FileName(sha) !in custody.envelopes then (filed, Raised(CustodyEnvelopeMissing))
        else
          match Check(env, filed)
          case Err(error) => (filed, Raised(error))
          case Ok(ch) =>
            if ch.authority.recovery != SignedAppendRequired(q.allocation.sequence) then
              (filed, Raised(UnexpectedRecovery))
            else
              var cost := CustodyCost(env.cr, w.custody, record);
              AppendSigned(env, filed, reserved, q, sha, ch.ledger.head, if writes < cost then 0 else writes - cost)
  }

  predicate SameAllocationAndPayload(er: EnvelopeReader, q: SignRequest) {
    && q.allocation.sequence == q.unsigned.sequence
    && q.allocation.releaseId == q.unsigned.releaseId
    && q.allocation.componentSet == q.unsigned.componentSet
    && q.unsigned.payload.Some? && er.sha(q.unsigned.payload.value) == q.unsigned.payloadSha
  }

  function Sign(env: Env, w: World, q: SignRequest, signer: Signer, writes: nat)
    : (World, Outcome<SignResult, ReleaseError>)
  {
    if !SameAllocationAndPayload(env.cr.er, q) then (w, Raised(AllocationMismatch))
    else if w.ledger == [] then (w, Raised(NotInitialised))
    else
      match Check(env, w)
      case Err(error) => (w, Raised(error))
      case Ok(ch) =>
        var n, reserved := q.allocation.sequence, FindReserved(ch.ledger.events, q.allocation.sequence);
        if reserved.None? then (w, Raised(NoReservation))
        else if ch.authority.recovery == SignedAppendRequired(n) then
          SignRecovered(env, w, ch, reserved.value, q, writes)
        else if ch.authority.recovery != NoRecovery then (w, Raised(RecoveryPending))
        else if ch.authority.highestAuthenticated >= n then (w, Raised(AlreadyAuthenticated))
        else if ch.authority.highestConsumed > n || ch.authority.nextUnused > n + 1 then (w, Raised(Overtaken))
        else
          match signer
          case NoSigner => (w, Done(SigningRequired(q.unsigned.payloadSha)))
          case SignerFails => (w, Raised(SignerFailure))
          case Signs(envelope) => SignFresh(env, w, reserved.value, q, envelope, writes)
  }

  // ---- publish ---------------------------------------------------------------------------

  datatype SignedBinding = SignedBinding(
    sequence: int, releaseId: string, componentSet: string, payloadSha: string, envelopeSha: Digest, keyId: string)

  /** The answers of the outside world: the checks of the arguments and the staged files, the
      staging and verification of the draft, the confirmation that the draft was promoted, and, in
      recovery, the read-back of the public release. */
  datatype Gates = Gates(arguments: bool, staging: bool, promoted: bool, publicRelease: bool)

  datatype PublishRequest = PublishRequest(binding: SignedBinding, manifest: Bytes, tag: string, gates: Gates,
      timestamp: string)

  datatype PublishResult = PublishResult(recovered: bool, entrySha: Digest)

  predicate BindingAgrees(s: Snapshot, b: SignedBinding) {
    && b.sequence in s.bindings
    && var a := s.bindings[b.sequence];
    a.releaseId == b.releaseId && a.payloadSha == b.payloadSha && a.envelopeSha == b.envelopeSha && a.keyId == b.keyId
  }

  predicate StateAgrees(state: Event, b: SignedBinding) {
    && state.releaseId == b.releaseId && state.payloadSha == Some(b.payloadSha)
    && state.envelopeSha == Some(b.envelopeSha) && state.keyId == Some(b.keyId)
    && state.componentSet == b.componentSet
  }

  predicate ManifestAgrees(er: EnvelopeReader, q: PublishRequest) {
    var v := er.verify(q.manifest);
    && er.sha(q.manifest) == q.binding.envelopeSha
    && v.Some? && v.value.sequence == q.binding.sequence && v.value.releaseId == q.binding.releaseId
  }

  function PublishedEventOf(state: Event, q: PublishRequest, head: Digest): Event {
    var b := q.binding;
    Event(b.sequence, b.releaseId, Published, state.version, state.channel, state.sourceCommit, state.componentSet,
      Some(b.payloadSha), Some(b.envelopeSha), Some(b.keyId), q.timestamp, head)
  }

  function AppendPublished(env: Env, w: World, state: Event, q: PublishRequest, recovered: bool, head: Digest,
      writes: nat)
    : (World, Outcome<PublishResult, ReleaseError>)
  {
    var (after, out) := AppendReadBack(env, w, PublishedEventOf(state, q, head), head, writes);
    match out
    case Raised(error) => (after, Raised(error))
    case Crashed => (after, Crashed)
    case Done(digest) => (after, Done(PublishResult(recovered, digest)))
  }

  function LiveRecordOf(q: PublishRequest): Record {
    Record(q.tag, LiveUpdates, q.manifest, None)
  }

  /** The normal path: stage, promote, see the release live, then record it in the ledger. */
  function PublishFresh(env: Env, w: World, state: Event, q: PublishRequest, head: Digest, writes: nat)
    : (World, Outcome<PublishResult, ReleaseError>)
  {
    if !q.gates.staging then (w, Raised(StagingFailure))
    else if writes == 0 then (w, Crashed)
    else
      var promoted := w.(live := w.live + [LiveRecordOf(q)]);
      if !q.gates.promoted then (promoted, Raised(PromotionUnconfirmed))
      else
        match FreshHistory(env, promoted)
        case Err(error) => (promoted, Raised(error))
        case Ok(s) =>
          if q.binding.sequence !in s.live then (promoted, Raised(NotLive))
          else if !BindingAgrees(s, q.binding) then (promoted, Raised(BindingMismatch))
          else AppendPublished(env, promoted, state, q, false, head, writes - 1)
  }

  function Publish(env: Env, w: World, q: PublishRequest, writes: nat): (World, Outcome<PublishResult, ReleaseError>) {
    var b := q.binding;
    if !q.gates.arguments || !ManifestAgrees(env.cr.er, q) then (w, Raised(ArgumentsRejected))
    else if w.ledger == [] then (w, Raised(NotInitialised))
    else
      match Check(env, w)
      case Err(error) => (w, Raised(error))
      case Ok(ch) =>
        var state := Latest(ch.ledger.events, b.sequence);
        if state.None? then (w, Raised(NoAllocation))
        else if !state.value.status.Signed? then (w, Raised(NotSigned))
        else if !StateAgrees(state.value, b) then (w, Raised(BindingMismatch))
        else if ch.authority.highestAuthenticated > b.sequence || ch.authority.highestConsumed > b.sequence then
          (w, Raised(Overtaken))
        else if b.sequence in ch.snapshot.live then
          if ch.authority.recovery != PublishedAppendRequired(b.sequence) then (w, Raised(RecoveryPending))
          else if !BindingAgrees(ch.snapshot, b) then (w, Raised(BindingMismatch))
          else if !q.gates.publicRelease then (w, Raised(PublicReleaseMismatch))
          else AppendPublished(env, w, state.value, q, true, ch.ledger.head, writes)
        else if ch.authority.recovery != NoRecovery then (w, Raised(RecoveryPending))
        else PublishFresh(env, w, state.value, q, ch.ledger.head, writes)
  }

  // ---- supersede -------------------------------------------------------------------------

  datatype SupersedeRequest = SupersedeRequest(
    sequence: int, releaseId: string, sourceCommit: string, componentSet: string, payloadSha: string,
    envelopeSha: Digest, head: Digest, specCommit: string)

  predicate ValidRequest(q: SupersedeRequest) {
    && q.sequence > 0 && q.releaseId != "" && |q.sourceCommit| == 40
    && (|q.componentSet| == 32 || |q.componentSet| == 64)
    && |q.payloadSha| == 64 && |q.envelopeSha| == 64 && |q.head| == 64 && 7 <= |q.specCommit| <= 40
  }

  datatype Supersession = Supersession(event: Event, proposedSha: Digest, head: Digest, nextUnused: int,
      authority: Authority)

  function FailedEventOf(signed: Event, timestamp: string, head: Digest): Event {
    signed.(status := Status.Failed, timestamp := timestamp, previous := head)
  }

  /** Everything a supersession decides, without touching the ledger. */
  function PrepareSupersession(env: Env, l: VerifiedLedger, s: Snapshot, q: SupersedeRequest, timestamp: string)
    : Result<Supersession, ReleaseError>
  {
    var state := Latest(l.events, q.sequence);
    if !ValidRequest(q) then Err(InvalidRequest)
    else if l.head != q.head then Err(StaleHead)
    else if state.None? then Err(NoAllocation)
    else if !state.value.status.Signed? then
      Err(if state.value.status.Reserved? || state.value.status.Unknown? then NotSigned else Terminal)
    else
      var signed := state.value;
      if signed.releaseId != q.releaseId || signed.sourceCommit != q.sourceCommit
        || signed.componentSet != q.componentSet
        || signed.payloadSha != Some(q.payloadSha) || signed.envelopeSha != Some(q.envelopeSha) then
        Err(BindingMismatch)
      else if q.sequence in s.live then Err(AlreadyLive)
      else if q.sequence in s.bindings
        && (s.bindings[q.sequence].releaseId != q.releaseId || s.bindings[q.sequence].payloadSha != q.payloadSha
            || s.bindings[q.sequence].envelopeSha != q.envelopeSha) then Err(BindingMismatch)
      else
        var event := FailedEventOf(signed, timestamp, l.head);
        var proposed := EventLine(env.c, event).entrySha;
        match ReconcileLedger(VerifiedLedger(l.genesis, l.events + [event], proposed), s)
        case Err(error) => Err(ReconcileFailure(error))
        case Ok(a) =>
          if a.nextUnused <= q.sequence then Err(NextUnusedStuck)
          else Ok(Supersession(event, proposed, l.head, a.nextUnused, a))
  }

  function Supersede(env: Env, w: World, s: Snapshot, q: SupersedeRequest, timestamp: string, mutate: bool, writes: nat)
    : (World, Outcome<Supersession, ReleaseError>)
  {
    match Verify(env.c, w.ledger)
    case Err(error) => (w, Raised(LedgerFailure(error)))
    case Ok(l) =>
      match PrepareSupersession(env, l, s, q, timestamp)
      case Err(error) => (w, Raised(error))
      case Ok(p) =>
        if !mutate then (w, Done(p))
        else
          match Append(env.c, w.ledger, p.event, l.head)
          case Err(error) => (w, Raised(LedgerFailure(error)))
          case Ok((lines, _)) =>
            if writes == 0 then (w, Crashed)
            else if writes == 1 then (w.(ledger := lines), Crashed)
            else (w.(ledger := lines), Done(p))
  }
}
