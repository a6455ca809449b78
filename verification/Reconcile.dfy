/** Reconciliation of a verified ledger with a fresh snapshot of authenticated history. */
module Reconcile {
  import opened Prelude
  import opened Ledger

  datatype Snapshot = Snapshot(
    bindings: map<int, Binding>, provenance: map<int, string>, live: set<int>,
    highest: int, bindingsSha: Digest, snapshotSha: Digest)

  datatype Recovery =
    | NoRecovery
    | SignedAppendRequired(sequence: int)
    | PublishedAppendRequired(sequence: int)

  datatype Authority = Authority(
    bindingsSha: Digest, snapshotSha: Digest, floor: int, head: Digest,
    highestAuthenticated: int, highestConsumed: int, nextUnused: int, recovery: Recovery)

  datatype ReconcileError = ReconciliationRequired | ProvenanceRequired

  // ---- sorted keys and maxima ------------------------------------------------------------

  predicate Least(m: int, s: set<int>) {
    m in s && forall x :: x in s ==> m <= x
  }

  lemma {:induction false} HasLeast(s: set<int>)
    requires s != {}
    ensures exists m :: Least(m, s)
  {
    var m := Pick(s);
    if s - {m} == {} {
      forall x | x in s ensures m <= x { assert x == m || x in s - {m}; }
      assert Least(m, s);
    } else {
      HasLeast(s - {m});
      var k :| Least(k, s - {m});
      var least := if k < m then k else m;
      forall x | x in s ensures least <= x { assert x == m || x in s - {m}; }
      assert Least(least, s);
    }
  }

  function LeastOf(s: set<int>): (m: int)
    requires s != {}
    ensures Least(m, s)
  {
    HasLeast(s);
    var m :| Least(m, s);
    m
  }

  /** Python's sorted() on a set of integers. */
  function SortedKeys(s: set<int>): (keys: seq<int>)
    ensures forall k :: k in keys <==> k in s
  {
    if s == {} then [] else [LeastOf(s)] + SortedKeys(s - {LeastOf(s)})
  }

  ghost predicate Increasing(keys: seq<int>) {
    forall i, j :: 0 <= i < j < |keys| ==> keys[i] < keys[j]
  }

  lemma {:induction false} SortedKeysIncrease(s: set<int>)
    ensures Increasing(SortedKeys(s))
  {
    if s != {} {
      SortedKeysIncrease(s - {LeastOf(s)});
      assert forall k :: k in SortedKeys(s - {LeastOf(s)}) ==> LeastOf(s) < k;
    }
  }

  function Max(a: int, b: int): int {
    if a >= b then a else b
  }

  function MaxKey(keys: seq<int>, default: int): int {
    if keys == [] then default
    else if |keys| == 1 then keys[0]
    else Max(MaxKey(keys[..|keys| - 1], default), keys[|keys| - 1])
  }

  lemma {:induction false} MaxKeyMeans(keys: seq<int>, default: int)
    ensures keys != [] ==> MaxKey(keys, default) in keys
    ensures forall k :: k in keys ==> k <= MaxKey(keys, default)
  {
    if |keys| > 1 {
      MaxKeyMeans(keys[..|keys| - 1], default);
      assert keys == keys[..|keys| - 1] + [keys[|keys| - 1]];
    }
  }

  method MaxOf(keys: seq<int>, default: int) returns (m: int)
    ensures m == MaxKey(keys, default)
  {
    if keys == [] { return default; }
    m := keys[0];
    var i := 1;
    assert keys[..1] == [keys[0]];
    while i < |keys|
      invariant 1 <= i <= |keys|
      invariant m == MaxKey(keys[..i], default)
    {
      assert keys[..i + 1][..i] == keys[..i];
      m := Max(m, keys[i]);
      i := i + 1;
    }
    assert keys[..i] == keys;
  }

  // ---- the loops -------------------------------------------------------------------------

  predicate Recorded(s: Status) {
    s.Signed? || s.Published? || s.Retired?
  }

  lemma RecordedMeans(s: Status)
    ensures Recorded(s) <==> s in {Signed, Published, Retired}
  {}

  /** The checks of one authenticated sequence, and the repair it asks for. */
  function CheckBinding(l: VerifiedLedger, s: Snapshot, n: int): Result<Recovery, ReconcileError>
    requires n in s.bindings
  {
    var binding, latest := s.bindings[n], Latest(l.events, n);
    if n <= l.genesis.floor.sequence then Ok(NoRecovery)
    else if latest.None? then Err(ReconciliationRequired)
    else
      var state := latest.value;
      if binding.releaseId != state.releaseId
        || (state.payloadSha.Some? && binding.payloadSha != state.payloadSha.value)
        || (state.envelopeSha.Some? && binding.envelopeSha != state.envelopeSha.value)
        || (state.keyId.Some? && binding.keyId != state.keyId.value)
      then Err(ReconciliationRequired)
      else if n in s.provenance && s.provenance[n] != state.sourceCommit then Err(ProvenanceRequired)
      else
        match state.status
        case Reserved => Ok(SignedAppendRequired(n))
        case Signed => Ok(if n in s.live then PublishedAppendRequired(n) else NoRecovery)
        case Published => Ok(NoRecovery)
        case Unknown(_) => Err(ReconciliationRequired)
        case _ => if n in s.live then Err(ReconciliationRequired) else Ok(NoRecovery)
  }

  function ScanBindings(l: VerifiedLedger, s: Snapshot, keys: seq<int>, recovery: Recovery)
    : Result<Recovery, ReconcileError>
    requires forall k :: k in keys ==> k in s.bindings
  {
    if keys == [] then Ok(recovery)
    else
      match CheckBinding(l, s, keys[0])
      case Err(error) => Err(error)
      case Ok(pending) =>
        if pending == NoRecovery then ScanBindings(l, s, keys[1..], recovery)
        else if recovery != NoRecovery then Err(ReconciliationRequired)
        else ScanBindings(l, s, keys[1..], pending)
  }

  function LedgerSequences(events: seq<Event>, floor: int): set<int> {
    set e | e in events && e.sequence > floor :: e.sequence
  }

  /** Some sequence that the ledger says was signed is not authenticated. */
  predicate Unauthenticated(l: VerifiedLedger, s: Snapshot, keys: seq<int>) {
    exists n :: n in keys && n !in s.bindings && Latest(l.events, n).Some? && Recorded(Latest(l.events, n).value.status)
  }

  function ConsumedBy(events: seq<Event>): seq<int> {
    seq(|events|, i requires 0 <= i < |events| => events[i].sequence)
  }

  function AuthorityOf(l: VerifiedLedger, s: Snapshot, recovery: Recovery): Authority {
    var floor := l.genesis.floor.sequence;
    var authenticated := MaxKey(SortedKeys(s.bindings.Keys), floor);
    var consumed := MaxKey(ConsumedBy(l.events), floor);
    Authority(s.bindingsSha, s.snapshotSha, floor, l.head, authenticated, consumed,
              Max(floor, Max(authenticated, consumed)) + 1, recovery)
  }

  function FloorError(l: VerifiedLedger, s: Snapshot): Option<ReconcileError> {
    var floor := l.genesis.floor;
    if floor.sequence !in s.bindings || s.bindings[floor.sequence] != floor then Some(ReconciliationRequired)
    else if l.genesis.floorProvenance.Some? && floor.sequence in s.provenance
      && s.provenance[floor.sequence] != l.genesis.floorProvenance.value then Some(ProvenanceRequired)
    else None
  }

  function ReconcileLedger(l: VerifiedLedger, s: Snapshot): Result<Authority, ReconcileError> {
    if FloorError(l, s).Some? then Err(FloorError(l, s).value)
    else if Unauthenticated(l, s, SortedKeys(LedgerSequences(l.events, l.genesis.floor.sequence))) then
      Err(ReconciliationRequired)
    else
      match ScanBindings(l, s, SortedKeys(s.bindings.Keys), NoRecovery)
      case Err(error) => Err(error)
      case Ok(recovery) => Ok(AuthorityOf(l, s, recovery))
  }

  method ReconcileLedgerWithAuthenticatedHistory(l: VerifiedLedger, s: Snapshot)
    returns (r: Result<Authority, ReconcileError>)
    ensures r == ReconcileLedger(l, s)
  {
    var floor := l.genesis.floor.sequence;
    if floor !in s.bindings { return Err(ReconciliationRequired); }
    if s.bindings[floor] != l.genesis.floor { return Err(ReconciliationRequired); }
    if l.genesis.floorProvenance.Some? && floor in s.provenance {
      if s.provenance[floor] != l.genesis.floorProvenance.value { return Err(ProvenanceRequired); }
    }
    var missing := FindUnauthenticated(l, s, SortedKeys(LedgerSequences(l.events, floor)));
    if missing { return Err(ReconciliationRequired); }
    var keys := SortedKeys(s.bindings.Keys);
    var recovery := CheckBindings(l, s, keys);
    if recovery.Err? { return Err(recovery.error); }
    var authenticated := MaxOf(keys, floor);
    var consumed := MaxOf(ConsumedBy(l.events), floor);
    r := Ok(Authority(s.bindingsSha, s.snapshotSha, floor, l.head, authenticated, consumed,
                      Max(floor, Max(authenticated, consumed)) + 1, recovery.value));
  }

  /** The loop over the sequences of the ledger. */
  method FindUnauthenticated(l: VerifiedLedger, s: Snapshot, keys: seq<int>) returns (found: bool)
    ensures found == Unauthenticated(l, s, keys)
  {
    for i := 0 to |keys|
      invariant !Unauthenticated(l, s, keys[..i])
    {
      var n := keys[i];
      assert keys[..i + 1] == keys[..i] + [n];
      var state := LatestSequenceState(l.events, n);
      if state.Some? && Recorded(state.value.status) {
        if n !in s.bindings {
          assert n in keys;
          return true;
        }
      }
    }
    assert keys[..|keys|] == keys;
    found := false;
  }

  /** The loop over the authenticated sequences. */
  method CheckBindings(l: VerifiedLedger, s: Snapshot, keys: seq<int>) returns (r: Result<Recovery, ReconcileError>)
    requires forall k :: k in keys ==> k in s.bindings
    ensures r == ScanBindings(l, s, keys, NoRecovery)
  {
    var recovery := NoRecovery;
    for i := 0 to |keys|
      invariant ScanBindings(l, s, keys, NoRecovery) == ScanBindings(l, s, keys[i..], recovery)
    {
      var pending := CheckBinding(l, s, keys[i]);
      assert keys[i..][0] == keys[i] && keys[i..][1..] == keys[i + 1..];
      if pending.Err? { return Err(pending.error); }
      if pending.value != NoRecovery {
        if recovery != NoRecovery { return Err(ReconciliationRequired); }
        recovery := pending.value;
      }
    }
    r := Ok(recovery);
  }

  // ---- the relation ----------------------------------------------------------------------

  /** An authenticated binding agrees with the latest event of its sequence on every field that
      the event has already recorded. */
  ghost predicate Agrees(b: Binding, state: Event) {
    && b.releaseId == state.releaseId
    && (state.payloadSha == None || state.payloadSha == Some(b.payloadSha))
    && (state.envelopeSha == None || state.envelopeSha == Some(b.envelopeSha))
    && (state.keyId == None || state.keyId == Some(b.keyId))
  }

  /** The repair a sequence waits for: signed in custody but not in the ledger, or live but not
      recorded as published. */
  ghost function PendingOf(l: VerifiedLedger, s: Snapshot, n: int): Recovery {
    var latest := Latest(l.events, n);
    if n !in s.bindings || n <= l.genesis.floor.sequence || latest.None? then NoRecovery
    else if latest.value.status.Reserved? then SignedAppendRequired(n)
    else if latest.value.status.Signed? && n in s.live then PublishedAppendRequired(n)
    else NoRecovery
  }

  ghost predicate FloorUnchanged(l: VerifiedLedger, s: Snapshot) {
    var floor := l.genesis.floor;
    && floor.sequence in s.bindings && s.bindings[floor.sequence] == floor
    && (l.genesis.floorProvenance.Some? && floor.sequence in s.provenance ==>
          s.provenance[floor.sequence] == l.genesis.floorProvenance.value)
  }

  ghost predicate RecordedIsAuthenticated(l: VerifiedLedger, s: Snapshot) {
    forall e :: e in l.events && e.sequence > l.genesis.floor.sequence
      && Latest(l.events, e.sequence).Some? && Recorded(Latest(l.events, e.sequence).value.status)
      ==> e.sequence in s.bindings
  }

  ghost predicate Accounted(l: VerifiedLedger, s: Snapshot, n: int)
    requires n in s.bindings
  {
    var latest := Latest(l.events, n);
    n > l.genesis.floor.sequence ==>
      && latest.Some? && !latest.value.status.Unknown?
      && Agrees(s.bindings[n], latest.value)
      && (n in s.provenance ==> s.provenance[n] == latest.value.sourceCommit)
      && (latest.value.status.Failed? || latest.value.status.Retired? ==> n !in s.live)
  }

  ghost predicate AtMostOnePending(l: VerifiedLedger, s: Snapshot) {
    forall m, n :: PendingOf(l, s, m) != NoRecovery && PendingOf(l, s, n) != NoRecovery ==> m == n
  }

  /** Ledger and history tell one story. */
  ghost predicate Coherent(l: VerifiedLedger, s: Snapshot) {
    && FloorUnchanged(l, s)
    && RecordedIsAuthenticated(l, s)
    && (forall n :: n in s.bindings ==> Accounted(l, s, n))
    && AtMostOnePending(l, s)
  }

  lemma CheckBindingMeans(l: VerifiedLedger, s: Snapshot, n: int)
    requires n in s.bindings
    ensures CheckBinding(l, s, n).Ok? <==> Accounted(l, s, n)
    ensures CheckBinding(l, s, n).Ok? ==> CheckBinding(l, s, n).value == PendingOf(l, s, n)
  {}

  ghost predicate NonePending(l: VerifiedLedger, s: Snapshot, keys: seq<int>) {
    forall k :: k in keys ==> PendingOf(l, s, k) == NoRecovery
  }

  ghost predicate AllAccounted(l: VerifiedLedger, s: Snapshot, keys: seq<int>) {
    forall k :: k in keys ==> k in s.bindings && Accounted(l, s, k)
  }

  ghost predicate OnePending(l: VerifiedLedger, s: Snapshot, keys: seq<int>) {
    forall m, n :: m in keys && n in keys && PendingOf(l, s, m) != NoRecovery && PendingOf(l, s, n) != NoRecovery
      ==> m == n
  }

  lemma OneMoreKey(l: VerifiedLedger, s: Snapshot, k: int, rest: seq<int>)
    requires k !in rest && k in s.bindings
    ensures AllAccounted(l, s, [k] + rest) <==> Accounted(l, s, k) && AllAccounted(l, s, rest)
    ensures NonePending(l, s, [k] + rest) <==> PendingOf(l, s, k) == NoRecovery && NonePending(l, s, rest)
    ensures OnePending(l, s, [k] + rest)
      <==> OnePending(l, s, rest) && (PendingOf(l, s, k) == NoRecovery || NonePending(l, s, rest))
  {
    hide PendingOf, Accounted;
    assert forall n :: n in [k] + rest <==> n == k || n in rest;
  }

  lemma {:induction false} ScanMeans(l: VerifiedLedger, s: Snapshot, keys: seq<int>, recovery: Recovery)
    requires forall k :: k in keys ==> k in s.bindings
    requires Increasing(keys)
    ensures ScanBindings(l, s, keys, recovery).Ok?
      <==> && AllAccounted(l, s, keys) && OnePending(l, s, keys)
           && (recovery == NoRecovery || NonePending(l, s, keys))
    ensures ScanBindings(l, s, keys, recovery).Ok? ==>
              var r := ScanBindings(l, s, keys, recovery).value;
              (NonePending(l, s, keys) && r == recovery)
                || exists k :: k in keys && PendingOf(l, s, k) == r != NoRecovery
  {
    if keys != [] {
      var k, rest := keys[0], keys[1..];
      assert keys == [k] + rest;
      assert forall i :: 0 <= i < |rest| ==> rest[i] == keys[i + 1];
      assert forall m :: m in rest ==> m in keys && m != k;
      hide PendingOf, Accounted, CheckBinding, NonePending, OnePending, AllAccounted;
      CheckBindingMeans(l, s, k);
      OneMoreKey(l, s, k, rest);
      var p := PendingOf(l, s, k);
      ScanMeans(l, s, rest, recovery);
      ScanMeans(l, s, rest, p);
    }
  }

  lemma UnauthenticatedMeans(l: VerifiedLedger, s: Snapshot)
    ensures Unauthenticated(l, s, SortedKeys(LedgerSequences(l.events, l.genesis.floor.sequence)))
            <==> !RecordedIsAuthenticated(l, s)
  {
    var floor := l.genesis.floor.sequence;
    var sequences := SortedKeys(LedgerSequences(l.events, floor));
    if !RecordedIsAuthenticated(l, s) {
      var e :| e in l.events && e.sequence > floor && Latest(l.events, e.sequence).Some?
        && Recorded(Latest(l.events, e.sequence).value.status) && e.sequence !in s.bindings;
      assert e.sequence in sequences;
    }
  }

  /** Reconciliation succeeds exactly on coherent inputs, and reports the one sequence that waits
      for a repair, if there is one. */
  lemma ReconcileMeans(l: VerifiedLedger, s: Snapshot)
    ensures ReconcileLedger(l, s).Ok? <==> Coherent(l, s)
    ensures ReconcileLedger(l, s).Ok? ==>
              var a := ReconcileLedger(l, s).value;
              && a == AuthorityOf(l, s, a.recovery)
              && (forall n :: PendingOf(l, s, n) != NoRecovery ==> a.recovery == PendingOf(l, s, n))
              && (a.recovery != NoRecovery ==> PendingOf(l, s, a.recovery.sequence) == a.recovery)
              && (a.recovery == NoRecovery <==> forall n :: PendingOf(l, s, n) == NoRecovery)
  {
    hide PendingOf, Accounted, Latest, ScanBindings, MaxKey, ConsumedBy, Unauthenticated, RecordedIsAuthenticated,
      Increasing;
    var keys := SortedKeys(s.bindings.Keys);
    UnauthenticatedMeans(l, s);
    SortedKeysIncrease(s.bindings.Keys);
    ScanMeans(l, s, keys, NoRecovery);
    ScanCoversAll(l, s, keys);
  }

  lemma ScanCoversAll(l: VerifiedLedger, s: Snapshot, keys: seq<int>)
    requires forall k :: k in keys <==> k in s.bindings
    ensures OnePending(l, s, keys) <==> AtMostOnePending(l, s)
    ensures forall n :: PendingOf(l, s, n) != NoRecovery ==> n in keys && PendingOf(l, s, n).sequence == n
  {}

  /** The next unused sequence exceeds everything the floor, the ledger and the history mention,
      by one over the largest of them. */
  lemma NextUnusedExceedsAll(l: VerifiedLedger, s: Snapshot, r: Recovery)
    ensures var a := AuthorityOf(l, s, r);
      && a.nextUnused > l.genesis.floor.sequence
      && (forall n :: n in s.bindings ==> n <= a.highestAuthenticated < a.nextUnused)
      && (forall e :: e in l.events ==> e.sequence <= a.highestConsumed < a.nextUnused)
      && (a.nextUnused - 1 == l.genesis.floor.sequence || a.nextUnused - 1 in s.bindings
          || exists e :: e in l.events && e.sequence == a.nextUnused - 1)
  {
    var floor := l.genesis.floor.sequence;
    MaxKeyMeans(SortedKeys(s.bindings.Keys), floor);
    MaxKeyMeans(ConsumedBy(l.events), floor);
    forall e | e in l.events ensures e.sequence in ConsumedBy(l.events) {
      var i :| 0 <= i < |l.events| && l.events[i] == e;
      assert ConsumedBy(l.events)[i] == e.sequence;
    }
  }

  /** What a successful reconciliation reports besides the repair: the digests of the history, floor and head of the
      ledger, and the largest sequence of either, the floor standing in for an empty ledger. */
  lemma AuthorityTells(l: VerifiedLedger, s: Snapshot)
    requires ReconcileLedger(l, s).Ok?
    ensures var a := ReconcileLedger(l, s).value;
      && a.bindingsSha == s.bindingsSha && a.snapshotSha == s.snapshotSha
      && a.floor == l.genesis.floor.sequence && a.head == l.head
      && a.highestAuthenticated in s.bindings && (forall n :: n in s.bindings ==> n <= a.highestAuthenticated)
      && (forall e :: e in l.events ==> e.sequence <= a.highestConsumed)
      && (if l.events == [] then a.highestConsumed == l.genesis.floor.sequence
          else exists e :: e in l.events && e.sequence == a.highestConsumed)
  {
    var floor, keys, consumed := l.genesis.floor.sequence, SortedKeys(s.bindings.Keys), ConsumedBy(l.events);
    MaxKeyMeans(keys, floor);
    MaxKeyMeans(consumed, floor);
    assert floor in keys;
    forall e | e in l.events ensures e.sequence in consumed {
      var i :| 0 <= i < |l.events| && l.events[i] == e;
      assert consumed[i] == e.sequence;
    }
    if l.events != [] {
      assert consumed[0] == l.events[0].sequence;
      var i :| 0 <= i < |l.events| && consumed[i] == MaxKey(consumed, floor);
      assert l.events[i] in l.events;
    }
  }

  lemma {:induction false} ScanRefusals(l: VerifiedLedger, s: Snapshot, keys: seq<int>, recovery: Recovery)
    requires forall k :: k in keys ==> k in s.bindings
    ensures ScanBindings(l, s, keys, recovery) == Err(ProvenanceRequired) ==>
      exists n :: n in keys && n in s.provenance && Latest(l.events, n).Some?
        && s.provenance[n] != Latest(l.events, n).value.sourceCommit
  {
    if keys != [] {
      var k, rest := keys[0], keys[1..];
      assert keys == [k] + rest;
      ScanRefusals(l, s, rest, recovery);
      if CheckBinding(l, s, k).Ok? { ScanRefusals(l, s, rest, CheckBinding(l, s, k).value); }
    }
  }

  /** Provenance is blamed only where the history attests another commit than the ledger. */
  lemma ReconcileRefusals(l: VerifiedLedger, s: Snapshot)
    requires ReconcileLedger(l, s) == Err(ProvenanceRequired)
    ensures var floor := l.genesis.floor.sequence;
      || (floor in s.provenance && l.genesis.floorProvenance.Some?
          && s.provenance[floor] != l.genesis.floorProvenance.value)
      || exists n :: n in s.provenance && Latest(l.events, n).Some?
           && s.provenance[n] != Latest(l.events, n).value.sourceCommit
  {
    hide Latest, CheckBinding, Unauthenticated, AuthorityOf;
    ScanRefusals(l, s, SortedKeys(s.bindings.Keys), NoRecovery);
  }
}
