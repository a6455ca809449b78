# Release sequence authority and launcher: verified model

This project models the parts of the Neko proxy repository whose correctness rests on state and order, and proves
what they promise.

* **The release sequence authority.** An append-only, hash-chained ledger gives every release a sequence number and
  leads it through RESERVED, SIGNED, PUBLISHED and RETIRED, or to FAILED. Beside it lie a content-addressed custody of
  signed envelopes and the live channel; both are folded into one snapshot of authenticated history, and a reconciler
  compares that snapshot with the ledger. Four actions (reserve, sign, publish, supersede) work on these stores. Sign
  and publish each write two of them, so an action may die between two writes and has to be repaired by running it
  again.
* **Automatic reconnect and the authorized start.** A scheduler that hands out a bounded series of delayed attempts,
  and a long pipeline that starts the Core process only when every step before has been cleared.
* **The traffic worker.** A parser of captured Ethernet frames and a status monitor that does not flap.
* **The runtime configuration of a permit.** Its validation and the canonical text whose digest the permit carries.

## How it is laid out

`Ledger`, `History`, `Custody` and `Reconcile` hold the stores, each with its methods and the function that specifies
them; `Release` specifies the actions and `ReleaseController` runs them on objects. `LedgerLaws`, `RecoveryLaws`,
`ReleaseLaws`, `ReleaseRuns`, `ReleaseResume`, `ReleaseLimits` and `Supersession` prove the laws; `ReleaseOutcomes`
tells what every action comes to (exactly when it completes, and field by field what it has then written and answered),
`ReleaseRefusals` that every refusal gives a true reason, and `TidyCustody` that in every run a reserved release can be
signed. `Reconnect`, `AuthorizedStart` with `AuthorizedStartLaws` and `AuthorizedStartScript`, `PacketParser`,
`StatusMachine` and `RuntimeConfig` are the smaller components, and `Prelude`, `Text` and `Sorting` serve all of them.

Code that changes objects step by step is a class or a method here too, proved equal to a specification function; the
laws are then lemmas about that function, usually against a second, declarative reading (`Chained` and `Lifeline` for
the file, `Coherent` for the reconciler, `Consistent` and `Tells` for the history, `Signable`, `Deliverable`,
`Publishable` and `DescribesSigned` for the actions, `Script` and `Blames` for the start pipeline, `WellFormed` and
`Encode` for frames, `SettledStatus` for the monitor).

SHA-256, canonical JSON and the verification of envelopes are values of function type (`Codec`, `EnvelopeReader`,
`CustodyReader`), so every law holds for all of them. `Faithful` says that canonical JSON reads back what it prints.
Collision-freeness is not assumed for the chain: `HeadFixesHistory` concludes "or here is a collision". It is part of
`Laws`, under which the runs of the protocol are studied, together with digests and key ids being non-empty. A crash
is a budget of store writes: the action stops when the budget is spent, at any point between two writes. The answers
of the outside world in the start pipeline are arbitrary functions of everything done so far.

## What the laws say where the code promises more than it keeps

* `sign_reserved_baseline` takes any allocation and compares it with the unsigned baseline, but not with the
  reservation it finds in the ledger, and `reserve_release_sequence` takes commits of any length while custody reads
  back only those of 40 characters. `ReleaseLimits.SigningCompletesIff` gives the exact condition under which a
  signing completes once custody has taken its envelope: the release id and the component set are those of the
  reservation, and the reserved commit has 40 characters. Another release id or another commit length leaves stores
  that no longer reconcile (`ForeignAllocationWedges`, `ShortCommitWedges`); another component set leaves the repair
  pending and blocks reserve and publish until it is made (`OtherComponentSetWedges`, `WaitingBlocksOthers`). An
  allocation that was handed out always names its own reservation (`HandedOutNamesReservation`). Custody takes the
  envelope exactly when it has no other entry under the name of the sequence and no other file under the name of the
  envelope (`ReleaseOutcomes.CustodyTakesIff`); `TidyCustody.RunsStayTidy` shows that no run puts anything there, if
  nothing was there to begin with. In the runs, a signing on the normal path names the release of its reservation,
  whose commit has 40 characters; reservations are unrestricted.
* A supersession accepts whatever snapshot its caller supplies. `ReleaseLaws.SupersedeReconcilesIff` gives the exact
  condition: when it writes, ledger and history reconcile afterwards if and only if the sequence is not live in the
  history of that moment. A snapshot from before a promotion fails it (`ReleaseLimits.StaleSnapshotWedges`). In the
  runs the snapshot is arbitrary, except that it does not miss that its sequence is live.
* `append_custody_record` accepts records it cannot read back. `Custody.AppendRoundTrip` gives the exact condition:
  the custody loads again if and only if the source id is non-empty and the provenance absent or 40 characters long;
  `Custody.EmptySourceIdBlocks` and `Custody.ShortProvenanceBlocks` are two records that fail it.
* A signing that dies after its last write has returned no evidence, and running it again does not produce it: the
  action is refused, without changing anything (`ReleaseResume.SignedIsNotSignedAgain`).
* A binding with an empty payload digest, envelope digest or key id would wait for its SIGNED event for ever;
  `RecoveryLaws.SignedRecoveryConverges` states that the append is accepted if and only if none is empty.
* The last check of a supersession, that the next unused sequence has moved past the superseded one, can never fire
  (`Supersession.NeverStuck`).
* The canonical text is injective because of the validation, not of its own form:
  `RuntimeConfig.UnvalidatedTextsCollide` shows two configurations that share one text once a line feed is let
  through.

## Model

| member | source | states |
|---|---|---|
| Ledger.VerifyLedger | scripts/production_sequence_ledger.py:244-449 | the reader with its two dictionaries computes the line-by-line specification of verification, for every file |
| Ledger.CheckEvent | scripts/production_sequence_ledger.py:374-440 | the check of one event against the dictionaries is the check against the events of its sequence |
| Ledger.ReadEvent | scripts/production_sequence_ledger.py:280-344 | a later line is read exactly when it is well-formed, carries the digest of its body and names the head |
| Ledger.SequenceAuthoritySession.ReadVerified | scripts/production_sequence_ledger.py:538-542 | without the lock nothing is read; with it, the verification of the file |
| Ledger.SequenceAuthoritySession.AppendEvent | scripts/production_sequence_ledger.py:544-636 | the file gains exactly the line of an accepted event and is otherwise untouched; each refusal with its error |
| Ledger.SequenceAuthoritySession.InitializeGenesis | scripts/production_sequence_ledger.py:644-687 | succeeds exactly under the lock, on an empty file, for a first record with a positive floor, and the new file verifies |
| Ledger.LatestSequenceState | scripts/production_sequence_ledger.py:234-241 | the backward scan finds the latest event of a sequence |
| Ledger.LatestIsLastOfSequence | scripts/production_sequence_ledger.py:234-241 | that event is the last of the events of the sequence, and there is none exactly when there are no such events |
| LedgerLaws.VerifyMeans | scripts/production_sequence_ledger.py:244-449 | a file verifies exactly when its chain is unbroken, all events lie above the floor and each sequence's events form a life; the result is what the lines say |
| LedgerLaws.VerifyEventProlongs | scripts/production_sequence_ledger.py:346-436 | the reader accepts exactly the events that prolong the life of their sequence |
| LedgerLaws.AppendErrorProlongs | scripts/production_sequence_ledger.py:559-622 | so does the append, although it scans for signed fields instead of remembering them |
| LedgerLaws.AppendRefusals | scripts/production_sequence_ledger.py:544-622 | every reason an append gives for a refusal is so |
| LedgerLaws.SignedOnce | scripts/production_sequence_ledger.py:601-616 | the first and the last signed fields of a life are the same, since a life has one SIGNED event |
| LedgerLaws.LifelineMeans | scripts/production_sequence_ledger.py:32-39 | a life field by field: its steps, the five constant allocation fields, the three signed fields that are there from SIGNED on and never change |
| LedgerLaws.VerifiedLives | scripts/production_sequence_ledger.py:32-39 | in every verified ledger each sequence follows the lifecycle graph with a constant allocation and, from SIGNED on, constant signed fields, in at most four events |
| LedgerLaws.EventCount | scripts/production_sequence_ledger.py:32-39 | a verified ledger has at most four events for each distinct sequence |
| LedgerLaws.AppendAgreesWithVerify | scripts/production_sequence_ledger.py:544-636 | an append naming the head accepts an event exactly when the reader accepts the longer file, and the re-read ledger is the old one with this event and the returned digest as head |
| LedgerLaws.HeadFixesHistory | scripts/production_sequence_ledger.py:293-344 | two verified files with one head digest are equal, or exhibit a collision |
| LedgerLaws.HeadOccursInExtension | scripts/production_sequence_ledger.py:293-344 | a verified file whose head digest occurs in another is a beginning of it, or there is a collision |
| Reconcile.ReconcileLedgerWithAuthenticatedHistory | scripts/production_sequence_ledger.py:698-822 | the method with its two loops computes the specification of the reconciler |
| Reconcile.FindUnauthenticated | scripts/production_sequence_ledger.py:728-735 | the first loop finds out whether some SIGNED, PUBLISHED or RETIRED sequence is not authenticated |
| Reconcile.CheckBindings | scripts/production_sequence_ledger.py:737-802 | the second loop checks the authenticated sequences in order and carries the one pending repair |
| Reconcile.ReconcileMeans | scripts/production_sequence_ledger.py:698-822 | reconciliation succeeds exactly when ledger and history are coherent, and reports the one pending repair if there is one |
| Reconcile.NextUnusedExceedsAll | scripts/production_sequence_ledger.py:804-809 | the next unused sequence is one more than the largest of the floor, the ledger and the history |
| Reconcile.AuthorityTells | scripts/production_sequence_ledger.py:804-822 | a reconciliation reports the two digests of the history, floor and head of the ledger, and the largest sequence of history and of ledger, the floor standing in for an empty ledger |
| Reconcile.ReconcileRefusals | scripts/production_sequence_ledger.py:714-763 | provenance is blamed only where the history attests another commit than the ledger |
| RecoveryLaws.CoherentAfter | scripts/production_sequence_ledger.py:726-822 | one more event keeps ledger and history coherent exactly when its own sequence stays accounted for and does not become a second pending one |
| RecoveryLaws.SignedRecoveryConverges | scripts/release_controller.py:553-571 | the SIGNED event that repairs a pending sequence is accepted iff the binding's fields are non-empty; then reconciliation succeeds with the next unused sequence unchanged and a PUBLISHED repair pending exactly if the sequence is live |
| RecoveryLaws.PublishedRecoveryConverges | scripts/publish_atomic_release.py:1174-1194 | the PUBLISHED event that repairs a pending sequence is always accepted and leaves nothing to repair |
| History.LoadHistory | scripts/authenticated_production_history.py:72-165 | the loop over the records computes the specification of the fold |
| History.RecordMeans | scripts/authenticated_production_history.py:78-104 | which records can be told, and the binding each one tells, field by field |
| History.BeforeMeans | scripts/authenticated_production_history.py:153 | records are ordered by the names of their kinds, then by their ids |
| History.LoadIsOrderIndependent | scripts/authenticated_production_history.py:72-165 | loading succeeds exactly on consistent records, and every permutation of records with distinct sources gives the same bindings, provenance, live set, highest sequence and digests |
| History.LoadTells | scripts/authenticated_production_history.py:72-165 | the snapshot mentions exactly the sequences, provenances and live sequences the records mention, with their values |
| History.SnapshotDocuments | scripts/authenticated_production_history.py:131-165 | the documents behind the two digests list every binding, live sequence, provenance and record, once and in order, and nothing else |
| History.DigestsFixHistory | scripts/authenticated_production_history.py:131-165 | equal digests of bindings iff equal bindings; equal digests of snapshots iff the same records up to their order |
| History.LoadRefusals | scripts/authenticated_production_history.py:78-128 | every reason a load gives for a refusal is so: an ill-formed record, two bindings, or two provenances of one sequence |
| Custody.ReadEntries | scripts/authenticated_production_history.py:174-259 | the loop over the index computes the specification of reading |
| Custody.CustodyRoot.LoadCustodyRecords | scripts/authenticated_production_history.py:174-259 | a missing index reads as no records; otherwise the records or the first error |
| Custody.CustodyRoot.AppendCustodyRecord | scripts/authenticated_production_history.py:262-353 | the two files after an append that may die after either write, and its result |
| Custody.LoadEntriesMeans | scripts/authenticated_production_history.py:198-259 | an index reads exactly when every entry does and the ids are distinct |
| Custody.LoadEntryMeans | scripts/authenticated_production_history.py:205-257 | an entry loads iff it has an id, names the file of its digest, that file holds the bytes of that digest in canonical form, and the provenance is absent or a whole commit |
| Custody.LoadCustodyMeans | scripts/authenticated_production_history.py:174-259 | custody loads iff there is no index, or a closed one of schema version 1 whose entries all load under different ids |
| Custody.AppendCompletesIff | scripts/authenticated_production_history.py:262-353 | an append completes iff the record is a canonical custody record, the named index digest is current, and its id is known with the same digest and provenance, or new and its file absent or its own |
| Custody.LoadedAreFiled | scripts/authenticated_production_history.py:219-259 | every record read is stored under the digest of its own bytes |
| Custody.AppendRoundTrip | scripts/authenticated_production_history.py:262-353 | after an append, custody reads back iff the record is readable, and then as the old records and the new one in the order of their ids |
| Custody.EmptySourceIdBlocks | scripts/authenticated_production_history.py:205-207 | a record without a source id is taken into an empty custody, which then loads no more |
| Custody.ShortProvenanceBlocks | scripts/authenticated_production_history.py:246-248 | so is one with an abbreviated commit |
| Custody.AppendIsIdempotent | scripts/authenticated_production_history.py:298-306 | repeating an append with the digest it returned changes nothing and returns it again |
| Custody.AppendInterrupted | scripts/authenticated_production_history.py:262-353 | a refused append, in particular one with a stale digest, changes no file; a dead one leaves all records as they were and can be repeated to the same end |
| Custody.AppendBudget | scripts/authenticated_production_history.py:308-348 | an append writes at most two files, and with its cost paid it is as good as uninterrupted |
| ReleaseController.ReleaseAuthority.BootstrapSequenceLedger | scripts/authenticated_production_history.py:356-414 | the stores and the result are those of the specification, whose meaning `BootstrapMeans` gives, and the lock is free afterwards |
| ReleaseController.ReleaseAuthority.ReserveReleaseSequence | scripts/authenticated_production_history.py:417-474 | the same for reserve, wherever it dies (`ReserveMeans`) |
| ReleaseController.ReleaseAuthority.FreshReconcileLocked | scripts/authenticated_production_history.py:477-488 | under the lock: verified ledger, fresh history and their reconciliation, or the first error |
| ReleaseController.ReleaseAuthority.SignReservedBaseline | scripts/release_controller.py:492-710 | the same for sign, on the normal and the recovery path (`SignMeans`) |
| ReleaseController.ReleaseAuthority.PublishUnifiedRelease | scripts/publish_atomic_release.py:1047-1295 | the same for publish, on the normal and the recovery path (`PublishMeans`) |
| ReleaseController.ReleaseAuthority.SupersedeSignedRelease | scripts/production_sequence_ledger.py:862-1109 | the same for supersede, dry or real (`PreparedIff`, `SupersedeMeans`) |
| Release.VersionOfMeans | scripts/authenticated_production_history.py:451 | the version is the name of the target without its leading v's |
| ReleaseOutcomes.CheckMeans | scripts/authenticated_production_history.py:477-488 | the check under the lock succeeds iff the file verifies, custody reads back, all records load as one history, and ledger and history are coherent |
| ReleaseOutcomes.BootstrapMeans | scripts/authenticated_production_history.py:356-414 | an existing ledger is confirmed and left alone iff it verifies and starts from the expected floor and provenance; an empty one is started, with exactly that floor, iff the floor is positive and the newest of the history with that binding and provenance |
| ReleaseOutcomes.ReserveMeans | scripts/authenticated_production_history.py:417-474 | reserve goes through iff the check succeeds with nothing pending; the new last event of the re-read ledger, the allocation and the stores field by field, for every budget of writes |
| ReleaseOutcomes.CustodyTakesIff | scripts/release_controller.py:649-663 | custody takes the envelope of the normal path iff it is canonical and nothing else is filed under its names |
| ReleaseOutcomes.FreshSigns | scripts/release_controller.py:649-710 | the normal path completes iff the envelope is deliverable; custody then reads back as the old records and the one of this sequence, the ledger has the reservation again as SIGNED, and the evidence says the same, all field by field |
| ReleaseOutcomes.RepairSigns | scripts/release_controller.py:510-581 | the recovery path completes iff the request is for the pending binding and the reserved component set; only the ledger is written |
| ReleaseOutcomes.SignMeans | scripts/release_controller.py:492-710 | a signing gives evidence in exactly these two cases, asks for a signature in exactly one other, and is refused in all the rest |
| ReleaseOutcomes.EvidenceIsFiled | scripts/release_controller.py:518-552 | from any stores, evidence is given only for an envelope that custody holds under its digest, signed by the production key for that allocation and payload |
| ReleaseOutcomes.PublishMeans | scripts/publish_atomic_release.py:1047-1295 | a publication goes through iff the release is publishable and the outside world agrees: staged and promoted, or, when live already, publicly matching; what goes live, what is recorded and what is answered, field by field, for every budget of writes |
| ReleaseOutcomes.PreparedIff | scripts/production_sequence_ledger.py:862-1109 | a supersession is prepared iff the request describes the SIGNED event of the sequence and the present head, the history knows nothing else of it, and the ledger with the FAILED event is coherent with the history; the prepared event and answer field by field |
| ReleaseOutcomes.SupersedeMeans | scripts/production_sequence_ledger.py:862-1109 | a supersession goes through iff it can be prepared; a dry one writes nothing, a real one exactly the prepared event, for every budget of writes |
| ReleaseRefusals.CheckRefusals | scripts/authenticated_production_history.py:477-488 | the check under the lock fails with the error of the first of its parts that fails |
| ReleaseRefusals.SignRefusals | scripts/release_controller.py:480-600 | every reason a signing gives for a refusal is so |
| ReleaseRefusals.PublishRefusals | scripts/publish_atomic_release.py:1047-1240 | every reason a publication gives for a refusal is so |
| ReleaseRefusals.SupersedeRefusals | scripts/production_sequence_ledger.py:871-1024 | every reason a supersession gives for a refusal is so |
| TidyCustody.RunsStayTidy | scripts/release_controller.py:649-663 | a run that starts with every envelope file under its digest, and no entry under the name of an unauthenticated sequence, keeps it so |
| TidyCustody.TidySigningCompletesIff | scripts/release_controller.py:492-710 | then a signable sequence is signed iff envelope and request say what the reservation says and the reserved commit has 40 characters, with no premise on what custody answers |
| TidyCustody.ReservedCanBeSigned | scripts/release_controller.py:492-710 | so in every state of every such run |
| Custody.AppendCustodyRefusals | scripts/authenticated_production_history.py:268-313 | every reason an append gives for a refusal is so, and these are all its reasons |
| ReleaseLaws.ReserveKeepsInv | scripts/authenticated_production_history.py:425-474 | reserve keeps the protocol invariant, for every target, whatever its outcome and wherever it dies |
| ReleaseLaws.SignKeepsInv | scripts/release_controller.py:492-710 | so does sign, on the recovery path for every request and on the normal path for one that names the release of its reservation, whose commit has 40 characters |
| ReleaseLaws.PublishKeepsInv | scripts/publish_atomic_release.py:1047-1295 | so does publish |
| ReleaseLaws.SupersedeReconcilesIff | scripts/production_sequence_ledger.py:926-1100 | a supersession that writes, from any snapshot, leaves ledger and history reconciled, and the invariant intact, iff its sequence is not live in the history of the moment |
| ReleaseLaws.SupersedeKeepsInv | scripts/production_sequence_ledger.py:862-1109 | so does supersede, with any snapshot that does not miss that the sequence is live |
| ReleaseLaws.FiledKeepsInv | scripts/release_controller.py:649-680 | once the new envelope is in custody the ledger is as before and exactly its SIGNED event is pending |
| ReleaseLaws.PromotedKeepsInv | scripts/publish_atomic_release.py:1234-1261 | once the release is promoted its PUBLISHED event is pending, and bindings have not changed |
| ReleaseLaws.FilingReconcilesIff | scripts/release_controller.py:649-672 | after the envelope of an arbitrary allocation is filed, ledger and history reconcile iff the allocation names the reserved release and the reserved commit has 40 characters |
| ReleaseLimits.SigningCompletesIff | scripts/release_controller.py:503-710 | once custody has taken its envelope, a signing completes iff release id and component set are those of the reservation and the reserved commit has 40 characters |
| ReleaseLimits.NewToCustody | scripts/release_controller.py:649-663 | a signing on the normal path never meets an entry of its own in custody |
| ReleaseLimits.ForeignAllocationWedges | scripts/release_controller.py:503-680 | sequence 7 signed as the release of sequence 8: the envelope is filed, the signing fails and nothing reconciles any more |
| ReleaseLimits.ShortCommitWedges | scripts/release_controller.py:651-672 | a reservation with a 7-character commit, signed with its own allocation: the same |
| ReleaseLimits.OtherComponentSetWedges | scripts/release_controller.py:682-697 | with another component set the envelope is filed, the ledger refuses the event as a changed allocation, and the repair stays pending |
| ReleaseLimits.WaitingBlocksOthers | scripts/authenticated_production_history.py:437-440 | while a sequence waits for its SIGNED event, reserve and publish are refused and change nothing |
| ReleaseLimits.HandedOutNamesReservation | scripts/authenticated_production_history.py:467-474 | an allocation that was handed out and matches its unsigned baseline names the release and component set of its reservation |
| ReleaseLimits.StaleSnapshotWedges | scripts/production_sequence_ledger.py:926-1100 | a supersession prepared from the snapshot taken before its release was promoted succeeds, and from then on nothing reconciles |
| ReleaseLimits.SignsAnotherEnvelope | scripts/release_controller.py:601-710 | a signing that dies while filing, run again at any later time by a signer that gives another envelope, completes with the evidence, ledger and custody index of an uninterrupted run |
| ReleaseLimits.SignedRepairCompletes | scripts/release_controller.py:510-581 | a pending SIGNED repair is made by a matching request, with any signer or none, and is then no longer pending |
| ReleaseLimits.PublishedRepairCompletes | scripts/publish_atomic_release.py:1104-1206 | a pending PUBLISHED repair is made by a matching publication, which promotes nothing |
| ReleaseLimits.RepairsAlwaysComplete | scripts/release_controller.py:510-581 | in every state of every run, whatever happened since the interruption, the pending repair can be made |
| ReleaseLaws.ManifestIsEnvelope | scripts/publish_atomic_release.py:1030-1043 | the staged manifest is the very envelope that was signed for the sequence |
| ReleaseRuns.BootstrapStarts | scripts/authenticated_production_history.py:375-414 | a ledger just written by bootstrap satisfies the protocol invariant |
| ReleaseRuns.RunKeepsInv | scripts/release_controller.py:492-710 | every state of every run of the four actions with crashes, arbitrary targets and caller-supplied snapshots satisfies the protocol invariant |
| ReleaseRuns.RunsStayInOrder | scripts/production_sequence_ledger.py:698-822 | in every run the stores read back and reconcile, at most one repair is pending, custody holds at most one envelope for each sequence, RESERVED and PUBLISHED events strictly increase and release ids are never reused |
| ReleaseRuns.ReserveHandsOutNew | scripts/authenticated_production_history.py:433-474 | what reserve appends and hands out exceeds the floor and every sequence then in the ledger or history, with a new release id |
| ReleaseRuns.PublishAppendsLive | scripts/publish_atomic_release.py:1060-1280 | a PUBLISHED event is appended only for a sequence that is live with the exact signed binding, when nothing larger was reserved or authenticated at the locked check |
| ReleaseResume.SignResumes | scripts/release_controller.py:510-710 | an interrupted signing, run again at any later time, does what an uninterrupted run at that time would have done, with the same evidence as the first would have given, and with any signer or none once the envelope is in custody |
| ReleaseResume.SignedIsNotSignedAgain | scripts/release_controller.py:583-599 | signing a sequence that the ledger records as signed is refused and changes nothing |
| ReleaseResume.PublishResumes | scripts/publish_atomic_release.py:1090-1283 | an interrupted publication leaves the stores as they were, the release promoted, or all done; once promoted, running it again at any later time records it without promoting it again, in the stores and with the digest of an uninterrupted run at that time; an interrupted recovery completes |
| Supersession.DryRunPredicts | scripts/production_sequence_ledger.py:1026-1109 | a dry run changes nothing and predicts the real run: same event, digest, reconciliation, a next unused sequence past the superseded one, and no verified extension ever publishes it |
| Supersession.FailedForever | scripts/production_sequence_ledger.py:32-39 | a sequence that is FAILED in a verified file is never PUBLISHED in any verified extension |
| Supersession.NeverStuck | scripts/production_sequence_ledger.py:1091-1094 | the last check of the preparation never fires |
| Text.Format04Injective | scripts/authenticated_production_history.py:443 | different sequences never print as the same release id |
| Text.Format04Means | scripts/release_controller.py:652 | at least four characters, a minus sign counting as one, reading back as the number, with leading zeros only as far as needed |
| Text.LeqMeans | scripts/authenticated_production_history.py:334 | one string is a beginning of the other, or the first different character decides |
| Reconnect.NewController | launcher/src/neko_launcher/application/reconnect.py:42-59 | a controller exists exactly for a non-empty backoff of positive delays, and starts in the initial state |
| Reconnect.AutomaticProxyReconnectController.ObserveRunning | launcher/src/neko_launcher/application/reconnect.py:80-87 | the new state is that of the state machine |
| Reconnect.AutomaticProxyReconnectController.Request | launcher/src/neko_launcher/application/reconnect.py:89-115 | new state and issued attempt are those of the state machine |
| Reconnect.AutomaticProxyReconnectController.Begin | launcher/src/neko_launcher/application/reconnect.py:117-134 | the same, and the event handed out is fresh, unset and the one held |
| Reconnect.AutomaticProxyReconnectController.Complete | launcher/src/neko_launcher/application/reconnect.py:136-164 | new state and verdict are those of the state machine |
| Reconnect.AutomaticProxyReconnectController.Cancel | launcher/src/neko_launcher/application/reconnect.py:166-176 | the new state is that of the state machine, and the event of the attempt in flight is set |
| Reconnect.Run | launcher/src/neko_launcher/application/reconnect.py:80-176 | over any calls: never scheduled and in flight at once, a live attempt carries the current generation, its event is held exactly while it runs, the scheduler is armed while it lives, and generations never decrease |
| Reconnect.DelaysFollowBackoff | launcher/src/neko_launcher/application/reconnect.py:80-115 | in every call sequence the delays handed out since the last effective observation are a prefix of the backoff, and none is handed out before the first |
| Reconnect.VerdictTellsWhatFollows | launcher/src/neko_launcher/application/reconnect.py:136-164 | RETRY is answered exactly when the next eligible request is granted, and EXHAUSTED only when the whole backoff has been handed out |
| Reconnect.RequestMeans | launcher/src/neko_launcher/application/reconnect.py:89-115 | in every run, a request is granted iff the scheduler is armed and idle, a delay is left and the application is eligible; then with the next delay of the backoff |
| Reconnect.BeginMeans | launcher/src/neko_launcher/application/reconnect.py:117-134 | the scheduled attempt begins iff the application is eligible, and is dropped otherwise |
| Reconnect.CompletionMeans | launcher/src/neko_launcher/application/reconnect.py:136-164 | in every run, verdict and new state of every completion, security denials first |
| Reconnect.StopsUntilObserved | launcher/src/neko_launcher/application/reconnect.py:80-176 | after a cancellation or any completion not to be retried nothing is handed out until the proxy is observed running; then the backoff starts over |
| Reconnect.CancelledOrReplacedIsSpent | launcher/src/neko_launcher/application/reconnect.py:89-176 | cancelling, completing, refusing to begin and issuing a newer attempt each leave the earlier attempt spent |
| Reconnect.SpentIsInert | launcher/src/neko_launcher/application/reconnect.py:117-147 | whatever is called after an attempt is spent, beginning or completing it fails and changes nothing |
| Reconnect.BegunOnce | launcher/src/neko_launcher/application/reconnect.py:117-134 | an attempt that has begun never begins again |
| AuthorizedStart.AuthorizedCoreOrchestrator.StartOnce | launcher/src/neko_launcher/application/authorized_core.py:607-829 | trace and result are those of the pipeline table with its guards, cleanup and lock, and the lock is as free as before |
| AuthorizedStart.AuthorizedCoreOrchestrator.ShutdownOwnedHost | launcher/src/neko_launcher/application/authorized_core.py:993-1048 | calls and outcome of a shutdown, for every answer |
| AuthorizedStart.AuthorizedCoreOrchestrator.EmergencyTerminateExactChild | launcher/src/neko_launcher/application/authorized_core.py:1058-1077 | waits unless the time is already up, terminates only if the wait fails |
| AuthorizedStart.StatusFailure | launcher/src/neko_launcher/application/authorized_core.py:354-362 | no failure exactly for RUNNING; an allow-listed Core code keeps its meaning, any other FAILED status is an adapter failure, STOPPED is not reaching RUNNING, and none may be retried |
| AuthorizedStartLaws.RunMeans | launcher/src/neko_launcher/application/authorized_core.py:637-804 | the pipeline has a result exactly when some gathered answers and a first stage that does not pass (or none) account for it |
| AuthorizedStartLaws.ReturnsRunning | launcher/src/neko_launcher/application/authorized_core.py:798-829 | a start that returns has status RUNNING |
| AuthorizedStartLaws.RetrySafeMeansNoPermit | launcher/src/neko_launcher/application/authorized_core.py:636-812 | after a retry-safe failure no permit was requested in that attempt |
| AuthorizedStartLaws.CleanupExactlyOnce | launcher/src/neko_launcher/application/authorized_core.py:818-823 | a failure after the host may exist is followed by exactly one cleanup before the lock is released, anything else by none |
| AuthorizedStartLaws.TerminatesOnlyTheOwnedChild | launcher/src/neko_launcher/application/authorized_core.py:993-1077 | forced termination is the last call of a shutdown, follows a failed wait for exit and aims at the process owned at entry |
| AuthorizedStartLaws.StartTerminatesOnlyItsChild | launcher/src/neko_launcher/application/authorized_core.py:818-821 | in a start, only its cleanup terminates, and only that process |
| AuthorizedStartLaws.NothingStartsUncleared | launcher/src/neko_launcher/application/authorized_core.py:637-797 | a START command is sent at most once, and only for a process found and still running, a live session, the one configuration offered and confirmed, and a permit answering the Core's challenge, with the last checks after the permit; the command carries that configuration and the pid of that process |
| AuthorizedStartLaws.BindingMeans | launcher/src/neko_launcher/application/authorized_core.py:428-441 | binding gives the command with the configuration's well-formed references and the pid of the target iff it is in 1..4294967295; without a pid the target is unavailable, otherwise the configuration |
| AuthorizedStartLaws.ReferenceMeans | launcher/src/neko_launcher/application/authorized_core.py:409-414 | a reference is its prefix and one to six digits |
| AuthorizedStartScript.StartFollowsScript | launcher/src/neko_launcher/application/authorized_core.py:607-829 | a start makes a fixed script of nineteen calls, or a beginning of it, blames the stage where it stops with the failure that belongs to the answer it got, and cleans up iff the host may exist by then |
| AuthorizedStartScript.AdmittedMeans | launcher/src/neko_launcher/application/authorized_core.py:607-635 | what a start is admitted with: no other under way, well-formed references, a live session on a known installation |
| AuthorizedStartScript.GuardsRefuse | launcher/src/neko_launcher/application/authorized_core.py:607-635 | a start that is not admitted makes no call, and says truly why |
| AuthorizedStartScript.ShutdownMeans | launcher/src/neko_launcher/application/authorized_core.py:993-1048 | a shutdown is orderly iff the owned process is found, the Core answers STOPPED and the process exits with 0; every other course has its code |
| PacketParser.ParsePacket | agent/neko_discord_worker.py:95-171 | on arbitrary octets the parser ends, reads only inside the frame and computes its specification |
| PacketParser.ReadIPv4 | agent/neko_discord_worker.py:113-128 | the IPv4 part, for any options |
| PacketParser.ReadIPv6 | agent/neko_discord_worker.py:129-156 | the IPv6 part with its loop over extension headers |
| PacketParser.EncodedFramesAreClassified | agent/neko_discord_worker.py:95-171 | parsing inverts encoding: any VLAN stack, options, extension chain and first fragment get exactly their verdict |
| PacketParser.CountedFramesAreWellFormed | agent/neko_discord_worker.py:95-171 | whatever is counted is the encoding of a well-formed frame |
| PacketParser.CountedOctets | agent/neko_discord_worker.py:113-156 | a frame counts for the octets behind its tags, but not for more than its IP header announces |
| PacketParser.KnownFrames | agent/neko_discord_worker.py:89-171 | two frames octet by octet, IPv4 under a tag and IPv6 with an extension header |
| PacketParser.ParseMeans | agent/neko_discord_worker.py:95-171 | a frame is counted at a sample iff it encodes a well-formed frame with that verdict |
| StatusMachine.StatusStateMachine.UpdateStatus | agent/neko_discord_worker.py:392-471 | new state and decision are those of the specified update |
| StatusMachine.ConfirmsWhatIsSettled | agent/neko_discord_worker.py:392-436 | the confirmed status is always that of the last sample that is first, STALE or equal to its predecessor |
| StatusMachine.AlertsNameTheChange | agent/neko_discord_worker.py:438-452 | in every history, a sample calls for a DEGRADED, STALE or RECOVERY alert iff it settles exactly that change of status |
| StatusMachine.RecoveriesAlternate | agent/neko_discord_worker.py:438-471 | between two recoveries announced a DEGRADED or STALE alert is sent |
| StatusMachine.SentUnlessRepeated | agent/neko_discord_worker.py:453-471 | an alert is sent iff it is a recovery, or the last alert was for another status or is at least the cooldown old |
| StatusMachine.RepeatsWaitForCooldown | agent/neko_discord_worker.py:453-471 | consecutive sent alerts of one status are at least the cooldown apart |
| RuntimeConfig.ParseMeans | supabase/functions/issue_launch_permit/service.ts:117-173 | exactly the records of valid configurations are accepted, whatever else they carry |
| RuntimeConfig.CanonicalText | supabase/functions/issue_launch_permit/service.ts:175-191 | the text, line by line |
| RuntimeConfig.CanonicalIsInvertible | supabase/functions/issue_launch_permit/service.ts:175-191 | the canonical text of a validated configuration and any two safe-integer times can be read back |
| RuntimeConfig.CanonicalIsInjective | supabase/functions/issue_launch_permit/service.ts:175-191 | equal canonical texts of validated configurations come from equal configurations and times |
| RuntimeConfig.CanonicalIsAscii | supabase/functions/issue_launch_permit/service.ts:180-190 | the text is ASCII, so that its UTF-8 form is one octet a character |
| RuntimeConfig.UnvalidatedTextsCollide | supabase/functions/issue_launch_permit/service.ts:74-76 | without the validation two configurations share one text |

## Left out

- ReleaseRuns.RunsStayInOrder: assumes what `Laws` says of the digests; of the operators it assumes that a signing on the normal path names the release of its reservation with a commit of 40 characters, and that the snapshot of a supersession does not miss that its sequence is live. The section above gives the exact conditions and what happens without them.
- TidyCustody.ReservedCanBeSigned: assumes of the custody before bootstrap that envelope files lie under their digests and that no entry has the name of a sequence that is not authenticated; `CustodyTakesIff` says what happens otherwise.
- ReleaseRuns.PublishAppendsLive: live releases are added only by promotion and are seen by the next load; a channel that lags behind is not modelled.
- Operating-system locks, paths and torn writes: the lock is a flag and each append and each file replacement is atomic. The ledger is a list of lines, so the missing last line feed that the reader would accept does not show.
- GitHub, the staging of drafts, the reading back of public releases and the signing device are yes-or-no answers of the outside world.
- The transition to RETIRED: no action performs it; it occurs in the lifecycle laws only.
- The forms of a supersession that read a custody directory or fall back to the ledger: only a given snapshot or provider is modelled.
- Raw JSON: duplicate keys, conversions of numbers to strings, and index entries with missing or additional fields are what the abstract readers make of them. Digest fields of an event that are neither null nor a string do not occur.
- The checks of the key registry's shape; the signer and the history share one verification of envelopes.
- Texts of errors and decisions: an error is its kind.
- Diagnostics of the start pipeline and the validation of their context.
- Adapters that return values of a wrong type, except for a target without an integer pid and a permit that is no authorization bundle.
- Exceptions that are not ordinary exceptions (interrupts of the interpreter).
- Infinite and not-a-number delays, and threads: every method of the reconnect controller runs under its lock.
- derive_health_status, formatting, Discord and persistence in the traffic worker, and packet capture itself.
- Times outside the safe integers, the request body, the signature and the HTTP side of the permit service.
- `project_release_audit_ledger.py`, the installer gates and the version-specific verification scripts: long conjunctions of field checks without state.
