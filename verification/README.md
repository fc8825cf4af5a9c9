# Paid generations, terminal delivery and text codecs: a Dafny model

This project models the part of the studio that must not fail: at most one paid provider generation per
generation attempt, each attempt's outcome settled exactly once, and the text formats the pipeline stores its
results in. Everything below is proved for all inputs, all runs and all reachable states.

The model has three layers.

* **The Worker's journal and the golden rule.** `RecoveryStates`, `JournalRecords`, `RecoveryClassifier` and
  `RecoveryJournal` follow the sources method by method: a record's transitions, the effect and the refusals of
  each mark, the classifiers and plans, and the journal directory as a class whose methods change it.
  `JournalHistory` and `GoldenRule` prove what every run of operations keeps, and exactly when the golden rule
  holds. `ProviderCalls` adds handlers with a program counter, crashes between any two steps, and the provider.
* **Delivery and ownership between Worker and Control Plane.** `PendingAckStore` and `Inbox` are the two ends of
  an acknowledged message. `Delivery` is the transition system of one Worker, a network that loses, duplicates
  and reorders, and the cloud; `DeliveryGuarantees`, `DeliveryOutcomes`, `DeliveryLosses` and
  `DeliverySettlement` state what it guarantees and exactly where that ends. `Ownership`,
  `OwnershipTransactions` and `OwnershipSafety` are the offer, lease, recovery and terminal transactions on one
  attempt together with the outbox row of each offer. `CrossTier` puts one Control Plane and any number of
  Workers together. `ClaimRecover` is the in-process facade with its restart recovery. `Reconcile` and `Drain`
  are the reconcile batches and the graceful shutdown.
* **Text.** `Csv` (section 2 of RFC 4180), `IndexFile`, `QuoteRepair` (sections 2 and 7 of RFC 8259) and
  `Metadata`, each a loop proved against a specification by suffix, and the specification proved against its
  inverse.

Code that changes state is modelled as classes and methods. Each such method is proved equal to a function of
the state before it, and the properties are lemmas about runs of those functions.

## Where the code does not do what its documents say

The model follows the code. Each of these is a lemma, with the exact condition under which the promise holds.

* The golden rule has a gap in its sibling guard: it looks at the submitted flag and the local state, not at the
  ordinal. A record failed, canceled or parked inside the submit window is booked and invisible
  (`GoldenRule.HiddenExactly`, `StepGolden`, `RunGolden`, `AbandonedWindowPaysTwice`). With one job per attempt,
  or without such abandonments, the rule holds (`OneJobPerAttemptIsGolden`, `CalmRunsAreGolden`).
* Deleting a booked record (sweep, remove, quarantine, damage) takes the evidence with it: the document assumes
  that nobody offers a swept attempt again, and the same condition appears here as `lost` and `forgotten`.
* "Never regresses past submission" is false of local states through parking (`RecoveryStates.RegressionExactly`);
  it is true of the ordinal and the evidence. Parking also never ends for the classifier before the terminal
  (`RecoveryClassifier.ParkedUntilTerminal`).
* A crash, or a failed write, between the journal's terminal and the pending-ack store loses the terminal
  (`DeliveryLosses.CrashBetweenWritesLosesTerminal`, and `LostOnlyBetweenWrites`: nothing else does). One between
  the store and the journal on the ACK leaves the record open for ever
  (`DeliverySettlement.CrashInAckWindowNeverSettles`, and `AcknowledgedExactly`: nothing else does).
* An offer for a job whose record cannot go to RUNNING leaves the job in memory without a handler, because it is
  put there before the journal refuses; canceling it, or stopping the Worker, then emits JOB_CANCELED. If the
  record is canceled, the no-op of the journal lets a second message out, and an acknowledged job becomes open
  again (`DeliveryLosses.ReofferedCancelIsSentAgain`, `LostCancelCanStillSettle`). If it ended otherwise, the
  refused message stays in memory and the next offer publishes it, so the cloud can book a cancellation that the
  journal contradicts (`RefusedCancelIsBooked`). Exactly one message per job is stored iff no step ends a job
  whose record already has that terminal (`DeliveryOutcomes.OneMessageExactly`); taking up no offer for a canceled
  record, and no resume over a running handler, is enough (`OneTerminalMessagePerJob`).
* Replays keep the original `sentAt`; the documents say it is stamped again. A terminal first seen more than two
  minutes late is never answered (`DeliveryGuarantees.LateMessageNeverAnswered`).
* Resuming results on a reconnect while their handler still runs stores two terminal messages for one job
  (`DeliveryOutcomes.ResumingAnActiveJobSendsTwice`); the cloud still applies one.
* "Still PENDING, never SENT" does not prove non-delivery. Four interruptions hide a write: sending again after a
  settlement timeout, taking over or releasing a claim between its write and its mark, and a write by a claimant
  that has lost the claim, because the socket is not guarded by the claim token
  (`OwnershipSafety.InterruptionsHideDelivery`; exactly these: `StepAccounts`). And a claimant that still has the
  row in memory can write it after the offer was retired (`LateWriteReachesSecondWorker`): retiring is final iff
  nobody has written the offer and nobody has it in memory to write (`RetiringIsFinalExactly`). Without a project
  affinity a re-offer can then reach a second Worker (`ReofferReachesSecondWorker`); `StepSole` has the exact
  condition, over late writes as well.
* Releasing a project's affinity does not ask whether an attempt is open, and assigning one to a project that has
  none skips that check too. A re-offer then takes the attempt to a second Worker, and both can ask the provider
  (`OwnershipSafety.ReleaseReachesSecondWorker`, `CrossTier.ReleasedAffinityPaysTwice`); an attempt leaves its
  Worker iff the affinity is released while it is open (`OwnershipSafety.StepPinned`).
* Accepting an offer over the wire does not close it, so expiry puts accepted and even ended attempts back under
  recovery (`OwnershipSafety.ExpiryReopensEndedAttempt`, and exactly when: `ExpiryQuarantinesExactly`).
* Restart recovery of the facade resumes deferred jobs and can do so over a living executor; both invoke the
  provider twice (`ClaimRecover.ResumingDeferredJobInvokesTwice`, `ResumeOverLivingExecutorInvokesTwice`). The
  attempt is submitted at most once iff no executor records a submission on a live job that already has one, which
  is the check that recording does not make (`SubmittedOnceExactly`). What a caller can see to is that no executor is
  started or released over a living one and no released claim is resumed; that is enough (`InvokedAtMostOnce`).
* Reconcile batches are not measured again, and from the 101st on can exceed the cap (`Reconcile.OverCap`).
* Draining stops acknowledgements along with offers (`Drain.AcksDuringDrainAreLost`).
* Metadata values with U+2028 or U+2029 are written and not read back (`Metadata.RoundTrip`).

## Model

| member | source | states |
|---|---|---|
| `RecoveryStates.NoRegressionWithoutParking` | lib/worker/recovery-states.mjs:65-103 | on any legal path of local states, a record past submission that is never parked only moves up the pipeline, never back before submission, and never enters SUBMITTING again |
| `RecoveryStates.EndsAreClosed` | lib/worker/recovery-states.mjs:65-103 | along any legal path CREATED is never re-entered and no terminal state is left |
| `RecoveryStates.RegressionExactly` | lib/worker/recovery-states.mjs:8-16 | the documented promise that a record never regresses past submission is false of the table through parking: exactly RUNNING, never CREATED, can be reached again |
| `JournalRecords.RewriteKeepsCoherence` | lib/worker/recovery-journal.mjs:201-372 | every accepted mark keeps the record coherent (ordinal at most 1, evidence and state agree), makes a legal move, and takes back no durable fact |
| `JournalRecords.MarksKeepToTheirOwn` | lib/worker/recovery-journal.mjs:201-435 | each accepted mark writes its own evidence fully and leaves the fields of every other mark alone; SUBMITTING is entered only from ordinal 0 with no submitted sibling |
| `JournalRecords.TerminalIsWrittenOnce` | lib/worker/recovery-journal.mjs:348-372 | after one terminal, another of the same kind is accepted and changes nothing, message id included; any other kind is illegal |
| `RecoveryClassifier.RetryGatesAgree` | lib/worker/recovery-classifier.mjs:78-81 | planRecovery.safeToRetry, assertNoAutoRegenerate, canAutoRetryGeneration and the RETRY_SAFE action open together, and exactly when nothing was booked and nothing else happened to the record |
| `RecoveryClassifier.PlanNeedsWho` | lib/worker/recovery-classifier.mjs:188-214 | the operator is needed in exactly four contract states, resuming is possible in all but three, and nothing is left to do exactly for settled records |
| `RecoveryClassifier.DegradesExactlyTheCrashWindow` | lib/worker/recovery-classifier.mjs:206-214 | a plan is degraded exactly for the submit crash window of a provider that declares no lookup, and the provider is inspected exactly in that window otherwise |
| `RecoveryClassifier.CoarseMissesTheCrashWindow` | lib/worker/recovery-classifier.mjs:40-70 | the coarse classifier differs from the contract on reachable records in one place: it calls a record in the submit crash window safe to retry |
| `RecoveryClassifier.OutcomeAdvances` | lib/worker/recovery-classifier.mjs:188-200 | on every submitted, unparked record the write that carries out its plan is accepted, never changes the ordinal, and strictly lowers the distance to SETTLED |
| `RecoveryClassifier.RecoverySettles` | lib/worker/recovery-classifier.mjs:188-214 | from any such record at most five accepted, non-generating writes settle it with the ordinal unchanged |
| `RecoveryClassifier.ParkedUntilTerminal` | lib/worker/recovery-classifier.mjs:150-160 | a parked record stays MANUAL_ACTION_REQUIRED through every sequence of accepted writes without a terminal, even after the operator resumed it |
| `RecoveryJournal.Journal.ReadRaw` | lib/worker/recovery-journal.mjs:140-156 | returns what is on disk; only an unreadable file is moved, to quarantine |
| `RecoveryJournal.Journal.RequireLive` | lib/worker/recovery-journal.mjs:168-173 | the record, or the error that tells a missing file from an unreadable one |
| `RecoveryJournal.Journal.Create` | lib/worker/recovery-journal.mjs:72-132 | an existing record comes back unchanged; otherwise exactly one fresh record is added |
| `RecoveryJournal.Journal.ListFiles` | lib/worker/recovery-journal.mjs:439-444 | every file once, in name order |
| `RecoveryJournal.Journal.List` | lib/worker/recovery-journal.mjs:448-457 | every file once in job order, unreadable ones as markers and moved aside, records untouched |
| `RecoveryJournal.Journal.FindSubmittedSibling` | lib/worker/recovery-journal.mjs:190-199 | finds a job iff another readable record of the attempt is marked submitted or in a post-submit local state |
| `RecoveryJournal.Journal.MarkRunning` | lib/worker/recovery-journal.mjs:201-205 | new disk and verdict are those of the specified mark, refusals included |
| `RecoveryJournal.Journal.MarkSubmitting` | lib/worker/recovery-journal.mjs:215-238 | the barrier: ordinal check, sibling scan, transition check in that order; new disk and verdict as specified |
| `RecoveryJournal.Journal.MarkSubmitted` | lib/worker/recovery-journal.mjs:245-286 | the commit, idempotent on a submitted record and sibling-guarded on a fresh one; new disk and verdict as specified |
| `RecoveryJournal.Journal.MarkDownloading` | lib/worker/recovery-journal.mjs:292-296 | new disk and verdict as specified |
| `RecoveryJournal.Journal.MarkProgress` | lib/worker/recovery-journal.mjs:298-328 | strictly increasing sequence, clamped percent, parking, lift of CREATED to RUNNING; new disk and verdict as specified |
| `RecoveryJournal.Journal.MarkLocalResult` | lib/worker/recovery-journal.mjs:332-346 | new disk and verdict as specified |
| `RecoveryJournal.Journal.MarkTerminal` | lib/worker/recovery-journal.mjs:348-372 | new disk and verdict as specified, the no-op on the same terminal included |
| `RecoveryJournal.Journal.MarkAckPending` | lib/worker/recovery-journal.mjs:426-431 | new disk and verdict as specified |
| `RecoveryJournal.Journal.MarkAcknowledged` | lib/worker/recovery-journal.mjs:433-435 | new disk and verdict as specified |
| `RecoveryJournal.Journal.HasSubmittedAttempt` | lib/worker/recovery-journal.mjs:384-391 | true iff some other readable record of the attempt is visible to the scan |
| `RecoveryJournal.Journal.ListRecoverable` | lib/worker/recovery-journal.mjs:461-463 | exactly the files that are not settled, in job order |
| `RecoveryJournal.Journal.Remove` | lib/worker/recovery-journal.mjs:472-480 | deletes the file and says whether there was one |
| `RecoveryJournal.Journal.Quarantine` | lib/worker/recovery-journal.mjs:484-491 | moves the file aside, never deletes it |
| `RecoveryJournal.Journal.Sweep` | lib/worker/recovery-journal.mjs:532-546 | removes exactly the settled records past retention, in job order, under any clock, an unparseable one included |
| `JournalHistory.RunKeepsCoherence` | lib/worker/recovery-journal.mjs:201-435 | every run of any operations keeps every record coherent |
| `JournalHistory.RefusalWritesNothing` | lib/worker/recovery-journal.mjs:175-185 | a refused mark leaves every record as it was; files it scanned are at most moved aside |
| `JournalHistory.NothingElseDeletes` | lib/worker/recovery-journal.mjs:482-522 | no operation but remove and sweep deletes a file: the files on disk and in quarantine are conserved |
| `JournalHistory.EvidenceSurvives` | lib/worker/recovery-journal.mjs:529-546 | over any run with duplicate offers, re-commits, restarts and sweeps at any clock, a record that never settled, and whose file nobody removed, quarantined or damaged, is still on file and all its submission facts still stand |
| `JournalHistory.UnsettledAttemptStaysVisible` | lib/worker/recovery-journal.mjs:384-391 | under the same proviso, an unsettled booked record stays on file, and by itself makes hasSubmittedAttempt true iff its submission is confirmed or its local state is SUBMITTING .. IMPORTED; a committed submission always does |
| `JournalHistory.SweepSparesOpenBookings` | lib/worker/recovery-journal.mjs:529-546 | a sweep removes a record iff it is terminal, acknowledged, dated, the clock is readable and the retention has passed; every other record is untouched |
| `GoldenRule.StepBalances` | lib/worker/recovery-journal.mjs:87-91 | payments per attempt equal the booked records on disk, unless a booked record was deleted |
| `GoldenRule.RunBalances` | lib/worker/recovery-journal.mjs:87-91 | the same over every run of any number of sibling jobs |
| `GoldenRule.HiddenExactly` | lib/worker/recovery-journal.mjs:187-199 | a booked record escapes the sibling scan iff its submission is unconfirmed and its local state has left SUBMITTING .. IMPORTED |
| `GoldenRule.StepGolden` | lib/worker/recovery-journal.mjs:207-225 | a step breaks at-most-one-paid-generation iff it books while the attempt has a hidden booked sibling or a deleted one |
| `GoldenRule.RunGolden` | lib/worker/recovery-journal.mjs:207-225 | over every run, the golden rule holds at the end iff no step went through that gap |
| `GoldenRule.OpenDoor` | lib/worker/recovery-journal.mjs:207-225 | a new sibling can book a paid attempt a second time exactly when no record of the attempt is visible to the scan |
| `GoldenRule.CalmRunsAreGolden` | lib/worker/recovery-journal.mjs:207-225 | every run that neither parks, fails or cancels a record inside the submit window nor deletes a booked one keeps the rule |
| `GoldenRule.FuzzedRunsAreGolden` | tests/recovery-property-tests.mjs:124-191 | the fuzzed operations keep the rule for all sequences and any number of jobs |
| `GoldenRule.OneJobPerAttemptIsGolden` | control-plane/database/migrations/0005_generation_and_jobs.sql:101 | with one job per attempt any operations at all keep the rule, as long as no booked record is deleted |
| `GoldenRule.AbandonedWindowPaysTwice` | lib/worker/recovery-journal.mjs:190-199 | concrete runs that break the documented rule: fail, cancel or park inside the submit window, then a sibling books again |
| `ProviderCalls.ProviderNeverAskedUnpaid` | lib/worker/worker-runtime.mjs:279-288 | over every run with handlers started at any time, crashes and retries, the provider is asked at most as often as the journal was charged, at most once per attempt while the ledger is golden, and never for a job recovery calls safe to retry |
| `ProviderCalls.BarrierKeepsPaidFirst` | lib/worker/worker-runtime.mjs:408-412 | passing the barrier pays before the call it permits |
| `ProviderCalls.PlayKeepsPaidFirst` | lib/worker/worker-runtime.mjs:265-346 | the pay-first invariant holds in every reachable state |
| `ProviderCalls.AskingBeforeTheBarrierPaysTwice` | lib/worker/worker-runtime.mjs:283-288 | a handler that asks first and only then commits is not covered: a crash leaves no trace and the call is repeated |
| `PendingAckStore.PendingAcks.PutEnvelope` | lib/worker/pending-ack-store.mjs:59-79 | stores exactly the ack-tracked types under their message id and refuses all others |
| `PendingAckStore.PendingAcks.Has` | lib/worker/pending-ack-store.mjs:89-92 | membership |
| `PendingAckStore.PendingAcks.RemoveMessage` | lib/worker/pending-ack-store.mjs:113-118 | removes one message and says whether it was there |
| `PendingAckStore.PendingAcks.HandleAck` | lib/worker/pending-ack-store.mjs:123-137 | an accepted message is dropped, a refused one is set aside, an unknown one changes nothing |
| `PendingAckStore.PendingAcks.List` | lib/worker/pending-ack-store.mjs:95-105 | every pending message once, in message order |
| `Inbox.InboxService.ApplyTerminal` | control-plane/src/persistence/transactions/ownership.mjs:306-343 | inserts a job's terminal once, repeats for the same message, refuses a conflicting one |
| `Inbox.InboxService.ProcessInboundEnvelope` | control-plane/src/processor/inbox-service.mjs:220-287 | dedupe before skew before the transaction: tables and answer as specified |
| `Delivery.ActKeepsSafe` | lib/worker/worker-runtime.mjs:138-253 | every step of Worker, network and cloud keeps the delivery invariants, failing writes and jobs without a handler included |
| `Delivery.PlayKeepsSafe` | lib/worker/worker-runtime.mjs:495-537 | they hold in every reachable state |
| `DeliveryGuarantees.DeliveryIsSafe` | docs/protocol-v1.md:245-247 | over every run a job's terminal is applied at most once, a message id never stands for two messages, a stored message is pending, accepted or set aside, and the journal says acknowledged only if the cloud accepted |
| `DeliveryGuarantees.AnswersAreFinal` | control-plane/src/processor/inbox-service.mjs:193-214 | the cloud's answer to a message and a job's terminal result never change again |
| `DeliveryGuarantees.DuplicateOnlyReplays` | control-plane/src/processor/inbox-service.mjs:237-256 | a message received again, at any later time, changes nothing and gets the first answer |
| `DeliveryGuarantees.PendingDelivers` | lib/worker/local-worker-agent.mjs:120-128 | one replay, one receipt and one acknowledgement settle the job iff the cloud sees the message within the skew window, may take it and has no other terminal for the job |
| `DeliveryGuarantees.LateMessageNeverAnswered` | control-plane/src/processor/inbox-service.mjs:242-246 | a message whose first arrival is outside the skew window is never answered however often it is replayed: replays keep the original sentAt, which the documents say is stamped again |
| `DeliveryGuarantees.ActMoves` | lib/worker/worker-runtime.mjs:422-537 | the only ways a job's record, handler, place in memory, pending messages and write in progress change in one step |
| `DeliveryOutcomes.MessagesAreConserved` | lib/worker/worker-runtime.mjs:511-531 | over every run, the messages of a job taken to the store are one for each time its record was ended plus one for each repeat of its terminal; only a sweep makes room for another end |
| `DeliveryOutcomes.OneMessageExactly` | lib/worker/recovery-journal.mjs:355-361 | while the record is not swept, a job gets at most one message iff no step ends it when its record already has that terminal, which is the no-op of markTerminal |
| `DeliveryOutcomes.OneTerminalMessagePerJob` | lib/worker/worker-runtime.mjs:422-456 | in runs that do not sweep the record, never resume results over the running handler and take up no offer for the job while its record is canceled, at most one terminal message of the job is ever stored, and it is the one its record names |
| `DeliveryOutcomes.AcknowledgedOutcomeAgrees` | lib/worker/worker-runtime.mjs:504-531 | in every run that does not sweep the record, the terminal the cloud settled for an acknowledged job is the one the journal recorded |
| `DeliveryOutcomes.ResumingAnActiveJobSendsTwice` | lib/worker/worker-runtime.mjs:573-596 | if results are resumed over a running handler, two different messages are stored for one job |
| `DeliveryLosses.UnsettleableForEver` | lib/worker/worker-runtime.mjs:565-596 | a terminal with nothing in memory, in the store or under way that could write it again is never acknowledged in any run that takes up no offer for it while its record is canceled |
| `DeliveryLosses.CrashBetweenWritesLosesTerminal` | lib/worker/worker-runtime.mjs:511-531 | a crash after the journal's terminal and before the pending-ack write loses it: it is never sent or applied unless the job is offered again, and never acknowledged unless that happens to a canceled one |
| `DeliveryLosses.LostOnlyBetweenWrites` | lib/worker/worker-runtime.mjs:511-531 | a journalled terminal without a stored message was always hit in that window |
| `DeliveryLosses.UnsentForEver` | lib/worker/worker-runtime.mjs:138-152 | nothing of a lost terminal is sent, applied or acknowledged in any run that takes up no offer for the job |
| `DeliveryLosses.ReofferedCancelIsSentAgain` | lib/worker/worker-runtime.mjs:195-253 | an offer for an ended job, then a cancel: the cancel is stored and published under a new id iff the record is canceled, and then the job has two messages and is not acknowledged |
| `DeliveryLosses.LostCancelCanStillSettle` | lib/worker/worker-runtime.mjs:443-456 | so a lost cancel is settled by one delivery in time iff the cloud has no terminal for the job yet |
| `DeliveryLosses.RefusedCancelIsBooked` | lib/worker/worker-runtime.mjs:144-149 | if the record ended otherwise, the refused cancel is published at the next offer and the cloud books it, against the journal |
| `DeliverySettlement.AcknowledgedExactly` | lib/worker/worker-runtime.mjs:123-136 | in every reachable idle state, a record whose message the cloud accepted and the store dropped is acknowledged iff that one journal write was not cut off |
| `DeliverySettlement.StoredMessageIsAcknowledged` | docs/protocol-v1.md:247-247 | for a job never swept and never ended twice that holds of any message ever stored for it |
| `DeliverySettlement.PlayKeeps` | lib/worker/worker-runtime.mjs:123-136 | journal, store and cloud fit together about every job in every reachable state |
| `DeliverySettlement.CrashInAckWindowNeverSettles` | lib/worker/worker-runtime.mjs:129-134 | a crash, or a failed write, between dropping the accepted message and telling the journal leaves the record unsettled for ever, in every continuation |
| `Ownership.RunsStayConsistent` | control-plane/src/persistence/transactions/ownership.mjs:115-534 | at most one live offer and no illegal combination of evidence in every reachable state |
| `Ownership.NoOfferAfterEvidence` | control-plane/src/persistence/transactions/ownership.mjs:183-262 | evidence only accumulates, the first terminal stays, and once there is evidence no run ever mints another offer |
| `OwnershipSafety.OnlyTheOfferedWorkerIsHeard` | control-plane/src/persistence/transactions/ownership.mjs:437-464 | while an offer is live no event, fact or terminal from another Worker has any effect, however late |
| `OwnershipSafety.StepSole` | control-plane/src/persistence/transactions/ownership.mjs:183-262 | a step exposes a second Worker to the attempt iff it claims for, or re-offers to, another Worker while an earlier offer is live, was written, is still sendable, or is in the memory of a claimant that can write it; expiry, recovery and the steps of the outbox, late writes included, never do |
| `OwnershipSafety.ReachesExactly` | control-plane/src/processor/outbox-processor.mjs:84-112 | an offer counts as reaching its Worker iff the socket has carried it or some further steps of the outbox make it do so |
| `OwnershipSafety.StepPinned` | control-plane/src/api-staging/staging-repository.mjs:99-108 | a step takes a pinned attempt off its Worker iff it releases the affinity while the attempt is open |
| `OwnershipSafety.AffinityPinsTheAttempt` | control-plane/src/persistence/transactions/ownership.mjs:369-405 | with an affinity in force before the first offer and not released while the attempt is open, every offer of every run goes to that one Worker |
| `OwnershipSafety.ReleaseReachesSecondWorker` | control-plane/src/api-staging/staging-api-service.mjs:193-208 | a release while the offer is out lets a safe re-offer, with or without a new assignment, reach a second Worker, which both are refused before it |
| `OwnershipSafety.StepAccounts` | control-plane/src/processor/outbox-processor.mjs:115-161 | a step makes a row that accounts for every write stop doing so iff it sends a sent row again, takes over or releases a claim after its write, or writes without the claim |
| `OwnershipSafety.PendingProvesUnwritten` | control-plane/src/persistence/transactions/ownership.mjs:204-212 | the PENDING-and-not-uncertain proof of non-delivery is right for rows that met none of the four interruptions, unless the claimant on the row has just written it |
| `OwnershipSafety.InterruptionsHideDelivery` | control-plane/src/persistence/repositories/protocol-repository.mjs:100-204 | each of the four interruptions, and the moment between write and mark, makes a delivered offer look undelivered |
| `OwnershipSafety.RetiringIsFinalExactly` | control-plane/src/persistence/transactions/ownership.mjs:204-218 | a retired offer can never be written again iff nobody has written it and no claimant has it in memory, neither of which the re-offer asks |
| `OwnershipSafety.LateWriteReachesSecondWorker` | control-plane/src/processor/outbox-processor.mjs:178-196 | a run: claimed in a batch, taken over and released by an instance without the session, re-offered to a second Worker, and then written to the first by the claimant that lost it |
| `OwnershipSafety.ReofferReachesSecondWorker` | control-plane/src/persistence/transactions/ownership.mjs:183-224 | without an affinity a re-offer can reach a second Worker while the first holds a written offer |
| `OwnershipSafety.RecoveryReoffersAtMostOnce` | control-plane/src/persistence/transactions/ownership.mjs:494-499 | once an offer was retired, no recovery report mints another, in any run |
| `OwnershipSafety.ExpiryQuarantinesExactly` | control-plane/src/persistence/transactions/ownership.mjs:232-254 | in every reachable state expiry puts an attempt under recovery iff its offer is open and there is evidence or delivery cannot be ruled out; terminal and evidence stand |
| `OwnershipSafety.ExpiryReopensEndedAttempt` | control-plane/src/persistence/transactions/ownership.mjs:232-254 | a run from the first claim: offered, sent, accepted, started, completed, and then expired, which puts the completed attempt back under recovery |
| `OwnershipTransactions.AttemptRows.LiveForAttempt` | control-plane/src/persistence/repositories/repositories.mjs:163-168 | the live offer, if there is one |
| `OwnershipTransactions.AttemptRows.Claim` | control-plane/src/persistence/transactions/ownership.mjs:115-176 | all checks in order; rows and error as specified |
| `OwnershipTransactions.AttemptRows.SafeReofferTo` | control-plane/src/persistence/transactions/ownership.mjs:185-224 | the quarantine is committed although the caller gets an error; every other error rolls back |
| `OwnershipTransactions.AttemptRows.Expire` | control-plane/src/persistence/transactions/ownership.mjs:232-262 | rows as specified, both cases and the rollback |
| `OwnershipTransactions.AttemptRows.Pull` | control-plane/src/api-staging/generation-control-plane.mjs:291-319 | the acceptance of an open offer by a Worker that pulls it: rows as specified |
| `OwnershipTransactions.AttemptRows.Assign` | control-plane/src/persistence/transactions/ownership.mjs:379-397 | rows and error as specified; the unresolved check is made only when there is an affinity |
| `OwnershipTransactions.AttemptRows.Release` | control-plane/src/api-staging/staging-api-service.mjs:193-208 | rows and error as specified; only a given generation is checked |
| `OwnershipTransactions.AttemptRows.RecordSubmission` | control-plane/src/persistence/transactions/ownership.mjs:269-298 | books the ordinal once; rows and error as specified |
| `OwnershipTransactions.AttemptRows.RecordTerminal` | control-plane/src/persistence/transactions/ownership.mjs:306-343 | rows and error as specified, repeat and conflict included |
| `OwnershipTransactions.AttemptRows.ReceiveTerminal` | control-plane/src/processor/inbox-service.mjs:92-115 | fact and terminal commit together or not at all |
| `OwnershipTransactions.AttemptRows.ReceiveWorkerEvent` | control-plane/src/persistence/transactions/ownership.mjs:438-464 | rows and error as specified |
| `OwnershipTransactions.AttemptRows.RecoveryReofferTo` | control-plane/src/persistence/transactions/ownership.mjs:478-510 | rows as specified |
| `OwnershipTransactions.AttemptRows.MarkRecovering` | control-plane/src/persistence/transactions/ownership.mjs:519-534 | rows as specified; possibly-submitted only latches |
| `CrossTier.OneGenerationPerAttempt` | docs/control-plane-architecture.md:297-301 | across one Control Plane and any number of Workers, with affinity in force and not released while the attempt is open, barriered handlers and no deleted booking, at most one Worker ever asks the provider for the attempt, and it asks at most once |
| `CrossTier.PlayKeepsInv` | docs/control-plane-architecture.md:297-301 | the invariant behind it, over every run |
| `CrossTier.ReleasedAffinityPaysTwice` | control-plane/src/api-staging/staging-api-service.mjs:193-208 | if the affinity is released while the first Worker has asked and its fact is on the way, a re-offer lets a second Worker ask as well |
| `ClaimRecover.PlansAreSound` | control-plane/src/api-staging/generation-control-plane.mjs:854-891 | in every run resume names only unconsumed jobs, and track exactly the unfinished consumed ones; consumption is durable |
| `ClaimRecover.ContestedClaims` | control-plane/src/api-staging/generation-control-plane.mjs:291-319 | in every run each claim that starts an executor accepts exactly one offer, and there are no more than offers open or made meanwhile |
| `ClaimRecover.ContestedClaimHasOneWinner` | control-plane/src/api-staging/generation-control-plane.mjs:291-319 | of any number of instances contesting offers, with any steps in between, at most one starts unless another offer is made |
| `ClaimRecover.SubmittedOnceExactly` | control-plane/src/api-staging/generation-control-plane.mjs:349-365 | over every interleaving the attempt is submitted at most once iff no executor records its submission on a live job that already has one; invocations never exceed submissions |
| `ClaimRecover.SubmissionsAreConserved` | control-plane/src/api-staging/generation-control-plane.mjs:349-365 | submissions are the first one and the repeats, in every run from every state |
| `ClaimRecover.InvokedAtMostOnce` | control-plane/src/api-staging/generation-control-plane.mjs:349-365 | in runs in which no executor is started or released over a living one and no released claim is resumed, the provider is invoked at most once |
| `ClaimRecover.ResumeOverLivingExecutorInvokesTwice` | control-plane/src/api-staging/generation-control-plane.mjs:349-365 | recording a submission does not refuse a second executor: resuming over a living one invokes twice |
| `ClaimRecover.ResumingDeferredJobInvokesTwice` | control-plane/src/api-staging/generation-control-plane.mjs:601-638 | recovery resumes a deferred job whose offer was released, and the scheduler starts it again: two invocations |
| `Csv.ParseCsv` | lib/csv.mjs:5-40 | the loop computes the specified reading of every text |
| `Csv.RoundTrip` | lib/csv.mjs:62-76 | reading a written document gives the (guarded) rows without those whose cells are all empty, for every cell content |
| `Csv.PlainRoundTrip` | lib/csv.mjs:62-76 | without the guard, the rows themselves |
| `Csv.DocumentsConcatenate` | lib/csv.mjs:5-40 | written documents appended to each other read as their rows appended |
| `Csv.ReadWriteRead` | lib/csv.mjs:5-40 | on every text, reading, writing and reading again equals reading |
| `Csv.LoneLineReads` | lib/csv.mjs:35-38 | a single written row reads the same without its line end |
| `Csv.GuardNeutralizes` | lib/csv.mjs:57-70 | a guarded cell starts a formula only if it is a plain number, and loses nothing |
| `Csv.SingleLineCellIsClean` | lib/csv.mjs:80-82 | the result is on one line and trimmed, clean cells are unchanged, and the operation is idempotent |
| `IndexFile.Index.FindIndex` | lib/story-files.mjs:88-91 | the first entry with the key, or none |
| `IndexFile.Index.Upsert` | lib/story-files.mjs:88-97 | replaces the first entry with the same normalised path or appends |
| `IndexFile.RunIsLastWriteWins` | lib/story-files.mjs:86-97 | any run of upserts is the last-write-wins table by normalised path, keys unique, in first-write order |
| `IndexFile.DistinctTableIsItsOwnRun` | lib/story-files.mjs:86-97 | carrying on from a loaded table with unique keys is one longer run |
| `IndexFile.RunFromMerges` | lib/story-files.mjs:86-97 | upserts on any loaded table, duplicate keys included: the first entry of a written key is its last write, every other entry stays, new keys follow |
| `IndexFile.LoadIndex` | lib/story-files.mjs:52-84 | the loop computes the specified entries of every text, old column layouts included |
| `IndexFile.SaveIndex` | lib/story-files.mjs:99-105 | the loop computes the specified text |
| `IndexFile.SaveLoad` | lib/story-files.mjs:52-105 | loading what was saved gives every entry that names a file, each field on one line, in order |
| `IndexFile.SavedRunReloads` | lib/story-files.mjs:52-105 | upserts, save and load give the last-write-wins table on single lines without the rows that then name no file, and a second save and load changes nothing; none is lost when file cells are already clean, non-empty and not the header word |
| `IndexFile.LineByLineAgrees` | lib/story-files.mjs:3-9 | the saved text has one line per row, and reading it line by line agrees with reading it whole |
| `QuoteRepair.RepairUnescapedQuotes` | lib/json-extract.mjs:68-106 | the scanner computes the specified repair of every text |
| `QuoteRepair.LookAhead` | lib/json-extract.mjs:89-93 | whether the next visible character, or the end, lets a quote close |
| `QuoteRepair.RepairOnlyAddsEscapes` | lib/json-extract.mjs:68-106 | the output is the input with backslashes added only before quotes |
| `QuoteRepair.RepairIsIdempotent` | lib/json-extract.mjs:68-106 | repairing twice is repairing once, on every text |
| `QuoteRepair.RepairInvertsDamage` | lib/json-extract.mjs:64-67 | un-escape any interior quotes of any JSON text: the repair restores it exactly iff no such quote is followed, in its own string, by a separator or closing bracket |
| `QuoteRepair.RepairKeepsJson` | lib/json-extract.mjs:68-106 | the repair is the identity on the grammar of RFC 8259 |
| `Metadata.BuildMetadataBlock` | lib/story-files.mjs:26-33 | the loop computes the specified block |
| `Metadata.SanitizedIsSafe` | lib/story-files.mjs:35-47 | a sanitised value is on one line, trimmed and without two adjacent hyphens, so it cannot end the comment |
| `Metadata.SanitizedIdentity` | lib/story-files.mjs:42-47 | safe values are unchanged and sanitising is idempotent |
| `Metadata.ParseMetadata` | lib/text.mjs:19-28 | the loop computes the specified reading of every text |
| `Metadata.RoundTrip` | lib/text.mjs:14-28 | with distinct well-shaped keys, reading a written block followed by any body gives exactly the sanitised values without U+2028 and U+2029, and stripping gives the body without leading whitespace |
| `Reconcile.BuildReconcileBatches` | lib/worker/reconcile-builder.mjs:70-120 | the batches together are every unsettled record in order, share one id, have the right index and total, only the final one is last, and packing is greedy |
| `Reconcile.PackGroups` | lib/worker/reconcile-builder.mjs:94-109 | groups concatenate to the input, each fits or is a single item, and none could have taken the next item |
| `Reconcile.OrderedConserves` | lib/worker/reconcile-builder.mjs:78-92 | each unsettled record exactly once, owed terminals first, each part in job order |
| `Reconcile.ActualSize` | lib/worker/reconcile-builder.mjs:94-119 | sizes are not measured again: a batch is as large as measured up to the width of index, total and flag |
| `Reconcile.WithinCap` | lib/worker/reconcile-builder.mjs:94-119 | with at most 101 batches every one is within the cap when each item is |
| `Reconcile.OverCap` | lib/worker/reconcile-builder.mjs:94-119 | from the 101st of more batches on, one that measured exactly the cap is over it |
| `Reconcile.OnePerBatch` | lib/worker/reconcile-builder.mjs:98-107 | items that measure exactly the cap by themselves are sent one to a batch, so such batches occur |
| `Drain.Runtime.DoStart` | lib/worker/worker-runtime.mjs:51-57 | flags and subscription as specified, idempotent |
| `Drain.Runtime.DoDrain` | lib/worker/worker-runtime.mjs:83-89 | flags and subscription as specified; no job is touched |
| `Drain.Runtime.DoStop` | lib/worker/worker-runtime.mjs:62-76 | asks every active job's handler to stop and ends the ones without a running handler |
| `Drain.Runtime.OnJobOffer` | lib/worker/worker-runtime.mjs:138-253 | a known job is not run again, an unavailable or inadmissible offer creates nothing |
| `Drain.Runtime.OnHandlerDone` | lib/worker/worker-runtime.mjs:298-345 | the outcome of a handler, canceled first |
| `Drain.ActWindsDown` | docs/recovery-contract.md:213-228 | one step while draining: active jobs only become fewer, no record or job is added, nothing is newly canceled, facts stand, and a new offer is refused |
| `Drain.DrainIsSafe` | docs/recovery-contract.md:213-228 | the same over every run from drain to stop, and the stop keeps every submission fact |
| `Drain.RunsStaySound` | lib/worker/worker-runtime.mjs:138-345 | in every run from an idle runtime, with starts, stops and cancels, records stay coherent and handlers run only for active or cancel-requested jobs |
| `Drain.AcksDuringDrainAreLost` | lib/worker/worker-runtime.mjs:83-89 | draining ends the subscription, so an acknowledgement that arrives before a restart is not recorded, where the document says the job is acknowledged |

## Left out

- Filesystem, sockets, HTTP, PostgreSQL, row-level security and triggers: the journal, the stores and the tables
  are maps that change atomically; row locks make each transaction one step.
- Pairing, credentials, cryptography, redaction and the sanitizers of evidence, errors and result metadata: no
  functional core; a sanitized value is any value.
- Identifier formats: identifiers are numbers compared for equality; where the code validates an optional one,
  the argument is omitted, given or invalid. Job ids themselves are taken to be well formed.
- Timestamps other than `acknowledgedAt` and `sentAt`, and the display and identity fields of a record (action,
  revision, correlation, idempotency keys): no decision modelled here reads them.
- Backup files next to a journal record, and unreadable files in the pending-ack directory.
- The protocol messages a Worker sends besides terminals, and the acknowledgement timers.
- Retention of inbox rows: the model never forgets that a message was seen.
- Offer deadlines and lease times: an offer may expire at any moment, which covers every clock.
- Paid approval grants, attempt creation and idempotency keys of the Control Plane.
- OwnershipSafety.StepSole: takes a Worker's rejection of an offer at its word; a rejection that arrives after the
  same Worker was offered the job again is counted against the newer offer, as in the code.
- ClaimRecover.SubmittedOnceExactly: the facade for the local Worker only; remote delivery, pacing lanes and the
  deferral limit decide when an action happens, not what it does.
- RecoveryJournal.Journal.ReadRaw: does not model an operating-system error on reading a file that exists, which
  the code answers as if there were no file.
- Delivery: publishing does not throw. The Worker's socket transport queues messages while it is disconnected; a
  queued message is one that is sent late or never.
- The release of an accepted offer is part of ClaimRecover, for the Control Plane's own process, and not of
  Ownership; the release by a remote Worker (lib/worker/remote/remote-delivery-service.mjs:390-418) and the remote
  delivery service around it are not part of this model.
- Delivery.ActKeepsSafe: does not model a failing write of the journal when a record is created, marked running or
  ended. Nothing is written and the job stays in memory, which is where a refusal of the same write leaves it
  (without a record, if creating it failed).
- GoldenRule.OneJobPerAttemptIsGolden: assumes the cloud's uniqueness of jobs per attempt, which the database
  enforces.
- CrossTier.OneGenerationPerAttempt: assumes that no booked record of the attempt is deleted and that handlers
  cross the barrier before they call; both are needed, as GoldenRule and ProviderCalls show.
- Reconcile.ActualSize: bytes of the fixed part and of each item are parameters; JSON encoding itself is not
  modelled.
- Lower-casing of file names is any function.
- Strings are sequences of characters, not UTF-16 code units; no character that a codec treats specially lies
  outside the basic plane.
- `sliceJsonPayload`, `extractSeedArray` and `JSON.parse`, `parseCsvObjects`, titles, excerpts and slugs, the
  retry loop of the language-model client, media assembly, publishing and the unimplemented scheduler design.
