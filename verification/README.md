# Loan document registry: protocol model and proofs

Three services share one DynamoDB table and one versioned object store. `services/loan_api/app.py`
creates and archives loans, documents and uploads and pins the version a client uploaded.
`services/upload_processor/app.py` joins two unordered, at-least-once signals (the malware scan and
the client's completion) and queues exactly the pinned version. `services/idp_postprocessor/app.py`
drives a queued document through screening and extraction from workflow events that come twice, late
or not at all. They coordinate only by conditional single-row updates and multi-row transactions.

This project models that protocol with every interleaving, crash and redelivery, and proves what it
keeps over whole runs. Beside it stand the Closing Disclosure selector, the watchdog's rotation, the
federated credential cache with its grant arithmetic, the two route tables and the locator codec.

`dafny verify dfyconfig.toml` checks everything.

## How it is built

- `records.dfy`, `writes.dfy`: the rows, and each conditional write as a guard and a function on the
  table. A log of history (uploads ever created, clean versions, lease tokens issued, commits,
  effects, manifests) rides along; no guard reads it. `events.dfy` ties its clean versions, leases,
  commits and effects back to the steps of the run, so that the main results speak of steps.
- `registry.dfy`: the same writes as methods of a class that updates the table in place, each proved
  equal to its function. `handlers.dfy`, `idp_handlers.dfy`, `event_routing.dfy` and
  `loan_handlers.dfy` are the services' own handlers on that class, run without interference: exactly
  when each succeeds and what it leaves on the rows, what a repeat does, and that all of it is what
  the protocol's steps reach (`alone.dfy`).
- `upload_processor.dfy`, `idp_postprocessor.dfy`, `loan_api.dfy`: each handler as program points
  with stale locals, one table or store access per step (`Steps`). A raise is the absence of a step:
  such a handler can only be dropped by a crash, which leaves its signal pending.
- `system.dfy`: any number of handlers, started by signals, events and requests at any time, with
  moving clocks and crashes. `Run` is any finite behaviour from the empty table.
- `invariant.dfy` is the inductive invariant and the relation by which tables evolve,
  `preservation.dfy` and `transactions.dfy` prove it write by write.
- `gates.dfy`: what each read of a handler must have found for it to go on.
- `wakeup.dfy`, `recovery.dfy`, `history.dfy`, `events.dfy`, `answers.dfy`, `claims.dfy`,
  `loans.dfy`, `manifests.dfy`, `workflow_events.dfy`, `status_moves.dfy`: the results over runs.
  `journey.dfy` exhibits a run that meets their premises, `staleness.dfy` and `late_document.dfy`
  runs in which a tempting property fails.
- `selector.dfy`, `selector_fields.dfy`, `selector_order.dfy`, `watchdog.dfy`, `credentials.dfy`,
  `routes.dfy`, `locator.dfy`, `batches.dfy`: the other parts.

Ids, run ids, lease tokens and S3 versions are never reused (one counter stands for them). SHA-256 is
injective, parsing inverts serializing, S3 keeps every version, and idempotency rows persist. Clocks
may read anything, except where a lemma about passes or requests asks for them not to go back.

## Where the code and its documentation differ

- `reconciliation_action` is documented as the decision used by both event orders, but `reconcile`
  does not call it; `Handlers.Reconcile` proves that the outcome is the same.
- A terminal status can be replaced by another one (`transition_failure` and `transition_status` have
  no status condition). A document's archive still keeps the run and the references it had when it
  committed, but its failure code can be an older one: exactly if the status that the archiving call
  reads is HOLD or REJECTED (`Staleness.StaleExactly`, with a run for each).
- Accepted settings can be settings under which every product request is refused
  (`FederatedCredentials.AcceptedButRefused`).
- Sections that share a first page can make the attached addenda depend on their order:
  `SelectorOrder.IndependentExactly` says exactly when, `SelectorOrder.MixedTieDecides` that an
  addendum and a section that cannot be attached on one reachable page always do.
- A document created while a loan is being archived can be missing from the manifest
  (`LateDocument.LateDocumentMissed`): never if it was created before the call read HEAD, always if
  after the call's last listing (`Manifests.ManifestWindow`).
- A configuration mismatch leaves its watchdog marker in place. Fewer than `limit` of them before a
  marker only slow it down (`Watchdog.Fairness`); `limit` of them starve it for good
  (`Watchdog.Starvation`).

## Model

| member | source | states |
|---|---|---|
| Wakeup.NoLostWakeup | services/upload_processor/app.py:682-752 | in every state of every run, an upload that is VALIDATING with a scan record for its pinned version has a pending signal that its handler will not filter out |
| Wakeup.StepKeeps | services/loan_api/app.py:1002-1039 | no step of any service, crash or redelivery loses the last useful signal; the cases are the pin (stream record), the first scan record and the acknowledgement |
| Wakeup.StaysOn | services/upload_processor/app.py:682-704 | an invocation that starts from an upload with both halves in never returns as if it were still waiting |
| Recovery.NeverStuck | services/upload_processor/app.py:427-458 | some delivery of a signal that is still pending, running alone after any lease has expired, takes such an upload out of VALIDATING within twelve steps |
| Recovery.EveryDelivery | services/upload_processor/app.py:406-458 | every delivery of such a signal that runs alone and reaches its return has taken the upload out of VALIDATING, whatever clock and PDF it met |
| Journey.JoinHappens | services/upload_processor/app.py:734-752 | there is a run from the empty table in which an upload is VALIDATING with its pinned version scanned, and which goes on to take it out of VALIDATING |
| System.StepGood | services/upload_processor/app.py:734-752 | every step of the system keeps the invariant and only moves the table forward |
| System.RunEvolves | services/idp_postprocessor/app.py:1549-1580 | between any two moments of a run ranks, pins, archives and replies only move forward |
| UploadProcessor.StepTable | services/upload_processor/app.py:287-394 | every step of the upload processor is safe whatever the other services do in between |
| IdpPostprocessor.StepTable | services/idp_postprocessor/app.py:276-503 | every step of the postprocessor is safe whatever the other services do in between |
| IdpPostprocessor.RoutePinned | services/idp_postprocessor/app.py:292-312 | the pin check makes a routed event name the document, current upload and run whose input it is |
| LoanApi.StepTable | services/loan_api/app.py:471-517 | every step of the API is safe whatever the other services do in between |
| LoanApi.CallStable | services/loan_api/app.py:1096-1164 | what a call has read and still relies on cannot be invalidated by others before it commits |
| Claims.CurrentUploadAgrees | services/idp_postprocessor/app.py:421-461 | a document and its current upload have the same run and status, but for document SCREENING with upload QUEUED |
| Claims.LagBetweenWrites | services/idp_postprocessor/app.py:448-461 | that exception is the state between the two writes of a RUNNING event, and the second write ends it |
| StatusMoves.EveryMove | services/upload_processor/app.py:635-671 | under every interleaving a status changes only by one of the named moves: what the rows must show before each, and all that each writes on them |
| StatusMoves.QueuedOnClean | services/upload_processor/app.py:635-671 | at the step that commits QUEUED the upload's summary is clean and its document waits for exactly this upload |
| StatusMoves.AdmittedByQueueing | services/upload_processor/app.py:635-671 | an upload enters the pipeline only from a completed row with a clean summary, and as QUEUED |
| Gates.CallPasses | services/loan_api/app.py:417-468 | what an API call has found at each read that it got past, on the fields |
| Gates.WorkerPasses | services/idp_postprocessor/app.py:809-902 | the same for a postprocessor's worker: routing pins, stages, and whose commit a lost race may be taken for |
| Gates.InvocationPasses | services/upload_processor/app.py:299-301 | the same for an upload processor's invocation; in particular a contradicted scan record is always read as CONFLICT |
| Claims.ExactVersionProvenance | services/upload_processor/app.py:538-671 | while its upload is current, a document that reached QUEUED carries the pinned version, an earlier step recorded a COMPLETED clean scan of exactly it, and every later artifact derives from it |
| Claims.UploadProvenance | services/upload_processor/app.py:538-671 | the same for every upload that ever reached QUEUED, current, archived or superseded, for the rest of the run |
| Claims.ArchiveProvenance | services/loan_api/app.py:1108-1136 | whatever source, selected pages and data an archive row serves derive from the pinned, clean version of the upload it names |
| Events.CleanWasReported | services/upload_processor/app.py:287-314 | a version counts as clean only after a step that recorded it on the scanner's own completed, clean report of that version |
| Claims.PinnedOnce | services/loan_api/app.py:1002-1018 | pinned version, run and artifact references of an upload are written once |
| Claims.ProgressNeverReverses | services/loan_api/app.py:773-812 | the pair of uploads created and status rank of a document never decreases lexicographically |
| Events.CommitsAreFenced | services/idp_postprocessor/app.py:1250-1274 | QUEUED, EXTRACTING and SUCCEEDED are committed only under the lease token issued last |
| Events.CommittedOnce | services/idp_postprocessor/app.py:1407-1431 | each of them is committed at most once per run id |
| Claims.DocumentConservation | services/loan_api/app.py:784-812 | uploads ever created = archives + current; archives are exactly 1..last over distinct uploads; a current upload exactly while not ARCHIVED |
| Claims.ArchiveFreezes | services/loan_api/app.py:1103-1156 | the run and references in an archive row are the document's own at the commit, though they were read earlier |
| Claims.ArchiveStaysTrue | services/loan_api/app.py:1137-1156 | an archive row's run and references stay those of the upload it names |
| Claims.ArchivedCode | services/loan_api/app.py:1096-1156 | a document archived as SUCCEEDED or FAILED leaves its own failure code in the row, under every interleaving |
| Staleness.HoldCanBeStale | services/upload_processor/app.py:343-383 | a run in which a document on HOLD is archived with a failure code that is not its own |
| Staleness.RejectedCanBeStale | services/upload_processor/app.py:343-383 | a run in which a rejected document is |
| Staleness.StaleExactly | services/loan_api/app.py:1103-1156 | a run can leave a stale failure code in an archive row exactly for the statuses HOLD and REJECTED |
| Claims.BornInCurrentInstance | services/loan_api/app.py:773-812 | no upload, so no document, is born in an instance that is not its loan's current one |
| Loans.LoanConservation | services/loan_api/app.py:493-506 | instances and revision count creates and archives; at most one instance is active, HEAD's; archives are 1..last over distinct instances with one outbox event each |
| Loans.CommittedLoads | services/loan_api/app.py:1323-1392 | from its commit on, loading an archive returns exactly the manifest the committing attempt serialized |
| Loans.LoadsOnlyCommitted | services/loan_api/app.py:1216-1228 | whatever loads was serialized by a step that committed it; losing attempts at the same key are never found |
| Loans.LoadLoanArchive | services/loan_api/app.py:1323-1392 | a manifest is loaded exactly if row, object, checksum, size, identity and count all agree, and it is the one that the object holds |
| Loans.CollectIds | services/loan_api/app.py:1383-1389 | the document loop fails exactly on a repeated id |
| Manifests.ManifestWindow | services/loan_api/app.py:1172-1220 | at its commit a manifest lists every document of the instance that was not created after this call had read HEAD, and none created after its last listing, each field by field as its row stood in between, all SUCCEEDED, HOLD, REJECTED, FAILED or ARCHIVED |
| Manifests.ManifestComplete | services/loan_api/app.py:1172-1220 | so it is complete at the commit if none was created in that window, in particular if the call ran alone, and incomplete if one was created after the last listing |
| LateDocument.LateDocumentMissed | services/loan_api/app.py:1272-1280 | a run in which a committed manifest lacks a document that its instance has at the commit |
| Events.EffectOnce | services/loan_api/app.py:398-453 | at most one transaction takes effect per idempotency identity |
| Events.RepliesAgree | services/loan_api/app.py:417-443 | successful replies to one identity have one request hash and one body, and a transaction behind them |
| Answers.RepliesFit | services/loan_api/app.py:507-517 | a reply has the kind of its route and names the loan, document and upload of its path |
| Answers.OneRunPerUpload | services/loan_api/app.py:903-949 | all successful completions of one upload name one processing run |
| WorkflowEvents.HandledBySteps | services/idp_postprocessor/app.py:932-1061 | the sequential failure handler is what the protocol's steps do alone |
| WorkflowEvents.FailureTwice | services/idp_postprocessor/app.py:917-929 | handling a failure event twice leaves exactly the table that handling it once leaves |
| WorkflowEvents.FailurePastStage | services/idp_postprocessor/app.py:917-929 | a failure leaves a document that is not at its stage alone, a screening failure in particular EXTRACTING and later |
| WorkflowEvents.FirstFailureStays | services/idp_postprocessor/app.py:932-1061 | handled one after the other, the first failing execution wins over any later failure event |
| WorkflowEvents.FailedOnce | services/idp_postprocessor/app.py:993-1036 | under every interleaving at most one workflow failure is applied to an upload |
| WorkflowEvents.DecideTries | services/idp_postprocessor/app.py:917-929 | in the protocol a failure is applied or tried exactly if the document waits at the event's stage |
| WorkflowEvents.FailureStays | services/idp_postprocessor/app.py:917-929 | a terminal document keeps what it recorded of the failing execution as long as its upload is current, and its failure code as long as it is FAILED |
| WorkflowEvents.FirstFailureWins | services/idp_postprocessor/app.py:993-1036 | under every interleaving, from the step that applies a workflow failure on, the document names that execution and kind as long as the upload is current |
| WorkflowEvents.TerminalLookupStays | services/idp_postprocessor/app.py:381-419 | a lookup row with a terminal status never returns to RUNNING and never regains a marker |
| Handlers.Reconcile | services/upload_processor/app.py:406-424 | the outcome and both rows, told on the exact version's scan: waiting, rejected or held under the verdict's own code, queued with its staged copy if nothing stands in the way and the PDF is fit; never queued on anything but a clean scan of the pinned version; by the protocol's steps |
| Handlers.RecordScan | services/upload_processor/app.py:287-333 | a report that differs from the recorded verdict leaves CONFLICT on the scan row and the summary, any other itself |
| Handlers.ReportedAs | services/upload_processor/app.py:290-297 | a verdict is clean exactly for a completed clean scan, and unknown results are failures |
| Handlers.HandleReport | services/upload_processor/app.py:734-752 | a whole GuardDuty delivery: what ends up on record, and that an unclean verdict before the completion blocks both rows under its own code |
| Handlers.LeaseAndValidate | services/upload_processor/app.py:427-458 | the leased half settles exactly on the listed statuses, and queues only a completed upload with the pinned version and a clean summary |
| Handlers.ValidateAndQueue | services/upload_processor/app.py:717-723 | queued exactly if the summary is clean and the rest of the condition holds, or this staged version is there already; both rows then name the staged copy, whose metadata leads back to them |
| Handlers.TransitionFailure | services/upload_processor/app.py:343-395 | both rows of a current upload show the disposition and code and the lease is gone; otherwise it succeeds only if the same failure is already there |
| Handlers.TransitionWorkflowFailure | services/idp_postprocessor/app.py:932-1061 | if both rows are at the event's stage, carry its run and the upload is current, both fail under its code, kind and execution and the marker goes; at any other stage only the marker goes |
| Handlers.RecordWorkflowRunning | services/idp_postprocessor/app.py:381-472 | rows QUEUED on the run become SCREENING and a new execution gets its row and marker; a late RUNNING event regresses neither a lookup row nor a status |
| IdpHandlers.TransitionHold | services/idp_postprocessor/app.py:852-902 | the document is held exactly if it is in no other terminal status and is either still this run's or already held so; the steps alone get there |
| IdpHandlers.Screening | services/idp_postprocessor/app.py:1301-1335 | under the lease, the outcome is the selector's: both rows name exactly its pages of the pinned version and their copy, or the document is held with its reason |
| IdpHandlers.Extracting | services/idp_postprocessor/app.py:1442-1454 | under the lease, both rows name the stored data points, or the document is held |
| IdpHandlers.Process | services/idp_postprocessor/app.py:809-849 | skipped exactly in the listed statuses, refused without the lease, and otherwise the rows say what the selector or the extractor came to, and nothing but the two rows is touched |
| IdpHandlers.CompleteStage | services/idp_postprocessor/app.py:1565-1580 | the success event as a whole: what the selector or extractor came to is on the rows, and the watchdog marker goes only if everything else has succeeded |
| IdpHandlers.CompleteTwice | services/idp_postprocessor/app.py:1569-1580 | handling a success again leaves exactly the same table, whatever the output says the second time |
| IdpHandlers.LeaseSuffices | services/idp_postprocessor/app.py:809-841 | in a reachable table whoever gets the lease finds both rows at its stage |
| EventRouting.RouteWorkflow | services/idp_postprocessor/app.py:276-378 | an event routes exactly if its input object's metadata names rows of one run, the upload is current, and the document pins this very version |
| EventRouting.FindRoute | services/idp_postprocessor/app.py:506-555 | a failure without input routes exactly by its lookup row to rows of its run with the upload current |
| EventRouting.HandleRouted | services/idp_postprocessor/app.py:1549-1580 | what each kind of routed event leaves on the rows, and that a mismatched configuration holds the document and keeps the marker |
| EventRouting.ProcessWorkflowEvent | services/idp_postprocessor/app.py:1549-1580 | an event from its input object to its end by the protocol's steps; one that does not route changes nothing |
| LoanHandlers.OnCreateLoan | services/loan_api/app.py:471-517 | refused exactly if the loan has a current instance; otherwise HEAD names a new active instance, and its archive count stays |
| LoanHandlers.OnCreateDocument | services/loan_api/app.py:717-842 | answered exactly with an active instance and, for a replacement, an archived document of it; the rows then are fresh |
| LoanHandlers.OnComplete | services/loan_api/app.py:903-1040 | which problem is answered when; otherwise both rows are VALIDATING under the answered run and bound to the version that was latest, or the earlier run is answered |
| LoanHandlers.NudgeProcessor | services/loan_api/app.py:883-901 | a signal is sent exactly if the upload is current, VALIDATING, completed, clean and pinned, and it names that version |
| LoanHandlers.OnArchiveDocument | services/loan_api/app.py:1096-1164 | it succeeds exactly for a current version that is SUCCEEDED, HOLD, REJECTED or FAILED and whose next number is free, and the row there has all that the document referred to |
| LoanHandlers.OnArchiveLoan | services/loan_api/app.py:1167-1304 | refused as processing exactly if a document is awaited or in the pipeline; otherwise, within the limits, HEAD lets go, and the manifest lists each document of the instance once, field by field as its row is, all of them over |
| LoanHandlers.ListDocuments | services/loan_api/app.py:376-395 | the query's loop returns each document of the instance once, as it stands, in any order |
| LoanHandlers.OnReplay | services/loan_api/app.py:417-443 | a found idempotency row: another request is refused, the same one answered as before, upload sessions exactly while document and upload still await the PDF |
| LoanHandlers.Handle | services/loan_api/app.py:1897-1912 | every route: a successful answer is stored, was reached by the protocol's steps, and can be repeated |
| LoanHandlers.Retry | services/loan_api/app.py:417-443 | a repeated request gets the same answer and changes no row, object or history |
| LoanHandlers.ArchiveNumberFree | services/loan_api/app.py:1103-1156 | in a reachable table the next archive number of a document is free |
| LoanHandlers.LoanNumberFree | services/loan_api/app.py:1272-1296 | in a reachable table the active instance of a loan can be retired under the next number |
| LoanHandlers.RowsValid | services/loan_api/app.py:856-881 | in a reachable table no completion fails for want of a run or a pinned version |
| Registry.RegistryTable.TryValidationLease | services/upload_processor/app.py:427-448 | the conditional lease update, its condition and its whole effect |
| Registry.RegistryTable.TryCommitQueued | services/upload_processor/app.py:635-671 | the two-row queueing transaction |
| Registry.RegistryTable.TryFailUpload | services/upload_processor/app.py:343-383 | the two-row failure transaction, with no status condition |
| Registry.RegistryTable.SyncSummary | services/upload_processor/app.py:690-697 | the unconditional rewrite of the scan summary |
| Registry.RegistryTable.TryRegisterRunning | services/idp_postprocessor/app.py:398-415 | the conditional registration of a running execution |
| Registry.RegistryTable.AdvanceRows | services/idp_postprocessor/app.py:421-461 | the two separate row updates of a RUNNING event |
| Registry.RegistryTable.TryPostprocessLease | services/idp_postprocessor/app.py:809-841 | the conditional postprocessing lease |
| Registry.RegistryTable.TryHold | services/idp_postprocessor/app.py:871-893 | the hold transaction, with no status condition |
| Registry.RegistryTable.TryFailWorkflow | services/idp_postprocessor/app.py:996-1036 | the three-row workflow failure transaction |
| Registry.RegistryTable.TryCommitSelected | services/idp_postprocessor/app.py:1250-1274 | the fenced transaction to EXTRACTING |
| Registry.RegistryTable.TryCommitSucceeded | services/idp_postprocessor/app.py:1407-1431 | the fenced transaction to SUCCEEDED |
| Registry.RegistryTable.ClearActiveExecution | services/idp_postprocessor/app.py:558-572 | removing the marker of one execution |
| Registry.RegistryTable.TryCreateLoan | services/loan_api/app.py:493-506 | the loan creation transaction |
| Registry.RegistryTable.TryCreateDocument | services/loan_api/app.py:773-783 | the document creation transaction |
| Registry.RegistryTable.TryReplace | services/loan_api/app.py:784-812 | the replacement upload transaction |
| Registry.RegistryTable.TryComplete | services/loan_api/app.py:1002-1024 | the completion transaction that pins the version |
| Registry.RegistryTable.TryArchiveDocument | services/loan_api/app.py:1137-1156 | the document archive transaction |
| Registry.RegistryTable.TryArchiveLoan | services/loan_api/app.py:1272-1296 | the loan archive transaction |
| Selector.PageNumbers | services/idp_postprocessor/app.py:620-634 | the loop returns the ids exactly if they are numerals in strictly increasing order |
| Selector.ContiguousAddendumPages | services/idp_postprocessor/app.py:685-705 | the loop computes the specified attachment |
| Selector.WinnerIsMaximum | services/idp_postprocessor/app.py:775-786 | a winner is a strict, unique maximum over the eligible sections, and none of those has a better printed class, a later issue, more signatures or as late an execution |
| Selector.MaximumWins | services/idp_postprocessor/app.py:775-786 | a strict maximum wins wherever it stands |
| Selector.SelectedSound | services/idp_postprocessor/app.py:783-806 | what SELECTED promises about winner, fields, pages, gaps, addenda and the page limit |
| Selector.BelowExactly | services/idp_postprocessor/app.py:654-668 | one section ranks below another exactly by printed class, then date of issue, then signatures, then latest execution |
| SelectorFields.PagesExactly | services/idp_postprocessor/app.py:620-634 | a section has its pages exactly if its ids are positive numerals in increasing order |
| SelectorFields.EligibleExactly | services/idp_postprocessor/app.py:757-781 | who competes: disclosures with readable pages within the limit, and only those naming the loan if any does |
| SelectorFields.WinnerExactly | services/idp_postprocessor/app.py:783-790 | there is a winner exactly if one competing section beats all others on its fields |
| SelectorFields.WinnerBeats | services/idp_postprocessor/app.py:663-668 | what the selected section has over every other, field by field |
| SelectorFields.HeldExactly | services/idp_postprocessor/app.py:750-799 | each hold reason, and SELECTED, exactly |
| SelectorFields.PagesChosen | services/idp_postprocessor/app.py:685-705 | the pages are the winner's, then one by one pages of gap-free addendum sections, within the limit |
| SelectorFields.NoneLeft | services/idp_postprocessor/app.py:693-705 | no gap-free addendum starts right after the last page, if sections that start on one page look alike |
| Selector.SelectedMaximal | services/idp_postprocessor/app.py:693-705 | with distinct first pages nothing more could have been attached |
| Selector.SelectPermutes | services/idp_postprocessor/app.py:750-806 | status, reason, winner and pages do not depend on the order of the sections, if sections with one first page look alike |
| Selector.DistinctFirstsAlike | services/idp_postprocessor/app.py:690-693 | distinct first pages among sections with valid pages are enough for that |
| Selector.SharedFirstPageDepends | services/idp_postprocessor/app.py:690-697 | an instance: three sections, two of them on one page, in two orders with two results |
| SelectorOrder.AddendaFollow | services/idp_postprocessor/app.py:685-705 | sorting and the loop attach what following the first section on each page attaches |
| SelectorOrder.IndependentExactly | services/idp_postprocessor/app.py:750-806 | the decision is the same for all permutations exactly if there is nothing to attach to or every choice among sections on one page stops in one place, or only beyond the limit |
| SelectorOrder.MixedTieDecides | services/idp_postprocessor/app.py:690-697 | whenever attaching can reach a page on which both a fitting addendum and an unattachable section start, two orders give different decisions |
| Selector.ExtraSectionKeepsWinner | services/idp_postprocessor/app.py:767-786 | an ineligible or strictly lower-ranked section never changes a loan-matched winner |
| Watchdog.PassLimit | services/idp_postprocessor/app.py:1461-1468 | a pass examines between 1 and 50 markers: as many as configured, or 50 |
| Watchdog.Cutoff | services/idp_postprocessor/app.py:1471-1481 | the cutoff lies 300 s back, or the configured age if that is more |
| Watchdog.Index.MoveMarker | services/idp_postprocessor/app.py:1510-1538 | a marker is moved exactly if it is still the one that was read |
| Watchdog.Index.ReconcilePass | services/idp_postprocessor/app.py:1583-1644 | the pass leaves the specified markers; queried = running + reconciled + errors, each counting exactly its outcomes |
| Watchdog.ExaminedLeaves | services/idp_postprocessor/app.py:1604-1643 | an examined marker is gone or past the cutoff exactly if nothing failed and its configuration matched |
| Watchdog.Fairness | services/idp_postprocessor/app.py:1583-1644 | with m stuck executions among the n in front, m below the limit, a marker cannot sit through more than (n - m) / (limit - m) passes unexamined |
| Watchdog.Starvation | services/idp_postprocessor/app.py:1583-1602 | behind limit stuck markers it is never examined, however many passes there are and however their cutoffs advance |
| Watchdog.MismatchIsStuck | services/idp_postprocessor/app.py:1562-1571 | a configuration mismatch keeps its marker whatever else the pass does |
| FederatedCredentials.AwsFederatedSessionProvider.GetCredentials | services/azure_api/aws_credentials.py:115-133 | answer and cache in every case: cached credentials are handed out whenever they outlive both windows, whatever STS says, and else exactly what STS delivers with enough lifetime |
| FederatedCredentials.AwsFederatedSessionProvider.Clear | services/azure_api/aws_credentials.py:185-187 | clearing empties the cache |
| FederatedCredentials.CacheOrigin | services/azure_api/aws_credentials.py:122-133 | what is cached was exchanged by an earlier request and neither cleared nor replaced since |
| FederatedCredentials.ServedFromCache | services/azure_api/aws_credentials.py:122-128 | over any run, later requests get the same credentials, even if STS fails, until the window before their expiry |
| FederatedCredentials.GrantExactly | services/loan_api/app.py:157-172 | a grant is signed exactly with a minute left, for the configured length or for what is left less thirty seconds |
| FederatedCredentials.GrantSafety | services/loan_api/app.py:157-172 | over any run, grants end 30 s before their credentials expire, and are full length until refresh - 30 s after acquisition |
| FederatedCredentials.AcceptedButRefused | services/azure_api/settings.py:209-217 | accepted settings are refused by the provider exactly from a window of duration - 60 on |
| FederatedCredentials.ServedOtherwise | services/azure_api/main.py:326-343 | below that a request is served whenever STS delivers |
| Routes.TablesAgree | services/azure_api/auth.py:49-87 | for every path and both methods the gateway's permission is that of the domain's first matching route, or both have none |
| Routes.OneRoute | services/loan_api/app.py:1869-1894 | no path matches two domain routes of one method |
| Routes.RuleMatches | services/azure_api/auth.py:49-76 | each permission rule matches exactly the paths of the routes it speaks for |
| Routes.PostPermissions | services/azure_api/auth.py:49-60 | the permission of every POST path, for all identifiers in it |
| Routes.GetPermissions | services/azure_api/auth.py:61-76 | the permission of every GET path: loans, their archives, and documents, files, data and downloads wherever they are reached |
| LocatorCodec.RoundTrip | services/idp_postprocessor/app.py:256-263 | decoding an encoded locator returns it exactly for 1 to 1536 bytes, the ones whose encoding is within 2048 characters |
| LocatorCodec.DigitsInOrder | services/upload_processor/app.py:534-535 | the digits are those of the URL-safe alphabet |
| LocatorCodec.SameNumber | services/upload_processor/app.py:534-535 | four digits spell the number of their three bytes |
| LocatorCodec.Unpadded | services/upload_processor/app.py:534-535 | the encoding is digits only and the decoder restores its padding exactly |
| LocatorCodec.B64UrlInjective | services/upload_processor/app.py:547-551 | different locators never share an encoding |
| LocatorCodec.LoneDigitRefused | services/idp_postprocessor/app.py:256-263 | a text one character longer than a multiple of four is refused |
| Batches.HandleStreamEvent | services/upload_processor/app.py:166-197 | the batch loop reports, in order, exactly the records that are of concern and unfit or failing, or raises for an unreadable batch |
| Batches.FailuresExact | services/upload_processor/app.py:178-197 | exactly those records are reported |
| Batches.QueryAll | services/loan_api/app.py:376-395 | all pages in order, or a refusal exactly if there are too many items |
| Batches.BoundedBody | services/azure_api/main.py:120-140 | what is accepted is the whole stream, within the limit and of the declared length |

## Left out

- S3, Step Functions, STS, GuardDuty and HTTP themselves: a versioned append-only store, arbitrary events and answers stand for them.
- JWT validation, hashing, JSON, Unicode normalization, UTF-8 and PDF parsing: abstract, or a nondeterministic result; identifiers reach the selector already normalized.
- Expiry of idempotency rows, bounded retries and dead-letter queues: rows persist and a signal stays pending until its handler returns.
- Audit fields (`updatedAt`, execution ARNs, `validatedAt`, page counts, configuration hashes, file names), checksums on references, the decision artifact and response formatting.
- The pages a worker selects are arbitrary in the protocol; `IdpHandlers.Screening` runs the selector itself, on sections already read.
- The index read behind `find_upload` may be stale in whether it shows the pinned version; ambiguous or missing lookups raise and are not modelled.
- Paginated queries in the protocol return the instance's documents in any order, each as read at its own step; `failureCode` of manifest entries is not modelled.
- Marker and cutoff timestamps are integers; the code compares ISO strings.
- Watchdog.Fairness: the stuck executions are one fixed set over all passes, those whose configuration does not match the deployed one, which a caller can tell beforehand; every other examined marker is assumed to be moved, as `Watchdog.ExaminedLeaves` says it is unless its update fails.
- Recovery.EveryDelivery: says what a delivery has done when it returns, not that it returns; a raise leaves its signal pending.
- LoanHandlers.Handle: request parsing and validation, presigned grants and the comparison of a renewed session's file fields are left out; with nobody in between, the re-read after a refused transaction never finds a row.
- Thread races inside the credential provider: its calls are sequential, which the domain lock enforces for product requests.
- Optional groups of the permission rules are written as `(/archives/segment)?/documents` where the code has `/(archives/segment/)?documents`, the same language.
- Registry.RegistryTable.WriteObject: S3 puts and copies always return a version id; a bucket without versioning raises in the code.
- Legacy key layouts, the Lambda rollback adapter, the Windows bridge and the repository's own check scripts.
