# Report fulfilment, verified

JobAct turns a finished visit into a signed PDF report. One `WorkflowRun` row and one `Report` are
driven by HTTP handlers, by an outbox publisher and by two kinds of at-least-once workers. This
project models that protocol, the idempotency-key protocol in front of it, and the arithmetic and
encodings it relies on, and proves what holds in every interleaving.

How to read it:

* `States`, `WorkflowRuns`, `Reports`, `VisualAudits`: the aggregates. Each is a class whose methods
  assign fields, proved against functions on its stored row.
* `Transactions`: every transaction that touches the run or the report, as a function of the snapshot it
  loaded (`Mutate`) and of the tables its save meets (`Attempt`: compare-and-swap on `state_version`,
  report write and outbox append in one commit).
* `UnitsOfWork`, `Handlers`: the same transactions as imperative programs (load, mutate, save, register,
  drain events, commit), each proved equal to `Attempt` for any snapshot and any later tables. The
  database may have moved between load and save; nothing relates the two.
* `Protocol`: the system. A transaction is a load step and a commit step; selecting an unstamped row, sending
  it, stamping it, delivery, inbox check and record, retry, acknowledgement, external failure, a commit whose
  success the worker does not see, crash, clock and people are separate steps, and any process may stop anywhere.
* `RowInvariants`, `SystemInvariant`, `History`, `Chains`: the inductive invariant, the chain of committed
  rows, and what such a chain implies. `Safety.CommittedRowsFormChain` gives every execution its chain.
* `Writes`: what each committed transaction leaves, field by field, and where everything stored comes from.
* `Safety`: the results about executions. `Progress`, `Recovery`: from which states a report can still be
  completed. `Limits`: where the guarantees stop, each with its exact condition. `Witnesses`: executions that
  reach those states.
* `Idempotency`, `Middleware`: the key protocol and its imperative form. `Workers`, `Transcription`,
  `Failover`: the process loops. `Visits`, `Pricing`, `ReportNumbers`, `ReportCounters`, `SortedKeys`: the rest.

Time is in microseconds. A dispatch event is named by the `state_version` of the row it is committed with;
real identifiers are random, and at most one event is written per commit. A report's materials form a
multiset, because the repository loads them without an order.

Where the code and its own documentation differ, the model follows the code:

* The Retry handler says that a draft re-runs the AI analysis; a report that began as a recording is
  transcribed again, even after manual notes replaced the recording (`RetryDropsManualNotesIffRecorded`).
* `apply_ai_unified_result` says that signing still needs a human confirmation of the result; an earlier
  confirmation is enough (`DraftFreezesUnseenIffConfirmedBefore`). It also calls the currency fixed for the
  life of the report, while an edit may change it.
* The idempotency middleware says that the exact response is replayed; a JSON `null` body comes back empty
  (`ReplaysAreFaithful`), an undecodable body or a crash blocks its key (`CompletionBlocksIffUndecodable`,
  `CrashBlocksIffExecuting`), and the request text that is hashed has no separators and no method
  (`EndpointsCollideIff`).
* The manual-notes handler is described as replacing a parked recording; it accepts any parked report, and
  one parked at the PDF stage is stranded by it (`ManualNotesStrandIffSigned`, `StrandedForever`).
* The lease is there so that another worker can take over; a redelivery that meets a running lease is
  acknowledged and lost instead (`ClaimedRunDroppedIffLeaseRuns`, `CrashedTranscriptionCanStarve`).

## Model

| member | source | states |
|---|---|---|
| Safety.RunAndReportAgree | backend/src/jobact/contexts/reports/application/report_handlers.py:299-466 | in every reachable state the run's state and the report's status agree: draft before signing, pending signature iff waiting for one, signed at the PDF stage, completed iff completed, draft or signed when parked or drafting |
| Safety.NoLostWakeUp | backend/src/jobact/workflows/report_fulfillment/run.py:129-163 | under crashes, duplicates and exceptions, a run that needs a worker and is unclaimed has the dispatch event of its latest entry or retry unrecorded and still deliverable, naming its state and due time |
| Progress.AwaitingRunCanBeServed | backend/src/jobact/shared/infrastructure/postgres/outbox_publisher.py:46-82 | no lost wake-up, operationally: from every reachable state in which a run needs a worker and is unclaimed, some continuation claims it or completes its PDF; an event is sent only if its row is unstamped, and otherwise an unacknowledged entry is redelivered after the idle time |
| Progress.CompletableIffNotStranded | backend/src/jobact/contexts/reports/application/report_handlers.py:299-466 | from every reachable state in which nobody holds a claim, some continuation completes the report iff it is not a signed report sent back to drafting |
| Recovery.ClaimedDraftCompletableIff | backend/src/jobact/workflows/report_fulfillment/activities/run_report_analysis.py:171-197 | a report whose drafting step is claimed can still be completed iff it is a draft and some live process holds the claim without a result, with a storable one, or in a persist that will succeed |
| Recovery.ClaimedTranscriptionCompletableIff | backend/src/jobact/workflows/report_fulfillment/transcription_store.py:42-60 | a report whose transcription is claimed can still be completed iff one of its requests is unrecorded, or some worker past its inbox check can still settle the claim or take it over; an expired lease alone does not help |
| Limits.SilentStep | backend/src/jobact/apps/stt_worker/__main__.py:67-114 | a claimed transcription whose requests are all recorded, and that no worker can settle or take over, never changes again |
| Recovery.AbandonedStep | backend/src/jobact/workflows/report_fulfillment/activities/run_report_analysis.py:171-197 | a drafting claim that nobody can settle is never settled: every step of the system leaves it so |
| Safety.AiRunsOncePerDrafting | backend/src/jobact/workflows/report_fulfillment/activities/run_report_analysis.py:166-197 | two paid AI runs belong to different committed claims with a re-entry into drafting between them, for any duplicate or concurrent deliveries |
| Safety.HolderNeverLoses | backend/src/jobact/workflows/report_fulfillment/activities/run_report_analysis.py:480-515 | the claim holder's persist never loses its compare-and-swap, however long it takes |
| Safety.OnePdf | backend/src/jobact/workflows/report_fulfillment/activities/generate_pdf.py:60-210 | at most one PDF is attached, and there is one iff the run is completed, for any overlapping or stale generations and parkings |
| Safety.CompletedStays | backend/src/jobact/workflows/report_fulfillment/activities/generate_pdf.py:74-98 | once completed, the run's row never changes again |
| Safety.OneReview | backend/src/jobact/workflows/report_fulfillment/activities/run_report_analysis.py:444-488 | review is entered at most once per report, and as many audits are stored as drafted runs moved to review, in the same commit |
| Safety.StoredAuditMatchesReport | backend/src/jobact/workflows/report_fulfillment/activities/run_report_analysis.py:429-478 | the stored audit carries the price its auditor was shown and the report's new amount, currency and work, for every unit count and rate from one up |
| Safety.DispatchConservation | backend/src/jobact/shared/infrastructure/postgres/uow.py:77-96 | the outbox holds exactly one event per committed entry into a worker's state and per scheduled retry; rolled-back transactions contribute none |
| Safety.InputsWellFormed | backend/src/jobact/contexts/reports/application/report_handlers.py:137-153 | every reachable transcribing run has its recording, an attempt below three and a retry time iff it failed before; every drafting run has notes of at least 20 characters |
| Safety.CommittedRowsFormChain | backend/src/jobact/workflows/report_fulfillment/repository.py:82-103 | lost-update freedom: the stored rows form one chain in which each row is a legal transaction applied to exactly its predecessor, with a larger version |
| Safety.FrozenContentStays | backend/src/jobact/contexts/reports/domain/report.py:176-234 | after the freeze no step of any handler or activity changes work, amount, currency or materials |
| Safety.FrozenContentWasConfirmed | backend/src/jobact/contexts/reports/domain/report.py:171-193 | when reports are confirmed only in review, frozen content is content that a confirmation step saw |
| Safety.SigningMarks | backend/src/jobact/contexts/reports/domain/report.py:171-228 | signed and completed reports carry exactly one signature, and confirmed <= frozen <= signed <= completed <= now |
| Writes.EveryStepWrites | backend/src/jobact/workflows/report_fulfillment/repository.py:82-103 | every commit of every execution leaves run, report, PDFs and audits exactly as its transaction names them, field by field and stated without the functions that compute it, and no other step writes any of them |
| Writes.InputsComeFrom | backend/src/jobact/workflows/report_fulfillment/transcription_store.py:134-149 | in every reachable state the drafting notes are exactly those of creation, the last committed completion or the last manual request; the transcript is the last completed one, and the recording never changes |
| Writes.EverythingIsAttributed | backend/src/jobact/workflows/report_fulfillment/activities/generate_pdf.py:136-191 | in every reachable state each signature has the id, signer, asset and time of a committed signing request, the PDF is the generated one and the completion time its clock reading, and each audit has exactly the analysed pairs, drafted work and comparison |
| Writes.ContentIsAuthored | backend/src/jobact/contexts/reports/domain/report.py:116-169 | in every reachable state the content is the empty one of creation or exactly what a committed edit or drafted result put there, work, materials and amount; so is every snapshot in flight |
| Writes.PersonWrites | backend/src/jobact/contexts/reports/application/report_handlers.py:237-466 | each human request's commit: edits, confirmations, freezes, signatures with their parts in place, retry targets and manual notes |
| Writes.PersistWrites | backend/src/jobact/workflows/report_fulfillment/activities/run_report_analysis.py:402-569 | a persisted analysis leaves the drafted work, materials, priced amount, confidence, comparison and source, and the audit of it; giving up leaves the template and its code |
| Writes.WorkerWrites | backend/src/jobact/workflows/report_fulfillment/transcription_store.py:34-218 | each other worker commit: claims, heartbeats, completions with the whole transcript, scheduled retries, parking and the finished PDF |
| Writes.GoesThroughIffAccepted | backend/src/jobact/contexts/reports/application/report_handlers.py:237-466 | on rows that occur, a transaction goes through iff its stated conditions on run and report hold; otherwise the first condition that fails decides the error, and workers' claims, parkings, failures and heartbeats are declined quietly |
| Writes.CreationCarriesInput | backend/src/jobact/contexts/reports/application/report_handlers.py:131-156 | a new report holds the typed notes or recording, the creator's currency, and one unsent request for its first step |
| SystemInvariant.StepInv | backend/src/jobact/workflows/report_fulfillment/repository.py:82-103 | every step keeps the invariant over tables, outbox, streams, inbox and every process in flight: one claim holder, events that fit the run, acknowledged means recorded |
| SystemInvariant.CommitInv | backend/src/jobact/shared/infrastructure/postgres/uow.py:62-96 | a commit keeps the invariant for every other process, including stale ones that loaded earlier |
| RowInvariants.CommitKeepsJoint | backend/src/jobact/contexts/reports/application/report_handlers.py:258-466 | any transaction committed from any licensed snapshot keeps run and report in agreement |
| RowInvariants.CommitKeepsRun | backend/src/jobact/workflows/report_fulfillment/run.py:93-235 | it also keeps claims, attempts, retry times and inputs well formed |
| RowInvariants.CommitKeepsSigning | backend/src/jobact/contexts/reports/domain/report.py:116-234 | it also keeps the signing marks complete and in time order |
| RowInvariants.CommitKeepsConfirmed | backend/src/jobact/contexts/reports/domain/report.py:151-193 | it also keeps every confirmation mark over content a person saw, unless someone confirmed before review |
| History.ReachableHistory | backend/src/jobact/workflows/report_fulfillment/repository.py:82-103 | every reachable state has its legal chain, an outbox and audits accounted for by it, and a PDF iff completed |
| Chains.VersionsIncrease | backend/src/jobact/workflows/report_fulfillment/run.py:93-235 | versions strictly increase along committed rows, heartbeats included |
| Safety.NoLostUpdate | backend/src/jobact/workflows/report_fulfillment/repository.py:82-103 | each committed transaction loaded exactly the row before it, and of two that loaded the same version at most one commits |
| Safety.OneTranscriptPerStay | backend/src/jobact/workflows/report_fulfillment/transcription_store.py:104-162 | each stay in transcription has at most one committed completion, although completion does not check who holds the claim |
| Chains.OneClaimPerDrafting | backend/src/jobact/workflows/report_fulfillment/activities/run_report_analysis.py:171-197 | between two committed drafting claims drafting was entered again |
| Safety.OnlyHoldersFail | backend/src/jobact/workflows/report_fulfillment/run.py:185-192 | FAILED is reached only from a claimed drafting run by its holder giving up, although `fail` checks nothing |
| Chains.CompletedIsLast | backend/src/jobact/workflows/report_fulfillment/states.py:59-64 | a completed row has no successor in any chain |
| Safety.LeasesExclude | backend/src/jobact/workflows/report_fulfillment/transcription_store.py:42-60 | a transcription claim that follows an unreleased claim or heartbeat commits at least 120 seconds after that one's clock reading, with stale workers around |
| Safety.RetriesFollowSchedule | backend/src/jobact/workflows/report_fulfillment/run.py:208-235 | failures one and two schedule a retry after 2 and 4 seconds, the third parks, and no claim commits before a retry is due |
| Safety.EntriesCanBeClaimed | backend/src/jobact/workflows/report_fulfillment/run.py:99-104 | every committed entry into a worker's state or retry of it leaves the run unclaimed, so the dispatched worker can act |
| Safety.OutcomesBetweenPeople | backend/src/jobact/workflows/report_fulfillment/transcription_store.py:183-187 | between two human actions at most four worker steps conclude, by a decreasing measure on stage and attempts |
| Chains.DispatchesCounted | backend/src/jobact/workflows/report_fulfillment/run.py:129-163 | the events of a state number exactly the committed entries into it and its scheduled retries |
| Limits.DraftingConcludesIffDraft | backend/src/jobact/workflows/report_fulfillment/activities/run_report_analysis.py:429-441 | a drafting step can record a failure iff its report is a draft, and can succeed only then |
| Limits.StrandedForever | backend/src/jobact/contexts/reports/domain/report.py:230-234 | a signed report back in drafting stays there for the rest of every execution |
| Limits.ManualNotesStrandIffSigned | backend/src/jobact/contexts/reports/application/report_handlers.py:452-465 | manual notes on a parked run strand it iff its report is signed, and otherwise recover it |
| Limits.RetryDropsManualNotesIffRecorded | backend/src/jobact/contexts/reports/application/report_handlers.py:407-430 | retrying a failed draft transcribes again and overwrites manual notes iff the report began as a recording |
| Limits.DraftFreezesUnseenIffConfirmedBefore | backend/src/jobact/contexts/reports/domain/report.py:116-193 | drafted content can be frozen unconfirmed iff the report was confirmed before drafting; after an edit never |
| Limits.StaleSaveAgreesIff | backend/src/jobact/contexts/reports/infrastructure/report_repository.py:85-114 | after an edit or confirmation saved over newer rows, run and report still agree iff the run has not reached signing, PDF or completion |
| Limits.StaleSaveUndoesFreezeIff | backend/src/jobact/contexts/reports/infrastructure/report_repository.py:85-142 | such a save leaves an unfrozen draft, so it undoes the freeze iff the report is no longer a draft, keeps the stored signature without counting as signed iff there was one, and goes unnoticed by the run iff the report was signed and the run is not at the PDF stage or beyond it |
| Limits.StaleConfirmUnfreezes | backend/src/jobact/contexts/reports/application/report_handlers.py:485-496 | a confirmation overlapping "ready for signature" does undo the freeze under a waiting signature |
| Limits.ReadyDropsOverlappingEdit | backend/src/jobact/contexts/reports/application/report_handlers.py:304-323 | an edit that commits while "ready for signature" is in flight is lost, and the older content is frozen, iff the edit changed anything |
| Limits.ClaimedRunDroppedIffLeaseRuns | backend/src/jobact/workflows/report_fulfillment/transcription_store.py:42-60 | a redelivery that meets a claimed transcription is dropped as handled iff the lease still runs at its clock reading, and takes over otherwise |
| Limits.LeaseCutOnlyByLateHeartbeat | backend/src/jobact/workflows/report_fulfillment/transcription_store.py:202-218 | a claim less than 120 seconds after an unreleased one follows a heartbeat with a reading older than that claim, and is 120 seconds past that reading |
| Limits.TakeoverIffLeaseExpired | backend/src/jobact/workflows/report_fulfillment/run.py:124-127 | a due reading takes a claimed run over iff the stored claim time is at least 120 seconds older |
| Witnesses.LateHeartbeatBreaksLease | backend/src/jobact/workflows/report_fulfillment/activities/transcribe_audio.py:208-224 | it happens: an execution with claims at 0 and 121 seconds, a heartbeat read at 30 and committed after, and a third claim at 150 |
| Witnesses.CrashedTranscriptionCanStarve | backend/src/jobact/shared/infrastructure/redis/streams.py:46-66 | a silent transcription is reachable: a crash one second after delivery, redelivered at 120 seconds, one second before the lease ends |
| Witnesses.StrandedIsReachable | backend/src/jobact/contexts/reports/application/report_handlers.py:452-465 | an execution sends a signed report back to drafting: rendering fails once, and manual notes are given |
| Witnesses.AbandonedIsReachable | backend/src/jobact/workflows/report_fulfillment/activities/run_report_analysis.py:189-197 | an execution abandons a drafting claim: its worker dies after the commit |
| Witnesses.UnseenContentCanFreeze | backend/src/jobact/contexts/reports/domain/report.py:116-193 | an execution freezes content that no confirmation was made on |
| States.ForwardOnly | backend/src/jobact/workflows/report_fulfillment/states.py:31-65 | transitions move strictly forward by one stage, parking is possible exactly before completion, failing exactly while drafting |
| States.EveryStageBeforeCompletion | backend/src/jobact/workflows/report_fulfillment/states.py:36-65 | a path of transitions to completion passes every later stage, one step each |
| WorkflowRuns.WorkflowRun.Begin | backend/src/jobact/workflows/report_fulfillment/run.py:67-91 | a new run is unclaimed, unfailed, at version zero and without events |
| WorkflowRuns.WorkflowRun.Load | backend/src/jobact/workflows/report_fulfillment/repository.py:106-120 | a loaded run is the stored row, with no events pending |
| WorkflowRuns.WorkflowRun.TransitionTo | backend/src/jobact/workflows/report_fulfillment/run.py:93-104 | a listed transition clears all bookkeeping and bumps the version; an unlisted one fails and changes nothing |
| WorkflowRuns.WorkflowRun.ClaimAttempt | backend/src/jobact/workflows/report_fulfillment/run.py:106-122 | only the claim time and version change |
| WorkflowRuns.WorkflowRun.RequestDispatch | backend/src/jobact/workflows/report_fulfillment/run.py:129-163 | one event for the current state is appended, with recording and due time for transcription; without a recording it fails |
| WorkflowRuns.WorkflowRun.ResumeTo | backend/src/jobact/workflows/report_fulfillment/run.py:165-183 | leaves only parked or failed runs, clearing all bookkeeping |
| WorkflowRuns.WorkflowRun.FailStep | backend/src/jobact/workflows/report_fulfillment/run.py:185-192 | moves to FAILED from any state, keeping the claim |
| WorkflowRuns.WorkflowRun.RecordStepSuccess | backend/src/jobact/workflows/report_fulfillment/run.py:198-206 | clears failure bookkeeping without changing state or claim |
| WorkflowRuns.WorkflowRun.RecordFailure | backend/src/jobact/workflows/report_fulfillment/run.py:208-235 | releases the claim and either schedules the next try or parks at the limit |
| WorkflowRuns.WorkflowRun.PullEvents | backend/src/jobact/shared/domain/aggregate.py:43-51 | hands the events over once |
| Reports.Report.CreateDraft | backend/src/jobact/contexts/reports/domain/report.py:84-114 | an empty unconfirmed draft in the given currency |
| Reports.RefusalsNameTheirCause | backend/src/jobact/contexts/reports/domain/report.py:182-234 | each refused operation on a report names its cause: not a draft, frozen, unconfirmed, not waiting for a signature, or not signed |
| Reports.Report.EnsureEditable | backend/src/jobact/contexts/reports/domain/report.py:230-234 | passes iff draft and unfrozen, and says which fails |
| Reports.Report.ApplyAiUnifiedResult | backend/src/jobact/contexts/reports/domain/report.py:116-149 | replaces the drafted fields, keeping currency and confirmation; refused when not editable |
| Reports.Report.Update | backend/src/jobact/contexts/reports/domain/report.py:151-169 | replaces the given fields and withdraws the confirmation; refused when not editable |
| Reports.Report.ConfirmRevision | backend/src/jobact/contexts/reports/domain/report.py:171-174 | sets both confirmation marks; refused when not editable |
| Reports.Report.FreezeRevision | backend/src/jobact/contexts/reports/domain/report.py:176-180 | only the freeze mark changes |
| Reports.Report.MarkReadyForSignature | backend/src/jobact/contexts/reports/domain/report.py:182-193 | freezes a confirmed draft; otherwise refused with nothing changed |
| Reports.Report.SignWith | backend/src/jobact/contexts/reports/domain/report.py:195-222 | appends one signature to a frozen report waiting for it |
| Reports.Report.MarkCompleted | backend/src/jobact/contexts/reports/domain/report.py:224-228 | completes signed reports only |
| VisualAudits.VisualAuditAttempt.Start | backend/src/jobact/contexts/visual_audits/domain/visual_audit.py:158-162 | starts pending audits only |
| VisualAudits.VisualAuditAttempt.Succeed | backend/src/jobact/contexts/visual_audits/domain/visual_audit.py:164-185 | succeeds running audits only, with the result |
| VisualAudits.DistinctIff | backend/src/jobact/contexts/visual_audits/domain/visual_audit.py:112-115 | no asset is repeated within a phase iff there are as many different ones as pairs |
| VisualAudits.RowsOfMembers | backend/src/jobact/contexts/visual_audits/infrastructure/visual_audit_repository.py:25-32 | a stored row is exactly the before or after asset of the pair with its number |
| VisualAudits.InsertPhotos | backend/src/jobact/contexts/visual_audits/infrastructure/visual_audit_repository.py:23-32 | writes one before row and one after row per pair, numbered from one |
| VisualAudits.LoadPairs | backend/src/jobact/contexts/visual_audits/infrastructure/visual_audit_repository.py:66-83 | regroups rows by index in sorted order, failing on an index with a phase missing |
| VisualAudits.PhotoPairRoundTrip | backend/src/jobact/contexts/visual_audits/infrastructure/visual_audit_repository.py:23-83 | writing a pair sequence of any length and loading its rows in any order gives it back |
| Pricing.SuggestionsAddUp | backend/src/jobact/contexts/reports/domain/pricing.py:14-27 | no suggestion exactly without a positive count; one unit costs 500 cents, and the amounts of counts add up |
| Pricing.DraftedAmountIsPriced | backend/src/jobact/workflows/report_fulfillment/activities/run_report_analysis.py:556-557 | a drafted amount is 500 cents per unit in dollars, and in rubles the nearest kopeck of that at the rate, half up |
| Pricing.PriceAccurate | backend/src/jobact/shared/application/fx.py:27-37 | the dollar price of an amount is the amount itself, or the nearest cent of the amount divided by the rate; none exactly without an amount or a known currency |
| Pricing.RecognisedIff | backend/src/jobact/shared/application/fx.py:33-55 | the supported codes are USD and RUB letter by letter, in either case |
| Pricing.TiesAwayFromZero | backend/src/jobact/shared/application/fx.py:57-59 | exactly half a unit is rounded away from zero |
| Pricing.ConversionMonotone | backend/src/jobact/shared/application/fx.py:40-61 | conversion never reorders amounts, and fails iff the currency is unsupported |
| Pricing.ConversionAccurate | backend/src/jobact/shared/application/fx.py:40-61 | the converted amount is within half a minor unit of exact, and no suggestion stays none |
| Pricing.RubRoundTrip | backend/src/jobact/shared/application/fx.py:27-61 | to rubles and back is the identity for every amount at every rate from one up |
| Pricing.AllSurviveIffRateAtLeastOne | backend/src/jobact/shared/application/fx.py:27-61 | every amount survives the trip iff the rate is at least one |
| Pricing.PriceRoundTrip | backend/src/jobact/workflows/report_fulfillment/activities/run_report_analysis.py:368-372 | the price recomputed from the converted amount is exactly the one the auditor was shown, for every unit count and both currencies |
| Pricing.PriceRoundTripIff | backend/src/jobact/shared/application/fx.py:27-61 | at any rate the stored price is the shown one iff there is no suggestion, the report is in dollars, or the rounding error of the suggested amount is below half the rate |
| Pricing.SurvivesIffErrorSmall | backend/src/jobact/shared/application/fx.py:27-61 | an amount survives the trip through rubles iff its rounding error is below half the rate |
| Pricing.WholeUnitPriceSurvives | backend/src/jobact/contexts/reports/domain/pricing.py:14-27 | if a work unit costs whole kopecks, every unit count survives, at rates below one as well |
| Pricing.SmallRateCanDouble | backend/src/jobact/contexts/reports/domain/pricing.py:18-27 | one work unit at a rate of 1/1000 comes back as ten dollars instead of five |
| Failover.RunAiSteps | backend/src/jobact/workflows/report_fulfillment/activities/run_report_analysis.py:286-400 | the first provider whose draft and comparison both succeed, both taken from it, later ones never called; failure iff all fail, timeout code iff there is an error and all are timeouts |
| Failover.ResponsesToAnalysisFailures | backend/src/jobact/workflows/report_fulfillment/failures.py:24-44 | a timeout is answered 504 and other provider failures 502, both retryable |
| Failover.ResponsesToRecordings | backend/src/jobact/workflows/report_fulfillment/failures.py:45-63 | invalid and too long recordings are answered 422, too large ones 413, none retryable |
| Failover.ResponsesToTranscription | backend/src/jobact/workflows/report_fulfillment/failures.py:64-76 | an empty transcript is answered 422 and an unavailable transcriber 503, both retryable |
| Failover.ClassifiedFailureRecovered | backend/src/jobact/workflows/report_fulfillment/failures.py:24-44 | the stored code rebuilds the whole classified failure |
| UnitsOfWork.UnitOfWork.SaveRun | backend/src/jobact/workflows/report_fulfillment/repository.py:82-103 | writes iff the stored version is the expected one, and otherwise nothing |
| UnitsOfWork.UnitOfWork.SaveReport | backend/src/jobact/contexts/reports/infrastructure/report_repository.py:85-114 | the report row is overwritten unconditionally |
| UnitsOfWork.UnitOfWork.WriteOutbox | backend/src/jobact/shared/infrastructure/postgres/uow.py:90-96 | exactly the undrained events of the registered runs are added, in order, and drained |
| UnitsOfWork.UnitOfWork.Commit | backend/src/jobact/shared/infrastructure/postgres/uow.py:77-85 | writes and events become stored together |
| Handlers.CreateReport | backend/src/jobact/contexts/reports/application/report_handlers.py:79-157 | succeeds iff there is exactly one input source, the evidence is complete, notes are not blank and a recording is usable; reports everything missing; the stored rows carry that input and the creator's currency and are the protocol's initial tables, with the first event in the same commit |
| Visits.MissingRequirements | backend/src/jobact/contexts/visits/domain/visit_readiness.py:30-40 | lists exactly the unmet requirements in order; none iff there is a customer, a location, a before photo and equally many after photos |
| Handlers.UpdateReportRevision | backend/src/jobact/contexts/reports/application/report_handlers.py:237-282 | equals the protocol's transaction for any snapshot and any later tables; a parked run resumes into review |
| Handlers.ConfirmReport | backend/src/jobact/contexts/reports/application/report_handlers.py:285-296 | equals the protocol's transaction, report only |
| Handlers.ReadyForSignature | backend/src/jobact/contexts/reports/application/report_handlers.py:299-323 | equals the protocol's transaction; a refused or lost save leaves the tables alone |
| Handlers.FinalizeForPdf | backend/src/jobact/contexts/reports/application/report_handlers.py:378-380 | two transitions and a PDF event, possible only while a signature is awaited |
| Handlers.SignTheReport | backend/src/jobact/contexts/reports/application/report_handlers.py:344-384 | equals the protocol's transaction; the state between the two transitions is never stored |
| Handlers.RetryReport | backend/src/jobact/contexts/reports/application/report_handlers.py:397-431 | equals the protocol's transaction, with the target chosen by report status and recorded input |
| Handlers.ManualTranscription | backend/src/jobact/contexts/reports/application/report_handlers.py:443-466 | equals the protocol's transaction, whatever the report's status |
| Handlers.ClaimForAnalysis | backend/src/jobact/workflows/report_fulfillment/activities/run_report_analysis.py:166-197 | equals the protocol's claim: declined unless drafting and unclaimed |
| Handlers.RecordAudit | backend/src/jobact/workflows/report_fulfillment/activities/run_report_analysis.py:444-478 | one succeeded audit is added, or its validation error and no write |
| Handlers.PersistOutcome | backend/src/jobact/workflows/report_fulfillment/activities/run_report_analysis.py:402-515 | equals the protocol's transaction: result, audit and move to review, or fallback draft and FAILED, in one commit |
| Handlers.GeneratePdf | backend/src/jobact/workflows/report_fulfillment/activities/generate_pdf.py:107-210 | equals the protocol's transaction: asset, completed report and completed run in one commit |
| Handlers.ParkPdf | backend/src/jobact/workflows/report_fulfillment/activities/generate_pdf.py:74-99 | equals the protocol's transaction: parks a run that is still at the PDF stage |
| Handlers.ClaimTranscription | backend/src/jobact/workflows/report_fulfillment/transcription_store.py:34-102 | equals the protocol's claim; the save comes before the recording check, which rolls it back |
| Handlers.CompleteTranscription | backend/src/jobact/workflows/report_fulfillment/transcription_store.py:104-162 | equals the protocol's transaction, without asking who holds the claim |
| Handlers.FailTranscription | backend/src/jobact/workflows/report_fulfillment/transcription_store.py:164-200 | equals the protocol's transaction: retry with a dispatch, or parked without one |
| Handlers.HeartbeatTranscription | backend/src/jobact/workflows/report_fulfillment/transcription_store.py:202-218 | equals the protocol's transaction: extends the lease of whoever holds it |
| Workers.PublishPending | backend/src/jobact/shared/infrastructure/postgres/outbox_publisher.py:36-84 | wherever the process dies, the rows sent are a prefix of the batch, each on its own stream, and those stamped are all of them except possibly the last |
| Workers.CrashResendsAtMostOne | backend/src/jobact/shared/infrastructure/postgres/outbox_publisher.py:63-82 | a row that was sent is unstamped iff it is the one being sent at the crash |
| Workers.DrainLeavesOnlyOverflow | backend/src/jobact/shared/infrastructure/postgres/outbox_publisher.py:46-61 | an undisturbed drain leaves only what exceeds 100 rows, and only younger rows |
| Workers.RoutingMatchesProtocol | backend/src/jobact/shared/infrastructure/postgres/outbox_publisher.py:30-33 | transcription requests and only they go to the transcription stream, and both streams have the attempts the protocol assumes |
| Workers.DispatchStep | backend/src/jobact/apps/worker/__main__.py:98-169 | recorded events are not handled again; at most five calls, up to the first that returns; recorded and acknowledged together or not at all |
| Workers.DispatchTranscription | backend/src/jobact/apps/stt_worker/__main__.py:67-114 | at most three calls; an unknown type is acknowledged unrecorded |
| Workers.Consume | backend/src/jobact/apps/worker/__main__.py:186-188 | one consumer lets each event's handler finish at most once over any sequence of deliveries |
| Transcription.TranscribeAudio | backend/src/jobact/workflows/report_fulfillment/activities/transcribe_audio.py:115-206 | a claimed run stores a transcript iff everything went well and otherwise records the code of the first thing that went wrong; what is stored has 20 to 20,000 characters |
| Transcription.TryTranscribing | backend/src/jobact/workflows/report_fulfillment/activities/transcribe_audio.py:138-203 | the recorded code names the first problem: too large, damaged or invalid, too long, unavailable or any other exception, or no usable text; a rejected completion is followed by its failure |
| Transcription.StripTrims | backend/src/jobact/workflows/report_fulfillment/activities/transcribe_audio.py:152-158 | stripping removes blanks at both ends and nothing else |
| Idempotency.StepInv | backend/src/jobact/apps/api/middleware/idempotency.py:100-160 | every interleaving of claim, run, complete, release, poll and crash keeps the invariant |
| Idempotency.ExecutionsNeverOverlap | backend/src/jobact/apps/api/middleware/idempotency.py:223-247 | two executions under one key and organization never overlap, and each owns the row it claimed |
| Idempotency.ReturnsAtMostOnce | backend/src/jobact/apps/api/middleware/idempotency.py:113-149 | at most one execution under a key ever returns without raising |
| Idempotency.NeverRunsAgain | backend/src/jobact/apps/api/middleware/idempotency.py:271-283 | after that return the route is never entered again under the key, with any body |
| Idempotency.ReplaysAreFaithful | backend/src/jobact/apps/api/middleware/idempotency.py:163-197 | every replay equals that execution's status and parsed body for the same hash, and its body is the original one iff that is not a JSON null |
| Idempotency.CompletedIsReplayed | backend/src/jobact/apps/api/middleware/idempotency.py:163-176 | once a row is completed, every poll with its hash is answered with that execution's status and body, an empty one for a JSON null |
| Idempotency.UndecidedPolls | backend/src/jobact/apps/api/middleware/idempotency.py:286-297 | a poll that finds no row answers in progress at once, and one that finds its own row in progress keeps waiting |
| Idempotency.OtherHashNeverRuns | backend/src/jobact/apps/api/middleware/idempotency.py:286-297 | while the row exists a request with another hash does not run, cannot claim, and its next poll is a conflict |
| Idempotency.StartsAreAccountedFor | backend/src/jobact/apps/api/middleware/idempotency.py:223-283 | executions started equal those released after an exception plus the one that holds the row |
| Idempotency.BlockedForever | backend/src/jobact/apps/api/middleware/idempotency.py:286-297 | a key in progress with nobody executing stays blocked along every run |
| Idempotency.AnyKeyCanBlock | backend/src/jobact/apps/api/middleware/idempotency.py:113-121 | it can happen to every key: a run in which its first request wins the claim and dies |
| Idempotency.CompletionBlocksIffUndecodable | backend/src/jobact/apps/api/middleware/idempotency.py:141-153 | finishing an execution blocks its key iff its response body could not be decoded |
| Idempotency.CrashBlocksIffExecuting | backend/src/jobact/apps/api/middleware/idempotency.py:113-121 | a crash blocks a key iff the crashed request was executing or the key was blocked before |
| Middleware.KeyTable.Claim | backend/src/jobact/apps/api/middleware/idempotency.py:223-247 | inserts iff the scope has no row |
| Middleware.KeyTable.Complete | backend/src/jobact/apps/api/middleware/idempotency.py:250-268 | stores the response iff the hash matches |
| Middleware.KeyTable.Release | backend/src/jobact/apps/api/middleware/idempotency.py:271-283 | deletes only an uncompleted row with the same hash |
| Middleware.ReleaseUndoesClaim | backend/src/jobact/apps/api/middleware/idempotency.py:223-283 | releasing a won claim restores the table |
| Middleware.OptsInIff | backend/src/jobact/apps/api/middleware/idempotency.py:43-83 | a request takes part iff its verb is POST, PUT, PATCH or DELETE and its key is not empty |
| Middleware.SameScopeIff | backend/src/jobact/apps/api/middleware/idempotency.py:85-105 | two requests share a row iff key and organization agree, no principal being organization zero |
| Middleware.ScopesAreIndependent | backend/src/jobact/apps/api/middleware/idempotency.py:200-247 | a request with another key or organization leaves this one's row alone, and whether it runs does not depend on that row |
| Middleware.WaitForReplay | backend/src/jobact/apps/api/middleware/idempotency.py:286-297 | the first look that decides gives the reply, and none until the deadline means still in progress |
| Middleware.Dispatch | backend/src/jobact/apps/api/middleware/idempotency.py:75-160 | whatever other requests do to the table meanwhile, the route runs iff the request opted out or its key is new, a waiting request answers by its first deciding look, and the table is left with the settled claim |
| Middleware.SettlesAsInProtocol | backend/src/jobact/apps/api/middleware/idempotency.py:113-153 | settling does to the table exactly what the protocol's release or completion does |
| Middleware.AloneLeavesOnlyItsRow | backend/src/jobact/apps/api/middleware/idempotency.py:113-153 | without interference an exception leaves no trace and a decodable response is the only change |
| Middleware.SameTextSameRequest | backend/src/jobact/apps/api/middleware/idempotency.py:179-184 | two requests of one organization hash the same text iff they are the same, or one path followed by the organization begins the other one's and its body makes up the difference |
| Middleware.EndpointsCollideIff | backend/src/jobact/apps/api/middleware/idempotency.py:179-184 | two paths can be confused by some bodies iff they differ and one followed by the organization is a prefix of the other followed by it |
| Middleware.TextCanCollide | backend/src/jobact/apps/api/middleware/idempotency.py:179-184 | every path has such a partner: the organization moved from the body into the path |
| ReportNumbers.HumanIdInjective | backend/src/jobact/contexts/reports/infrastructure/report_repository.py:50-50 | no two (year, number) pairs print alike, however large |
| ReportNumbers.AfterPrefix | backend/src/jobact/contexts/reports/infrastructure/report_repository.py:50-50 | an identifier is JA-, the digits of the year, a dash and the padded number |
| ReportNumbers.PaddedDenotes | backend/src/jobact/contexts/reports/infrastructure/report_repository.py:50-50 | reading the padded digits gives the number back, and there are at least four |
| ReportNumbers.ListingOrder | backend/src/jobact/contexts/reports/infrastructure/report_repository.py:77-83 | reports of four-digit years list by year, then by an order on numbers given exactly for every pair of widths |
| ReportNumbers.NumericExactlyUpTo9999 | backend/src/jobact/contexts/reports/infrastructure/report_repository.py:77-83 | within a year that order is numeric on all numbers up to n iff n is at most 9999 |
| ReportCounters.CounterTable.AllocateHumanId | backend/src/jobact/contexts/reports/infrastructure/report_repository.py:40-50 | starts a series at one or increments it, and prints what was written |
| ReportCounters.StepInv | backend/src/jobact/contexts/reports/infrastructure/report_repository.py:40-50 | allocation, commit and rollback under the row lock keep every series gapless |
| ReportCounters.CommittedNumbersAreGapless | backend/src/jobact/contexts/reports/infrastructure/report_repository.py:40-50 | however creations overlap and abort, a series' committed numbers are 1 up to its counter, each once |
| ReportCounters.CommittedIdsAreUnique | backend/src/jobact/contexts/reports/infrastructure/report_repository.py:40-50 | no two committed reports of one organization print alike |

## Left out

- Liveness under fair scheduling: proved are safety, measures, and from which states completion stays reachable.
- Split reads: a transaction's run and report are loaded together. The handlers use one SELECT each, so a commit between the two could show Retry an older report than run; the compare-and-swap then decides on the run alone.
- Report-only writers (confirmation, and edits of a run that is not parked) load and save in one step, because the report row has no version; `Limits.StaleSaveAgreesIff` and `Limits.StaleSaveUndoesFreezeIff` say when a later save breaks the agreement with the run and when it undoes the freeze.
- Limits.DraftingConcludesIffDraft: one direction for a successful analysis, which also needs a supported currency and valid photo pairs.
- Workers.Consume: one consumer process of the step stream; concurrent consumers of the same event are in `Protocol`, where claims and compare-and-swap do the work.
- Stream reading: the autoclaim cursor, batch sizes and blocking reads are one delivery step that may hand any unacknowledged entry to any worker at any time; the continuations of `Progress` let the idle time pass first. Entries of unhandled types do not occur for a run.
- External answers: storage, audio inspection, transcription, AI calls, prompts and PDF rendering either return some value or raise.
- Missing rows and authorization (organization, visit, customer, media) end a transaction as an external failure that writes nothing; whether a recording is usable is a parameter of `Handlers.CreateReport`. Visits keep their own copy of the notes.
- Workflow step records, logs, costs, latencies and correlation ids carry no decision.
- Pricing: rates are exact reals, without the 28-digit decimal context; currency codes are upper-cased in ASCII.
- Idempotency: the expiry time is stored but nothing purges rows; response headers and JSON byte formatting are not kept by a replay; hashing is taken as injective on its text except where `Middleware` says otherwise.
- ReportNumbers: text order is by code point, which is what the digits and dashes of one length class sort by in the usual collations.
- Visual audits that fail or are acknowledged, and the standalone audit activity, are not reached from a report's workflow.
- The frontend, identity, rate limiting, customers, visits and uploads.
