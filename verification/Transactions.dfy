/**
 Every transaction that touches a workflow run or its report, as a function of the
 snapshot it loaded. `Mutate` is what the handler computes in memory; `Attempt` is what
 happens when it tries to commit that against the current tables.
 */
module Transactions {
  import opened Wrappers
  import opened States
  import opened WorkflowRuns
  import opened Reports
  import opened VisualAudits
  import opened Pricing

  datatype OutboxRow = OutboxRow(event: DispatchEvent, published: bool)

  /** One report's rows: its run, the report, the shared outbox, attached PDFs, stored audits. */
  datatype Tables = Tables(
    run: RunRow,
    report: ReportRow,
    outbox: map<nat, OutboxRow>,
    pdfs: seq<AssetId>,
    audits: seq<AuditRow>)

  /** What a transaction loaded, and when. */
  datatype Snapshot = Snapshot(run: RunRow, report: ReportRow, at: Time)

  datatype DraftedReport = DraftedReport(
    work: string,
    materials: multiset<Material>,
    workUnits: Option<int>,
    confidence: string)

  /** The unified result of the AI steps: a draft with its comparison, or a classified failure code. */
  datatype Analysis =
    | Analysed(draft: DraftedReport, comparison: string, pairs: seq<PhotoPair>, rate: Rate)
    | GaveUp(code: string)

  datatype Tx =
    | UpdateTx(edit: Content)
    | ConfirmTx
    | ReadyTx
    | SignTx(signerName: string, asset: AssetId, signatureId: nat)
    | RetryTx
    | ManualNotesTx(notes: string)
    | ClaimDraftTx
    | PersistTx(analysis: Analysis)
    | GenerateTx(pdf: AssetId)
    | ParkTx(error: string, startedAt: Time)
    | ClaimAudioTx(now: Time)
    | CompleteAudioTx(transcript: string)
    | FailAudioTx(code: string, finishedAt: Time)
    | HeartbeatTx(now: Time)

  datatype TxError =
    | RunError(run: WorkflowError)
    | ReportFault(report: ReportError)
    | AuditFault(audit: AuditError)
    | CurrencyFault(fx: FxError)
    | NothingToRetry
    | NotParked
    | NotReadyForPdf
    | AudioInvalid

  /** `Declined` returns normally without writing; `Raised` is an exception that rolls back. */
  datatype Refusal = Declined | Raised(error: TxError)

  /** The rows a transaction wants to write. `run` is saved with compare-and-swap. */
  datatype Effect = Effect(
    run: Option<RunRow>,
    report: Option<ReportRow>,
    events: seq<DispatchEvent>,
    pdfs: seq<AssetId>,
    audits: seq<AuditRow>)

  datatype TxResult = Committed(tables: Tables) | Lost | Refused(refusal: Refusal)

  function OnRun<T>(r: Result<T, WorkflowError>): Result<T, Refusal> {
    r.MapFailure(e => Raised(RunError(e)))
  }

  function OnReport<T>(r: Result<T, ReportError>): Result<T, Refusal> {
    r.MapFailure(e => Raised(ReportFault(e)))
  }

  const TEMPLATE_WORK: string :=
    "AI analysis was unavailable for this report. Please review the technician's raw notes and photos and fill in the work completed, materials, and amount manually before proceeding."

  function Fallback(): DraftedReport {
    DraftedReport(TEMPLATE_WORK, multiset{}, None, "low")
  }

  // ----- In-memory mutations, one per transaction -----

  function Update(snap: Snapshot, edit: Content): Result<Effect, Refusal> {
    var report :- OnReport(UpdateRevision(snap.report, edit.work, edit.amountCents, Some(edit.currency), Some(edit.materials)));
    if snap.run.state == ManualInputRequired then
      var run :- OnRun(Resume(snap.run, ReviewPending));
      Success(Effect(Some(run), Some(report), [], [], []))
    else
      Success(Effect(None, Some(report), [], [], []))
  }

  function Ready(snap: Snapshot, now: Time): Result<Effect, Refusal> {
    var report :- OnReport(MarkReady(snap.report, now));
    var run :- OnRun(Transition(snap.run, SignaturePending));
    Success(Effect(Some(run), Some(report), [], [], []))
  }

  function SignReport(snap: Snapshot, signature: Signature): Result<Effect, Refusal> {
    var report :- OnReport(Sign(snap.report, signature));
    var finalizing :- OnRun(Transition(snap.run, FinalizationPending));
    var run :- OnRun(Transition(finalizing, PdfPending));
    var event :- OnRun(Dispatch(run));
    Success(Effect(Some(run), Some(report), [event], [], []))
  }

  /** A draft re-runs its first pending stage, a signed report its PDF. */
  function RetryTarget(snap: Snapshot): Result<WorkflowState, Refusal> {
    if snap.run.state != ManualInputRequired && snap.run.state != Failed then Failure(Raised(NothingToRetry))
    else match snap.report.status
         case Draft => Success(if snap.run.input.transcription.Some? then TranscriptionPending else DraftingPending)
         case Signed => Success(PdfPending)
         case _ => Failure(Raised(NothingToRetry))
  }

  function Retry(snap: Snapshot): Result<Effect, Refusal> {
    var target :- RetryTarget(snap);
    var run :- OnRun(Resume(snap.run, target));
    var event :- OnRun(Dispatch(run));
    Success(Effect(Some(run), None, [event], [], []))
  }

  function ManualNotes(snap: Snapshot, notes: string): Result<Effect, Refusal> {
    if snap.run.state != ManualInputRequired then Failure(Raised(NotParked))
    else
      var noted := snap.run.(input := snap.run.input.(drafting := Some(notes)));
      var run :- OnRun(Resume(noted, DraftingPending));
      var event :- OnRun(Dispatch(run));
      Success(Effect(Some(run), None, [event], [], []))
  }

  function ClaimDraft(snap: Snapshot, now: Time): Result<Effect, Refusal> {
    if snap.run.state != DraftingPending || snap.run.claimedAt.Some? then Failure(Declined)
    else Success(Effect(Some(Claim(snap.run, now)), None, [], [], []))
  }

  /** The stored audit: requested, started and succeeded within one transaction. */
  function StoredAudit(analysis: Analysis, amountCents: Option<int>, currency: string): Result<AuditRow, Refusal>
    requires analysis.Analysed?
  {
    var price := ProvidedPriceUsd(amountCents, currency, analysis.rate);
    var requested :- Request(analysis.pairs, analysis.draft.work, amountCents, currency, price)
                     .MapFailure(e => Raised(AuditFault(e)));
    Success(requested.(status := Succeeded, result := Some(analysis.comparison)))
  }

  function Persist(snap: Snapshot, analysis: Analysis): Result<Effect, Refusal> {
    match analysis
    case Analysed(draft, comparison, _, rate) =>
      var currency := snap.report.content.currency;
      var amount :- ConvertUsdCents(SuggestedAmountCents(draft.workUnits), currency, rate)
                    .MapFailure(e => Raised(CurrencyFault(e)));
      var report :- OnReport(ApplyAi(snap.report, draft.work, draft.materials, amount, draft.confidence, Some(comparison)));
      var audit :- StoredAudit(analysis, amount, currency);
      var run :- OnRun(Transition(StepSucceeded(snap.run), ReviewPending));
      Success(Effect(Some(run), Some(report), [], [], [audit]))
    case GaveUp(code) =>
      var draft := Fallback();
      var report :- OnReport(ApplyAi(snap.report, draft.work, draft.materials, None, draft.confidence, None));
      Success(Effect(Some(FailWith(snap.run, code)), Some(report), [], [], []))
  }

  function Generate(snap: Snapshot, pdf: AssetId, now: Time): Result<Effect, Refusal> {
    if snap.report.status != Signed || snap.report.signatures == [] || snap.run.state != PdfPending then
      Failure(Raised(NotReadyForPdf))
    else
      var report :- OnReport(Complete(snap.report, now));
      var run :- OnRun(Transition(StepSucceeded(snap.run), Completed));
      Success(Effect(Some(run), Some(report), [], [pdf], []))
  }

  function Park(snap: Snapshot, error: string, startedAt: Time): Result<Effect, Refusal> {
    if snap.run.state != PdfPending then Failure(Declined)
    else Success(Effect(Some(FailureRecorded(snap.run, error, startedAt, 1)), None, [], [], []))
  }

  function ClaimAudio(snap: Snapshot, now: Time): Result<Effect, Refusal> {
    if || snap.run.state != TranscriptionPending
       || (snap.run.nextRetryAt.Some? && snap.run.nextRetryAt.value > now)
       || !CanClaim(snap.run, now, CLAIM_LEASE_SECONDS)
    then Failure(Declined)
    else if snap.run.input.transcription.None? || snap.run.input.transcription.value.mediaAssetId.None? then
      Failure(Raised(AudioInvalid))
    else
      Success(Effect(Some(Claim(snap.run, now)), None, [], [], []))
  }

  function Transcribed(input: InputData, transcript: string): InputData {
    var media := if input.transcription.Some? then input.transcription.value.mediaAssetId else None;
    InputData(Some(TranscriptionInput(media, Some(transcript))), Some(transcript))
  }

  function CompleteAudio(snap: Snapshot, transcript: string): Result<Effect, Refusal> {
    if snap.run.state != TranscriptionPending || snap.run.claimedAt.None? then Failure(Raised(AudioInvalid))
    else
      var noted := snap.run.(input := Transcribed(snap.run.input, transcript));
      var run :- OnRun(Transition(StepSucceeded(noted), DraftingPending));
      var event :- OnRun(Dispatch(run));
      Success(Effect(Some(run), None, [event], [], []))
  }

  function FailAudio(snap: Snapshot, code: string, finishedAt: Time): Result<Effect, Refusal> {
    if snap.run.state != TranscriptionPending then Failure(Declined)
    else
      var run := FailureRecorded(snap.run, code, finishedAt, 3);
      if run.state == TranscriptionPending then
        var event :- OnRun(Dispatch(run));
        Success(Effect(Some(run), None, [event], [], []))
      else
        Success(Effect(Some(run), None, [], [], []))
  }

  function Heartbeat(snap: Snapshot, now: Time): Result<Effect, Refusal> {
    if snap.run.state != TranscriptionPending || snap.run.claimedAt.None? then Failure(Declined)
    else Success(Effect(Some(Claim(snap.run, now)), None, [], [], []))
  }

  /** `now` is the clock reading a transaction takes between its load and its save. */
  function Mutate(tx: Tx, snap: Snapshot, now: Time): Result<Effect, Refusal> {
    match tx
    case UpdateTx(edit) => Update(snap, edit)
    case ConfirmTx =>
      var report :- OnReport(Confirm(snap.report, now));
      Success(Effect(None, Some(report), [], [], []))
    case ReadyTx => Ready(snap, now)
    case SignTx(name, asset, id) => SignReport(snap, Signature(id, name, now, asset))
    case RetryTx => Retry(snap)
    case ManualNotesTx(notes) => ManualNotes(snap, notes)
    case ClaimDraftTx => ClaimDraft(snap, now)
    case PersistTx(analysis) => Persist(snap, analysis)
    case GenerateTx(pdf) => Generate(snap, pdf, now)
    case ParkTx(error, startedAt) => Park(snap, error, startedAt)
    case ClaimAudioTx(at) => ClaimAudio(snap, at)
    case CompleteAudioTx(transcript) => CompleteAudio(snap, transcript)
    case FailAudioTx(code, finishedAt) => FailAudio(snap, code, finishedAt)
    case HeartbeatTx(at) => Heartbeat(snap, at)
  }

  function AddEvents(outbox: map<nat, OutboxRow>, events: seq<DispatchEvent>): map<nat, OutboxRow> {
    if events == [] then outbox
    else AddEvents(outbox, events[..|events| - 1])[events[|events| - 1].id := OutboxRow(events[|events| - 1], false)]
  }

  function Write(t: Tables, e: Effect): Tables {
    Tables(
      if e.run.Some? then e.run.value else t.run,
      if e.report.Some? then e.report.value else t.report,
      AddEvents(t.outbox, e.events),
      t.pdfs + e.pdfs,
      t.audits + e.audits)
  }

  /** A transcription claim is saved before its recording is looked at, so a lost save is noticed first. */
  predicate NoticedAfterSave(tx: Tx, refusal: Refusal) {
    tx.ClaimAudioTx? && refusal == Raised(AudioInvalid)
  }

  /** Commit what was computed from `snap`, unless the run's version moved in the meantime. */
  function Attempt(t: Tables, tx: Tx, snap: Snapshot, now: Time): TxResult {
    match Mutate(tx, snap, now)
    case Failure(refusal) =>
      if NoticedAfterSave(tx, refusal) && t.run.stateVersion != snap.run.stateVersion then Lost else Refused(refusal)
    case Success(e) =>
      if e.run.Some? && t.run.stateVersion != snap.run.stateVersion then Lost else Committed(Write(t, e))
  }

  /** Transactions started by a person; the rest are started by workers. */
  predicate ByPerson(tx: Tx) {
    tx.UpdateTx? || tx.ConfirmTx? || tx.ReadyTx? || tx.SignTx? || tx.RetryTx? || tx.ManualNotesTx?
  }

  /** Worker transactions that conclude a step, well or badly. */
  predicate Concludes(tx: Tx) {
    tx.PersistTx? || tx.GenerateTx? || tx.ParkTx? || tx.CompleteAudioTx? || tx.FailAudioTx?
  }

  /** What the callers guarantee about arguments: HTTP and transcript length validation. */
  predicate Validated(tx: Tx) {
    match tx
    case ManualNotesTx(notes) => 20 <= |notes| <= 20_000
    case CompleteAudioTx(transcript) => 20 <= |transcript| <= 20_000
    case _ => true
  }

  /** Clock readings passed in were taken before the load. */
  predicate Timely(tx: Tx, at: Time) {
    match tx
    case ParkTx(_, startedAt) => startedAt <= at
    case ClaimAudioTx(now) => now <= at
    case FailAudioTx(_, finishedAt) => finishedAt <= at
    case HeartbeatTx(now) => now <= at
    case _ => true
  }
}
