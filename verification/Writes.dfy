/**
 What each committed transaction leaves in the tables, field by field and without the
 functions that compute it, and where everything stored in a reachable state comes from.
 */
module Writes {
  import opened Wrappers
  import opened States
  import opened WorkflowRuns
  import opened Reports
  import opened VisualAudits
  import opened Pricing
  import opened Transactions
  import opened RowInvariants
  import opened Protocol
  import opened SystemInvariant
  import opened History

  // ----- One commit -----

  /** The run moved to a new row with these fields and a higher version. */
  predicate Became(prev: RunRow, next: RunRow, state: WorkflowState, attempt: nat, retry: Option<Time>,
                   error: Option<string>, claimed: Option<Time>, input: InputData)
  {
    next == RunRow(state, attempt, retry, error, next.stateVersion, claimed, input) && prev.stateVersion < next.stateVersion
  }

  /** The run entered `state`: unclaimed, with a clean record. */
  predicate Fresh(prev: RunRow, next: RunRow, state: WorkflowState, input: InputData) {
    Became(prev, next, state, 0, None, None, None, input)
  }

  predicate OnlyClaimed(prev: RunRow, next: RunRow, at: Time) {
    Became(prev, next, prev.state, prev.attempt, prev.nextRetryAt, prev.lastError, Some(at), prev.input)
  }

  /** No asset or audit was added. */
  predicate NothingAttached(before: Tables, after: Tables) {
    after.pdfs == before.pdfs && after.audits == before.audits
  }

  /** What a person's request leaves, given the snapshot it loaded and the clock it read. */
  predicate PersonWrote(tx: Tx, snap: Snapshot, now: Time, before: Tables, after: Tables) {
    var run, run' := before.run, after.run;
    var report, report' := snap.report, after.report;
    NothingAttached(before, after) &&
    match tx
    case UpdateTx(edit) =>
      && report' == ReportRow(Draft, edit, Human, report.aiConfidence, report.comparison, None, None, None, [], None, None)
      && (if run.state == ManualInputRequired then Fresh(run, run', ReviewPending, run.input) else run' == run)
    case ConfirmTx =>
      && run' == run
      && report' == ReportRow(Draft, report.content, report.source, report.aiConfidence, report.comparison,
                              Some(now), Some(now), None, [], None, None)
    case ReadyTx =>
      && Fresh(run, run', SignaturePending, run.input)
      && report'.frozenAt == Some(now) && report' == report.(status := PendingSignature, frozenAt := report'.frozenAt)
      && report.confirmedAt.Some? && report.amountConfirmedAt.Some?
    case SignTx(signerName, asset, signatureId) =>
      && Fresh(run, run', PdfPending, run.input)
      && report' == report.(status := Signed, signedAt := Some(now), signatures := report'.signatures)
      && |report'.signatures| == 1
      && report'.signatures[0].id == signatureId && report'.signatures[0].signerName == signerName
      && report'.signatures[0].mediaAssetId == asset && report'.signatures[0].signedAt == now
    case RetryTx =>
      && after.report == before.report
      && Fresh(run, run', if before.report.status == Signed then PdfPending
                          else if run.input.transcription.Some? then TranscriptionPending else DraftingPending, run.input)
    case ManualNotesTx(notes) =>
      && after.report == before.report
      && Fresh(run, run', DraftingPending, InputData(run.input.transcription, Some(notes)))
    case _ => false
  }

  /** A draft that a machine has filled in. */
  predicate Drafted(before: ReportRow, after: ReportRow, content: Content, confidence: string, comparison: Option<string>) {
    after == ReportRow(Draft, content, Ai, Some(confidence), comparison, before.confirmedAt, before.amountConfirmedAt,
                       None, [], None, None)
  }

  predicate WorkerWrote(tx: Tx, snap: Snapshot, now: Time, before: Tables, after: Tables) {
    var run, run' := before.run, after.run;
    match tx
    case ClaimDraftTx => OnlyClaimed(run, run', now) && after.report == before.report && NothingAttached(before, after)
    case PersistTx(Analysed(draft, comparison, pairs, rate)) =>
      && Fresh(run, run', ReviewPending, run.input)
      && var currency, amount := snap.report.content.currency, after.report.content.amountCents;
         && Priced(draft.workUnits, currency, rate, amount)
         && Drafted(snap.report, after.report, Content(draft.work, amount, currency, draft.materials), draft.confidence, Some(comparison))
         && after.pdfs == before.pdfs
         && after.audits == before.audits
                            + [AuditRow(Succeeded, pairs, draft.work, amount, currency,
                                        ProvidedPriceUsd(amount, currency, rate), Some(comparison))]
    case PersistTx(GaveUp(code)) =>
      && Became(run, run', Failed, run.attempt + 1, None, Some(code), run.claimedAt, run.input)
      && Drafted(snap.report, after.report, Content(TEMPLATE_WORK, None, snap.report.content.currency, multiset{}), "low", None)
      && NothingAttached(before, after)
    case GenerateTx(pdf) =>
      && Fresh(run, run', Completed, run.input)
      && after.report == before.report.(status := CompletedReport, completedAt := Some(now))
      && after.pdfs == before.pdfs + [pdf] && after.audits == before.audits
    case ParkTx(error, _) =>
      && Became(run, run', ManualInputRequired, run.attempt + 1, None, Some(error), None, run.input)
      && after.report == before.report && NothingAttached(before, after)
    case ClaimAudioTx(at) => OnlyClaimed(run, run', at) && after.report == before.report && NothingAttached(before, after)
    case HeartbeatTx(at) => OnlyClaimed(run, run', at) && after.report == before.report && NothingAttached(before, after)
    case CompleteAudioTx(transcript) =>
      && run.input.transcription.Some?
      && Fresh(run, run', DraftingPending,
               InputData(Some(TranscriptionInput(run.input.transcription.value.mediaAssetId, Some(transcript))), Some(transcript)))
      && after.report == before.report && NothingAttached(before, after)
    case FailAudioTx(code, finishedAt) =>
      && (match run.attempt
          case 0 => Became(run, run', TranscriptionPending, 1, Some(finishedAt + 2 * SECOND), Some(code), None, run.input)
          case 1 => Became(run, run', TranscriptionPending, 2, Some(finishedAt + 4 * SECOND), Some(code), None, run.input)
          case _ => Became(run, run', ManualInputRequired, 3, None, Some(code), None, run.input))
      && after.report == before.report && NothingAttached(before, after)
    case _ => false
  }

  predicate Wrote(tx: Tx, snap: Snapshot, now: Time, before: Tables, after: Tables) {
    if ByPerson(tx) then PersonWrote(tx, snap, now, before, after) else WorkerWrote(tx, snap, now, before, after)
  }

  lemma PersonWrites(s: Sys, s': Sys, tx: Tx, snap: Snapshot, now: Time)
    requires CommitShape(s, s', tx, snap, now) && ByPerson(tx)
    ensures PersonWrote(tx, snap, now, s.tables, s'.tables)
  {
    hide ConfirmedOk, AddEvents, Request, Pow2;
  }

  lemma PersistWrites(s: Sys, s': Sys, analysis: Analysis, snap: Snapshot, now: Time)
    requires CommitShape(s, s', PersistTx(analysis), snap, now)
    ensures WorkerWrote(PersistTx(analysis), snap, now, s.tables, s'.tables)
  {
    hide ConfirmedOk, AddEvents, ProvidedPriceUsd, ConvertUsdCents, SuggestedAmountCents, Priced, Distinct, Blank;
    if analysis.Analysed? {
      DraftedAmountIsPriced(analysis.draft.workUnits, snap.report.content.currency, analysis.rate);
    }
  }

  lemma WorkerWrites(s: Sys, s': Sys, tx: Tx, snap: Snapshot, now: Time)
    requires CommitShape(s, s', tx, snap, now) && !ByPerson(tx) && !tx.PersistTx?
    ensures WorkerWrote(tx, snap, now, s.tables, s'.tables)
  {
    hide ConfirmedOk, AddEvents;
    assert Pow2(1) == 2 && Pow2(2) == 4;
  }

  /** Every commit of every execution writes exactly what its transaction names, and no other step writes anything. */
  lemma EveryStepWrites(trace: seq<Sys>, steps: seq<Step>, i: nat)
    requires Execution(trace, steps) && i < |steps|
    ensures match Happening(trace[i], steps[i])
            case Still =>
              && trace[i + 1].tables.run == trace[i].tables.run && trace[i + 1].tables.report == trace[i].tables.report
              && NothingAttached(trace[i].tables, trace[i + 1].tables)
            case Committing(tx, snap, now) => Wrote(tx, snap, now, trace[i].tables, trace[i + 1].tables)
  {
    hide Inv, Apply, Happening, CommitShape, PersonWrote, WorkerWrote;
    Reachable(trace, steps, i);
    StepWrites(trace[i], trace[i + 1], steps[i]);
  }

  lemma StepWrites(s: Sys, s': Sys, step: Step)
    requires Inv(s) && Apply(s, step) == Some(s')
    ensures match Happening(s, step)
            case Still =>
              s'.tables.run == s.tables.run && s'.tables.report == s.tables.report && NothingAttached(s.tables, s'.tables)
            case Committing(tx, snap, now) => Wrote(tx, snap, now, s.tables, s'.tables)
  {
    hide Inv, Apply, Happening, CommitShape, PersonWrote, WorkerWrote;
    var shape := ShapeOf(s, s', step);
    match shape
    case Still =>
    case Committing(tx, snap, now) => CommitWrites(s, s', tx, snap, now);
  }

  lemma CommitWrites(s: Sys, s': Sys, tx: Tx, snap: Snapshot, now: Time)
    requires CommitShape(s, s', tx, snap, now)
    ensures Wrote(tx, snap, now, s.tables, s'.tables)
  {
    hide CommitShape, PersonWrote, WorkerWrote;
    if ByPerson(tx) {
      PersonWrites(s, s', tx, snap, now);
    } else if tx.PersistTx? {
      PersistWrites(s, s', tx.analysis, snap, now);
    } else {
      WorkerWrites(s, s', tx, snap, now);
    }
  }

  // ----- Which transactions are accepted -----

  /** When a transaction has something to do, in terms of the rows it loaded. */
  predicate Accepted(tx: Tx, run: RunRow, report: ReportRow) {
    match tx
    case UpdateTx(_) => report.status == Draft
    case ConfirmTx => report.status == Draft
    case ReadyTx => report.status == Draft && report.confirmedAt.Some? && run.state == ReviewPending
    case SignTx(_, _, _) => report.status == PendingSignature
    case RetryTx => run.state == ManualInputRequired || run.state == Failed
    case ManualNotesTx(_) => run.state == ManualInputRequired
    case ClaimDraftTx => run.state == DraftingPending && run.claimedAt.None?
    case PersistTx(Analysed(draft, _, pairs, _)) =>
      && report.status == Draft && run.state == DraftingPending
      && (draft.workUnits.Some? && draft.workUnits.value > 0 ==> Recognised(report.content.currency).Some?)
      && 1 <= |pairs| <= 6 && Distinct(pairs) && !Blank(draft.work)
    case PersistTx(GaveUp(_)) => report.status == Draft
    case GenerateTx(_) => report.status == Signed && run.state == PdfPending
    case ParkTx(_, _) => run.state == PdfPending
    case ClaimAudioTx(at) =>
      && run.state == TranscriptionPending
      && (run.nextRetryAt.Some? ==> run.nextRetryAt.value <= at)
      && (run.claimedAt.Some? ==> run.claimedAt.value + 120 * SECOND <= at)
    case CompleteAudioTx(_) => run.state == TranscriptionPending && run.claimedAt.Some?
    case FailAudioTx(_, _) => run.state == TranscriptionPending
    case HeartbeatTx(_) => run.state == TranscriptionPending && run.claimedAt.Some?
  }

  /** The answer to a transaction that is not accepted: the first condition that fails names it. */
  function RefusalOf(tx: Tx, run: RunRow, report: ReportRow): Refusal {
    match tx
    case UpdateTx(_) => Raised(ReportFault(NotDraft))
    case ConfirmTx => Raised(ReportFault(NotDraft))
    case ReadyTx =>
      if report.status != Draft then Raised(ReportFault(NotDraft))
      else if report.confirmedAt.None? then Raised(ReportFault(NotConfirmed))
      else Raised(RunError(InvalidTransition(run.state, SignaturePending)))
    case SignTx(_, _, _) => Raised(ReportFault(NotPendingSignature))
    case RetryTx => Raised(NothingToRetry)
    case ManualNotesTx(_) => Raised(NotParked)
    case PersistTx(Analysed(draft, _, pairs, _)) =>
      if draft.workUnits.Some? && draft.workUnits.value > 0 && Recognised(report.content.currency).None? then
        Raised(CurrencyFault(UnsupportedCurrency))
      else if report.status != Draft then Raised(ReportFault(NotDraft))
      else if !(1 <= |pairs| <= 6) then Raised(AuditFault(PairCount))
      else if !Distinct(pairs) then Raised(AuditFault(RepeatedAsset))
      else if Blank(draft.work) then Raised(AuditFault(BlankWork))
      else Raised(RunError(InvalidTransition(run.state, ReviewPending)))
    case PersistTx(GaveUp(_)) => Raised(ReportFault(NotDraft))
    case GenerateTx(_) => Raised(NotReadyForPdf)
    case CompleteAudioTx(_) => Raised(AudioInvalid)
    case _ => Declined
  }

  /** The transaction goes through if accepted, and is refused in its own way if not. */
  predicate Answered<T>(r: Result<T, Refusal>, tx: Tx, snap: Snapshot) {
    if Accepted(tx, snap.run, snap.report) then r.Success?
    else r.Failure? && r.error == RefusalOf(tx, snap.run, snap.report)
  }

  lemma PersonAnswered(tx: Tx, snap: Snapshot, now: Time, c: Confirmations)
    requires Sound(snap, c) && ByPerson(tx)
    ensures Answered(Mutate(tx, snap, now), tx, snap)
  {
    hide ConfirmedOk, Request, Pow2;
  }

  lemma PersistAnswered(analysis: Analysis, snap: Snapshot, c: Confirmations)
    requires Sound(snap, c)
    ensures Answered(Persist(snap, analysis), PersistTx(analysis), snap)
  {
    hide ConfirmedOk, InputOk, ProvidedPriceUsd, Distinct, Blank, Recognised;
  }

  lemma WorkerAnswered(tx: Tx, snap: Snapshot, now: Time, c: Confirmations)
    requires Sound(snap, c) && !ByPerson(tx) && !tx.PersistTx?
    ensures Answered(Mutate(tx, snap, now), tx, snap)
  {
    hide ConfirmedOk, Pow2;
  }

  /** On rows that occur a transaction goes through exactly when it is accepted; otherwise its refusal says why. */
  lemma GoesThroughIffAccepted(tx: Tx, snap: Snapshot, now: Time, c: Confirmations)
    requires Sound(snap, c)
    ensures Mutate(tx, snap, now).Success? <==> Accepted(tx, snap.run, snap.report)
    ensures Mutate(tx, snap, now).Failure? ==> Mutate(tx, snap, now).error == RefusalOf(tx, snap.run, snap.report)
  {
    hide Sound, Accepted, Persist, RefusalOf;
    if ByPerson(tx) {
      PersonAnswered(tx, snap, now, c);
    } else if tx.PersistTx? {
      PersistAnswered(tx.analysis, snap, c);
    } else {
      WorkerAnswered(tx, snap, now, c);
    }
  }

  // ----- Creation -----

  /** A new report carries its input, its creator's currency, and one unsent request for its first step. */
  lemma CreationCarriesInput(s: Sys, input: ReportInput, currency: string)
    requires InitWith(s, input, currency)
    ensures s.tables.report
         == ReportRow(Draft, Content("", None, currency, multiset{}), Human, None, None, None, None, None, [], None, None)
    ensures s.tables.run ==
            match input
            case Notes(text) => RunRow(DraftingPending, 0, None, None, 0, None, InputData(None, Some(text)))
            case Audio(asset) =>
              RunRow(TranscriptionPending, 0, None, None, 0, None, InputData(Some(TranscriptionInput(Some(asset), None)), None))
    ensures s.tables.outbox ==
            match input
            case Notes(_) => map[0 := OutboxRow(DispatchEvent(0, DraftingPending, None, None), false)]
            case Audio(asset) => map[0 := OutboxRow(DispatchEvent(0, TranscriptionPending, Some(asset), None), false)]
    ensures s.tables.pdfs == [] && s.tables.audits == []
  {
  }

  // ----- Where the inputs come from -----

  function NotesAfter(notes: Option<string>, tx: Tx): Option<string> {
    match tx
    case CompleteAudioTx(transcript) => Some(transcript)
    case ManualNotesTx(typed) => Some(typed)
    case _ => notes
  }

  /** The notes of the last committed completion or manual request, or else those of creation. */
  function LatestNotes(origin: RunRow, chain: seq<Link>): Option<string> {
    if chain == [] then origin.input.drafting
    else NotesAfter(LatestNotes(origin, chain[..|chain| - 1]), chain[|chain| - 1].tx)
  }

  function LatestTranscript(origin: RunRow, chain: seq<Link>): Option<string> {
    if chain == [] then if origin.input.transcription.Some? then origin.input.transcription.value.transcript else None
    else
      match chain[|chain| - 1].tx
      case CompleteAudioTx(transcript) => Some(transcript)
      case _ => LatestTranscript(origin, chain[..|chain| - 1])
  }

  function Recording(input: InputData): Option<AssetId> {
    if input.transcription.Some? then input.transcription.value.mediaAssetId else None
  }

  /** A completion stores the whole transcript in both places, manual notes replace the notes, nothing else is input. */
  lemma InputLink(prev: RunRow, link: Link)
    requires LegalLink(prev, link)
    ensures link.run.input.drafting == NotesAfter(prev.input.drafting, link.tx)
    ensures link.tx.CompleteAudioTx? ==>
              && prev.input.transcription.Some?
              && link.run.input.transcription == Some(TranscriptionInput(Recording(prev.input), Some(link.tx.transcript)))
    ensures !link.tx.CompleteAudioTx? ==> link.run.input.transcription == prev.input.transcription
  {
    hide Joint, BookkeepingOk, Request, Pow2;
  }

  lemma {:induction false} ChainInputs(origin: RunRow, chain: seq<Link>, n: nat)
    requires LegalChain(origin, chain) && n <= |chain|
    ensures var input := RowAt(origin, chain, n).input;
            && input.drafting == LatestNotes(origin, chain[..n])
            && (input.transcription.Some? <==> origin.input.transcription.Some?)
            && Recording(input) == Recording(origin.input)
            && (input.transcription.Some? ==> input.transcription.value.transcript == LatestTranscript(origin, chain[..n]))
  {
    hide LegalLink;
    if n > 0 {
      ChainInputs(origin, chain, n - 1);
      assert chain[..n][..n - 1] == chain[..n - 1];
      assert LegalLink(RowAt(origin, chain, n - 1), chain[n - 1]);
      InputLink(RowAt(origin, chain, n - 1), chain[n - 1]);
    }
  }

  /**
   In every reachable state the drafting notes are exactly those of creation, of the last
   committed completion or of the last manual request, whichever came last; the recording
   never changes, and the transcript is the last one completed.
   */
  lemma InputsComeFrom(trace: seq<Sys>, steps: seq<Step>, i: nat)
    requires Execution(trace, steps) && i < |trace|
    ensures var input, origin := trace[i].tables.run.input, trace[0].tables.run;
            && input.drafting == LatestNotes(origin, trace[i].chain)
            && (input.transcription.Some? <==> origin.input.transcription.Some?)
            && Recording(input) == Recording(origin.input)
            && (input.transcription.Some? ==> input.transcription.value.transcript == LatestTranscript(origin, trace[i].chain))
  {
    ReachableHistory(trace, steps, i);
    HistoryGrows(trace, steps, 0, i);
    hide Inv, LegalChain, Accounted, ReviewOk, PdfOk;
    var s := trace[i];
    ChainInputs(s.origin, s.chain, |s.chain|);
    assert s.chain[..|s.chain|] == s.chain;
  }

  // ----- Where signatures, PDFs and audits come from -----

  predicate Signs(link: Link, signature: Signature) {
    && link.tx == SignTx(signature.signerName, signature.mediaAssetId, signature.id)
    && link.now == signature.signedAt
  }

  predicate Generates(link: Link, pdf: AssetId, completedAt: Option<Time>) {
    link.tx == GenerateTx(pdf) && completedAt == Some(link.now)
  }

  /** The audit keeps the analysed pairs, the drafted work and the comparison. */
  predicate Stores(link: Link, audit: AuditRow) {
    && link.tx.PersistTx? && link.tx.analysis.Analysed?
    && audit.status == Succeeded && audit.pairs == link.tx.analysis.pairs
    && audit.work == link.tx.analysis.draft.work && audit.result == Some(link.tx.analysis.comparison)
  }

  ghost predicate Attributed(report: ReportRow, pdfs: seq<AssetId>, audits: seq<AuditRow>, chain: seq<Link>) {
    && (forall signature <- report.signatures :: exists link <- chain :: Signs(link, signature))
    && (forall pdf <- pdfs :: exists link <- chain :: Generates(link, pdf, report.completedAt))
    && (forall audit <- audits :: exists link <- chain :: Stores(link, audit))
  }

  /** Nothing commits on a completed run. */
  lemma OnlyUncompletedCommits(s: Sys, s': Sys, tx: Tx, snap: Snapshot, now: Time)
    requires CommitShape(s, s', tx, snap, now)
    ensures s.tables.run.state != Completed
  {
    GoesThroughIffAccepted(tx, snap, now, s.confirmations);
    hide Mutate, SigningOk, ConfirmedOk, InputOk, BookkeepingOk, AddEvents;
    SavedRun(tx, snap, now, Cur(s), s.confirmations);
  }

  /** A commit that attaches something saves the run, so it is the last link of the chain. */
  lemma LastLink(s: Sys, s': Sys, tx: Tx, snap: Snapshot, now: Time)
    requires CommitShape(s, s', tx, snap, now) && ChainOk(s)
    ensures s.chain <= s'.chain
    ensures tx.SignTx? || tx.GenerateTx? || tx.PersistTx? ==>
              s'.chain == s.chain + [Link(tx, snap, now, s.clock, s'.tables.run)]
  {
    hide Mutate, LegalChain, Sound, Drift, AddEvents;
    CommitChain(s, s', tx, snap, now);
    if tx.SignTx? || tx.GenerateTx? || tx.PersistTx? {
      SavesRun(tx, snap, now);
    }
  }

  lemma SignaturesAdded(s: Sys, s': Sys, tx: Tx, snap: Snapshot, now: Time, link: Link)
    requires CommitShape(s, s', tx, snap, now) && Wrote(tx, snap, now, s.tables, s'.tables)
    requires link.tx == tx && link.now == now
    ensures forall signature <- s'.tables.report.signatures ::
              signature in s.tables.report.signatures || (tx.SignTx? && Signs(link, signature))
  {
    hide Mutate, Joint, BookkeepingOk, ConfirmedOk, InputOk, AddEvents, Became;
  }

  lemma PdfsAdded(s: Sys, s': Sys, tx: Tx, snap: Snapshot, now: Time, link: Link)
    requires CommitShape(s, s', tx, snap, now) && Wrote(tx, snap, now, s.tables, s'.tables) && PdfOk(s)
    requires link.tx == tx && link.now == now
    ensures forall pdf <- s'.tables.pdfs :: tx.GenerateTx? && Generates(link, pdf, s'.tables.report.completedAt)
  {
    OnlyUncompletedCommits(s, s', tx, snap, now);
    hide CommitShape, Became, Drafted;
  }

  lemma AuditsAdded(s: Sys, s': Sys, tx: Tx, snap: Snapshot, now: Time, link: Link)
    requires Wrote(tx, snap, now, s.tables, s'.tables) && link.tx == tx
    ensures forall audit <- s'.tables.audits :: audit in s.tables.audits || (tx.PersistTx? && Stores(link, audit))
  {
    hide Became, Drafted, Priced;
  }

  lemma AttributedCommit(s: Sys, s': Sys, tx: Tx, snap: Snapshot, now: Time)
    requires CommitShape(s, s', tx, snap, now) && ChainOk(s) && PdfOk(s)
    requires Attributed(s.tables.report, s.tables.pdfs, s.tables.audits, s.chain)
    ensures Attributed(s'.tables.report, s'.tables.pdfs, s'.tables.audits, s'.chain)
  {
    hide LegalChain, CommitShape, Wrote, Signs, Generates, Stores;
    var link := Link(tx, snap, now, s.clock, s'.tables.run);
    LastLink(s, s', tx, snap, now);
    CommitWrites(s, s', tx, snap, now);
    SignaturesAdded(s, s', tx, snap, now, link);
    PdfsAdded(s, s', tx, snap, now, link);
    AuditsAdded(s, s', tx, snap, now, link);
    assert tx.SignTx? || tx.GenerateTx? || tx.PersistTx? ==> link in s'.chain;
    assert forall l <- s.chain :: l in s'.chain;
  }

  lemma AttributedStep(s: Sys, s': Sys, step: Step)
    requires Inv(s) && HistoryOk(s) && Apply(s, step) == Some(s')
    requires Attributed(s.tables.report, s.tables.pdfs, s.tables.audits, s.chain)
    ensures Attributed(s'.tables.report, s'.tables.pdfs, s'.tables.audits, s'.chain)
  {
    hide Inv, Apply, Happening, CommitShape, Attributed, LegalChain, Accounted, ReviewOk;
    var shape := ShapeOf(s, s', step);
    match shape
    case Still =>
    case Committing(tx, snap, now) => AttributedCommit(s, s', tx, snap, now);
  }

  /**
   In every reachable state each signature is the one of a committed signing request, with its
   id, signer, asset and clock reading; the PDF is the generated one and the report was
   completed at that reading; each audit has exactly the analysed pairs and the comparison.
   */
  lemma {:induction false} EverythingIsAttributed(trace: seq<Sys>, steps: seq<Step>, i: nat)
    requires Execution(trace, steps) && i < |trace|
    ensures Attributed(trace[i].tables.report, trace[i].tables.pdfs, trace[i].tables.audits, trace[i].chain)
  {
    hide Inv, HistoryOk, Apply, Signs, Generates, Stores;
    if i > 0 {
      hide Attributed;
      EverythingIsAttributed(trace, steps, i - 1);
      ReachableHistory(trace, steps, i - 1);
      assert Apply(trace[i - 1], steps[i - 1]) == Some(trace[i - 1 + 1]);
      AttributedStep(trace[i - 1], trace[i], steps[i - 1]);
    }
  }

  // ----- Where the content comes from -----

  /** The transactions that put content into a report. */
  predicate WritesContent(shape: Shape) {
    shape.Committing? && (shape.tx.UpdateTx? || shape.tx.PersistTx?)
  }

  /** The content is what the edit or the drafted result says. */
  predicate PutsContent(tx: Tx, content: Content) {
    match tx
    case UpdateTx(edit) => content == edit
    case PersistTx(Analysed(draft, _, _, rate)) =>
      && content.work == draft.work && content.materials == draft.materials
      && Priced(draft.workUnits, content.currency, rate, content.amountCents)
    case PersistTx(GaveUp(_)) => content.work == TEMPLATE_WORK && content.materials == multiset{} && content.amountCents.None?
    case _ => false
  }

  /** Step `k` committed an edit or a drafted result with this content. */
  ghost predicate AuthoredAt(trace: seq<Sys>, steps: seq<Step>, k: nat, content: Content)
    requires k < |steps| < |trace|
  {
    Happening(trace[k], steps[k]).Committing? && PutsContent(Happening(trace[k], steps[k]).tx, content)
  }

  /** The content of creation, or one some commit before step `i` put in. */
  ghost predicate Authored(trace: seq<Sys>, steps: seq<Step>, i: nat, content: Content)
    requires i <= |steps| < |trace|
  {
    content == trace[0].tables.report.content || exists k :: 0 <= k < i && AuthoredAt(trace, steps, k, content)
  }

  /** What a process has loaded and not yet tried to commit. */
  function Loaded(p: Proc): Option<Snapshot> {
    match p
    case Http(_, snap) => Some(snap)
    case Publisher(_, _) => None
    case Worker(_, _, pc) => if pc.InTx? then Some(pc.snap) else None
  }

  lemma EndedIsNotLoaded(p: Proc, tx: Tx, attempt: nat, result: TxResult)
    requires p.Worker?
    ensures Loaded(p.(pc := Continue(tx, attempt, result))).None?
  {
  }

  lemma AbortedIsNotLoaded(p: Proc, code: string, audioInvalid: bool)
    requires p.Worker?
    ensures p.pc.InTx? ==> Aborted(p.pc, code, audioInvalid).Some?
    ensures Aborted(p.pc, code, audioInvalid).Some? ==>
              Loaded(p.(pc := Aborted(p.pc, code, audioInvalid).value)).None?
  {
  }

  /** A snapshot in flight was the current rows of the state it was loaded in. */
  lemma NewSnapshots(s: Sys, s': Sys, step: Step)
    requires Apply(s, step) == Some(s')
    ensures forall pid <- s'.procs | Loaded(s'.procs[pid]).Some? ::
              Loaded(s'.procs[pid]).value == Cur(s) || (pid in s.procs && Loaded(s.procs[pid]) == Loaded(s'.procs[pid]))
  {
    hide Attempt, Continue, Validated, Aborted;
    match step
    case End(pid, now) =>
      var InTx(attempt, tx, snap) := s.procs[pid].pc;
      EndedIsNotLoaded(s.procs[pid], tx, attempt, Attempt(s.tables, tx, snap, now));
    case EndUnseen(pid, now, code) => AbortedIsNotLoaded(s.procs[pid], code, false);
    case Abort(pid, code, audioInvalid) => AbortedIsNotLoaded(s.procs[pid], code, audioInvalid);
    case _ =>
  }

  lemma CommittedSnapshot(s: Sys, step: Step)
    requires Happening(s, step).Committing?
    ensures Happening(s, step).snap == Cur(s)
            || exists pid <- s.procs :: Loaded(s.procs[pid]) == Some(Happening(s, step).snap)
  {
    hide Attempt;
  }

  /** Every other commit keeps the content, or writes back the one it loaded. */
  lemma KeptContent(s: Sys, s': Sys, step: Step)
    requires Inv(s) && Apply(s, step) == Some(s') && !WritesContent(Happening(s, step))
    ensures s'.tables.report.content == s.tables.report.content
            || (Happening(s, step).Committing? && s'.tables.report.content == Happening(s, step).snap.report.content)
  {
    hide Inv, Apply, Happening, CommitShape;
    StepWrites(s, s', step);
  }

  /**
   Nothing is ever in a report but what was written into it: in every reachable state the
   content is the empty one of creation, or exactly what some committed edit or drafted
   result put there, and the same holds of every snapshot in flight.
   */
  lemma {:induction false} ContentIsAuthored(trace: seq<Sys>, steps: seq<Step>, i: nat)
    requires Execution(trace, steps) && i < |trace|
    ensures Authored(trace, steps, i, trace[i].tables.report.content)
    ensures forall pid <- trace[i].procs | Loaded(trace[i].procs[pid]).Some? ::
              Authored(trace, steps, i, Loaded(trace[i].procs[pid]).value.report.content)
  {
    hide Inv, Apply, Happening, WritesContent;
    if i == 0 {
      assert trace[0].procs == map[];
    } else {
      hide Loaded, Authored;
      var s, s', step := trace[i - 1], trace[i], steps[i - 1];
      ContentIsAuthored(trace, steps, i - 1);
      Reachable(trace, steps, i - 1);
      assert Apply(trace[i - 1], steps[i - 1]) == Some(trace[i - 1 + 1]);
      NewSnapshots(s, s', step);
      StaysAuthored(trace, steps, i - 1);
      if WritesContent(Happening(s, step)) {
        WriterAuthors(trace, steps, i - 1);
      } else {
        KeptContent(s, s', step);
        if Happening(s, step).Committing? {
          CommittedSnapshot(s, step);
        }
      }
    }
  }

  lemma WriterAuthors(trace: seq<Sys>, steps: seq<Step>, k: nat)
    requires Execution(trace, steps) && k < |steps| && WritesContent(Happening(trace[k], steps[k]))
    ensures Authored(trace, steps, k + 1, trace[k + 1].tables.report.content)
  {
    hide Happening, Apply, Init, Became, Fresh, Priced;
    EveryStepWrites(trace, steps, k);
    assert AuthoredAt(trace, steps, k, trace[k + 1].tables.report.content);
  }

  lemma StaysAuthored(trace: seq<Sys>, steps: seq<Step>, i: nat)
    requires i < |steps| < |trace|
    ensures forall content :: Authored(trace, steps, i, content) ==> Authored(trace, steps, i + 1, content)
  {
    hide AuthoredAt;
  }
}
