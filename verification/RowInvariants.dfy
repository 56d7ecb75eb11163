/** What every stored run and report satisfy, and that every transaction keeps it. */
module RowInvariants {
  import opened Wrappers
  import opened States
  import opened WorkflowRuns
  import opened Reports
  import opened VisualAudits
  import opened Transactions

  /** What people did so far: contents a confirmation saw, and whether one came before review. */
  datatype Confirmations = Confirmations(early: bool, seen: set<Content>)

  /** Which report statuses each run state allows. */
  predicate Joint(state: WorkflowState, status: Status) {
    match state
    case CollectingEvidence => status == Draft
    case TranscriptionPending => status == Draft
    case DraftingPending => status == Draft || status == Signed
    case ReviewPending => status == Draft
    case SignaturePending => status == PendingSignature
    case FinalizationPending => false
    case PdfPending => status == Signed
    case Completed => status == CompletedReport
    case ManualInputRequired => status == Draft || status == Signed
    case Failed => status == Draft
  }

  /** Waiting for a worker that has not claimed the step. */
  predicate Awaiting(run: RunRow) {
    || run.state == PdfPending
    || ((run.state == TranscriptionPending || run.state == DraftingPending) && run.claimedAt.None?)
  }

  predicate BookkeepingOk(run: RunRow) {
    && run.state != CollectingEvidence && run.state != FinalizationPending
    && (run.claimedAt.Some? ==>
          run.state == TranscriptionPending || run.state == DraftingPending || run.state == Failed)
    && (if run.state == TranscriptionPending then
          run.attempt < 3 && (run.nextRetryAt.Some? <==> run.attempt > 0)
        else
          run.nextRetryAt.None?)
  }

  predicate InputOk(run: RunRow) {
    && (run.input.transcription.Some? ==> run.input.transcription.value.mediaAssetId.Some?)
    && (run.input.transcription.None? ==> run.input.drafting.Some?)
    && (run.input.drafting.Some? ==> 20 <= |run.input.drafting.value|)
    && (run.state == TranscriptionPending ==> run.input.transcription.Some?)
    && (run.state == DraftingPending ==> run.input.drafting.Some?)
  }

  /** The marks a report carries in each status, in time order. */
  predicate SigningOk(report: ReportRow, at: Time) {
    && (report.confirmedAt == report.amountConfirmedAt)
    && (report.confirmedAt.Some? ==> report.confirmedAt.value <= at)
    && (report.frozenAt.Some? <==> report.status != Draft)
    && (report.frozenAt.Some? ==> report.confirmedAt.Some? && report.confirmedAt.value <= report.frozenAt.value <= at)
    && |report.signatures| == (if report.status == Signed || report.status == CompletedReport then 1 else 0)
    && (report.signedAt.Some? <==> |report.signatures| == 1)
    && (report.signedAt.Some? ==>
          report.signatures[0].signedAt == report.signedAt.value
          && report.frozenAt.value <= report.signedAt.value <= at)
    && (report.completedAt.Some? <==> report.status == CompletedReport)
    && (report.completedAt.Some? ==> report.signedAt.value <= report.completedAt.value <= at)
  }

  /** Unless somebody confirmed before review, every confirmation mark covers content a person saw. */
  predicate ConfirmedOk(run: RunRow, report: ReportRow, c: Confirmations) {
    !c.early ==>
      && (report.confirmedAt.Some? ==> report.content in c.seen)
      && (report.status == Draft && run.state != ReviewPending ==> report.confirmedAt.None?)
  }

  predicate Sound(s: Snapshot, c: Confirmations) {
    && Joint(s.run.state, s.report.status)
    && BookkeepingOk(s.run)
    && InputOk(s.run)
    && SigningOk(s.report, s.at)
    && ConfirmedOk(s.run, s.report, c)
  }

  /**
   How far an earlier snapshot may have drifted from the current rows: if the version has
   not moved the run is the same row, and the report differs at most by draft edits.
   */
  predicate Drift(snap: Snapshot, cur: Snapshot) {
    && snap.at <= cur.at
    && snap.run.stateVersion <= cur.run.stateVersion
    && (snap.run.stateVersion == cur.run.stateVersion ==>
          snap.run == cur.run && (snap.report == cur.report || (snap.report.status == Draft && cur.report.status == Draft)))
  }

  /** The rows after a successful commit at the same clock reading. */
  function Following(cur: Snapshot, e: Effect): Snapshot {
    Snapshot(
      if e.run.Some? then e.run.value else cur.run,
      if e.report.Some? then e.report.value else cur.report,
      cur.at)
  }

  function Noted(tx: Tx, cur: Snapshot, c: Confirmations): Confirmations {
    if tx.ConfirmTx? then
      Confirmations(c.early || cur.run.state != ReviewPending, c.seen + {cur.report.content})
    else c
  }

  /** What licenses a commit: the snapshot's version is current, or nothing versioned is written. */
  predicate Current(snap: Snapshot, cur: Snapshot, e: Effect) {
    if e.run.Some? then snap.run.stateVersion == cur.run.stateVersion else snap == cur
  }

  /** Claimed and still drafting: what the holder of a drafting claim relies on. */
  predicate HeldForDrafting(run: RunRow) {
    run.state == DraftingPending && run.claimedAt.Some?
  }

  predicate Commits(tx: Tx, snap: Snapshot, now: Time, cur: Snapshot, c: Confirmations) {
    && Sound(snap, c) && Sound(cur, c) && Drift(snap, cur)
    && snap.at <= now <= cur.at
    && Validated(tx) && Timely(tx, snap.at)
    && (tx.PersistTx? ==> HeldForDrafting(snap.run))
    && Mutate(tx, snap, now).Success?
    && Current(snap, cur, Mutate(tx, snap, now).value)
  }

  lemma CommitKeepsJoint(tx: Tx, snap: Snapshot, now: Time, cur: Snapshot, c: Confirmations)
    requires Commits(tx, snap, now, cur, c)
    ensures var cur' := Following(cur, Mutate(tx, snap, now).value);
            Joint(cur'.run.state, cur'.report.status)
  {
    hide BookkeepingOk, InputOk, SigningOk, ConfirmedOk, Request, Pow2;
  }

  lemma CommitKeepsRun(tx: Tx, snap: Snapshot, now: Time, cur: Snapshot, c: Confirmations)
    requires Commits(tx, snap, now, cur, c)
    ensures var cur' := Following(cur, Mutate(tx, snap, now).value);
            BookkeepingOk(cur'.run) && InputOk(cur'.run)
  {
    hide SigningOk, ConfirmedOk, Joint, Request, Pow2;
  }

  lemma PersonKeepsSigning(tx: Tx, snap: Snapshot, now: Time, cur: Snapshot, c: Confirmations)
    requires Commits(tx, snap, now, cur, c) && ByPerson(tx)
    ensures SigningOk(Following(cur, Mutate(tx, snap, now).value).report, cur.at)
  {
    hide BookkeepingOk, InputOk, ConfirmedOk, Joint, Request, Pow2;
  }

  lemma WorkerKeepsSigning(tx: Tx, snap: Snapshot, now: Time, cur: Snapshot, c: Confirmations)
    requires Commits(tx, snap, now, cur, c) && !ByPerson(tx)
    ensures SigningOk(Following(cur, Mutate(tx, snap, now).value).report, cur.at)
  {
    hide BookkeepingOk, InputOk, ConfirmedOk, Joint, Request, Pow2;
  }

  lemma CommitKeepsSigning(tx: Tx, snap: Snapshot, now: Time, cur: Snapshot, c: Confirmations)
    requires Commits(tx, snap, now, cur, c)
    ensures var cur' := Following(cur, Mutate(tx, snap, now).value);
            SigningOk(cur'.report, cur'.at)
  {
    hide Mutate, Sound, Drift;
    if ByPerson(tx) {
      PersonKeepsSigning(tx, snap, now, cur, c);
    } else {
      WorkerKeepsSigning(tx, snap, now, cur, c);
    }
  }

  lemma CommitKeepsConfirmed(tx: Tx, snap: Snapshot, now: Time, cur: Snapshot, c: Confirmations)
    requires Commits(tx, snap, now, cur, c)
    ensures var cur' := Following(cur, Mutate(tx, snap, now).value);
            ConfirmedOk(cur'.run, cur'.report, Noted(tx, cur, c))
  {
    hide BookkeepingOk, InputOk, Request, Pow2;
  }
}
