/**
 Where the guarantees stop: behaviours of the handlers that leave a report stuck or
 inconsistent, each with the exact condition under which it happens.
 */
module Limits {
  import opened Wrappers
  import opened States
  import opened WorkflowRuns
  import opened Reports
  import opened VisualAudits
  import opened Transactions
  import opened RowInvariants
  import opened Protocol
  import opened SystemInvariant
  import opened History
  import opened Chains

  // ----- A signed report sent back to drafting -----

  predicate Stranded(s: Sys) {
    s.tables.run.state == DraftingPending && s.tables.report.status == Signed
  }

  /** A drafting step can be concluded exactly when its report is still a draft. */
  lemma DraftingConcludesIffDraft(snap: Snapshot, analysis: Analysis, code: string, c: Confirmations)
    requires Sound(snap, c) && snap.run.state == DraftingPending
    ensures Persist(snap, GaveUp(code)).Success? <==> snap.report.status == Draft
    ensures Persist(snap, analysis).Success? ==> snap.report.status == Draft
  {
    hide Request;
  }

  lemma StrandedCommit(s: Sys, s': Sys, tx: Tx, snap: Snapshot, now: Time)
    requires Stranded(s) && CommitShape(s, s', tx, snap, now)
    ensures Stranded(s')
  {
    hide SigningOk, BookkeepingOk, InputOk, ConfirmedOk, Request, Pow2, AddEvents;
  }

  /** No step of the system ever takes a signed report out of drafting again. */
  lemma StrandedStep(s: Sys, s': Sys, step: Step)
    requires Inv(s) && Stranded(s) && Apply(s, step) == Some(s')
    ensures Stranded(s')
  {
    hide Inv, Apply, CommitShape;
    var shape := ShapeOf(s, s', step);
    match shape
    case Still =>
    case Committing(tx, snap, now) => StrandedCommit(s, s', tx, snap, now);
  }

  lemma {:induction false} StrandedForever(trace: seq<Sys>, steps: seq<Step>, i: nat, j: nat)
    requires Execution(trace, steps) && i <= j < |trace| && Stranded(trace[i])
    ensures Stranded(trace[j])
    decreases j - i
  {
    hide Inv, Apply, Stranded;
    if i < j {
      StrandedForever(trace, steps, i, j - 1);
      Reachable(trace, steps, j - 1);
      assert Apply(trace[j - 1], steps[j - 1]) == Some(trace[j - 1 + 1]);
      StrandedStep(trace[j - 1], trace[j], steps[j - 1]);
    }
  }

  /**
   Manual notes on a run parked at the PDF stage strand it: two steps lead there, because
   the handler looks only at the run. On a draft the same request is a normal recovery.
   */
  lemma ManualNotesStrandIffSigned(s: Sys, pid: nat, notes: string)
    requires Inv(s) && s.tables.run.state == ManualInputRequired
    requires pid !in s.procs && Validated(ManualNotesTx(notes))
    ensures Apply(s, HttpBegin(pid, ManualNotesTx(notes))).Some?
    ensures var loaded := Apply(s, HttpBegin(pid, ManualNotesTx(notes))).value;
            && Apply(loaded, HttpEnd(pid, s.clock)).Some?
            && var done := Apply(loaded, HttpEnd(pid, s.clock)).value;
               && done.tables.run.state == DraftingPending
               && (Stranded(done) <==> s.tables.report.status == Signed)
               && (!Stranded(done) <==> s.tables.report.status == Draft)
  {
    hide SigningOk, BookkeepingOk, InputOk, ConfirmedOk, OutboxOk, MessagesOk, ProcsOk, AiRunsOk;
  }

  // ----- A confirmation older than the content it covers -----

  /**
   Applying an AI result keeps an earlier confirmation: the drafted content can be frozen
   without anybody confirming it exactly when the report was confirmed before it was drafted.
   An edit by a person never has this effect.
   */
  lemma DraftFreezesUnseenIffConfirmedBefore(report: ReportRow, draft: DraftedReport, amount: Option<int>,
                                             comparison: Option<string>, edit: Content, now: Time)
    requires Editable(report).Pass?
    ensures var applied := ApplyAi(report, draft.work, draft.materials, amount, draft.confidence, comparison);
            && applied.Success?
            && applied.value.content == Content(draft.work, amount, report.content.currency, draft.materials)
            && (MarkReady(applied.value, now).Success? <==> report.confirmedAt.Some? && report.amountConfirmedAt.Some?)
    ensures var edited := UpdateRevision(report, edit.work, edit.amountCents, Some(edit.currency), Some(edit.materials));
            edited.Success? && edited.value.content == edit && MarkReady(edited.value, now) == Failure(NotConfirmed)
  {
  }

  // ----- Manual notes on a recorded report -----

  /**
   Manual notes replace the recording only until the next failure: retrying a failed draft
   transcribes again, overwriting the notes, exactly when the report began as a recording.
   */
  lemma RetryDropsManualNotesIffRecorded(snap: Snapshot, notes: string, claimedAt: Time, code: string, transcript: string,
                                         report: ReportRow, c: Confirmations)
    requires Sound(snap, c) && snap.run.state == ManualInputRequired && report.status == Draft
    ensures ManualNotes(snap, notes).Success?
    ensures var noted := ManualNotes(snap, notes).value.run.value;
            var failed := FailWith(Claim(noted, claimedAt), code);
            var retried := Retry(Snapshot(failed, report, claimedAt));
            && noted.input.drafting == Some(notes)
            && retried.Success?
            && var row := retried.value.run.value;
               && (row.state == TranscriptionPending <==> snap.run.input.transcription.Some?)
               && (row.state == DraftingPending <==> snap.run.input.transcription.None?)
               && (row.state == TranscriptionPending ==> Transcribed(row.input, transcript).drafting == Some(transcript))
               && (row.state == DraftingPending ==> row.input.drafting == Some(notes))
  {
    hide SigningOk, ConfirmedOk, Pow2;
  }

  // ----- Report-only saves that are not atomic -----

  /**
   The report row has no version: an edit or confirmation loaded from a draft and saved
   later overwrites whatever is there. The run and report still agree afterwards exactly
   when the run has not meanwhile moved to signing, PDF generation or completion.
   */
  lemma StaleSaveAgreesIff(stale: Snapshot, cur: Snapshot, saved: ReportRow, edit: Content, now: Time, c: Confirmations)
    requires Sound(stale, c) && Sound(cur, c)
    requires Confirm(stale.report, now) == Success(saved)
             || UpdateRevision(stale.report, edit.work, edit.amountCents, Some(edit.currency), Some(edit.materials)) == Success(saved)
    ensures Joint(cur.run.state, saved.status)
            <==> cur.run.state != SignaturePending && cur.run.state != PdfPending && cur.run.state != Completed
    ensures !Joint(cur.run.state, saved.status) ==> cur.report.frozenAt.Some? && saved.frozenAt.None?
  {
  }

  /** What such a save leaves in the tables: signatures are only ever added. */
  function Overwritten(cur: ReportRow, saved: ReportRow): ReportRow {
    saved.(signatures := cur.signatures)
  }

  /**
   What it does to the freeze: the save undoes it exactly when the report is no longer a
   draft, and it turns a signed report into an unfrozen draft exactly when there was a
   signature. Run and report can still agree afterwards, if the run is parked or drafting.
   */
  lemma StaleSaveUndoesFreezeIff(stale: Snapshot, cur: Snapshot, saved: ReportRow, edit: Content, now: Time, c: Confirmations)
    requires Sound(stale, c) && Sound(cur, c)
    requires Confirm(stale.report, now) == Success(saved)
             || UpdateRevision(stale.report, edit.work, edit.amountCents, Some(edit.currency), Some(edit.materials)) == Success(saved)
    ensures var stored := Overwritten(cur.report, saved);
            && stored.status == Draft
            && (cur.report.frozenAt.Some? && stored.frozenAt.None? <==> cur.report.status != Draft)
            && (|stored.signatures| > 0 <==> cur.report.status == Signed || cur.report.status == CompletedReport)
            && (cur.report.status != Draft && Joint(cur.run.state, stored.status) <==>
                  cur.report.status == Signed && cur.run.state != PdfPending)
  {
  }

  /** It does happen: a confirmation overlapping "ready for signature" undoes the freeze under a waiting signature. */
  lemma StaleConfirmUnfreezes(snap: Snapshot, now: Time, later: Time, c: Confirmations)
    requires Sound(snap, c) && snap.run.state == ReviewPending && snap.report.confirmedAt.Some?
    ensures Ready(snap, now).Success? && Confirm(snap.report, later).Success?
    ensures var e := Ready(snap, now).value;
            var saved := Confirm(snap.report, later).value;
            && e.run.Some? && e.run.value.state == SignaturePending && e.report.Some? && e.report.value.frozenAt == Some(now)
            && saved.status == Draft && saved.frozenAt.None? && !Joint(e.run.value.state, saved.status)
  {
  }

  /**
   "Ready for signature" writes back the report it loaded: an edit that commits in between is
   lost, and the older content is frozen, exactly when the edit changed anything.
   */
  lemma ReadyDropsOverlappingEdit(s: Sys, pid: nat, edit: Content)
    requires Inv(s) && s.tables.run.state == ReviewPending && s.tables.report.confirmedAt.Some? && pid !in s.procs
    ensures Apply(s, HttpBegin(pid, ReadyTx)).Some?
    ensures var loaded := Apply(s, HttpBegin(pid, ReadyTx)).value;
            && Apply(loaded, EditNow(UpdateTx(edit))).Some?
            && var edited := Apply(loaded, EditNow(UpdateTx(edit))).value;
               && edited.tables.report.content == edit
               && Apply(edited, HttpEnd(pid, s.clock)).Some?
               && var done := Apply(edited, HttpEnd(pid, s.clock)).value;
                  && done.tables.report.frozenAt.Some? && done.tables.report.content == s.tables.report.content
                  && (done.tables.report.content != edit <==> edit != s.tables.report.content)
  {
    hide InputOk, OutboxOk, MessagesOk, ProcsOk, AiRunsOk, ConfirmedOk;
  }

  // ----- A claimed transcription whose wake-up is gone -----

  /** With this clock reading a worker would find the retry due and the claim free. */
  predicate Claimable(run: RunRow, at: Time) {
    (run.nextRetryAt.Some? ==> run.nextRetryAt.value <= at) && CanClaim(run, at, CLAIM_LEASE_SECONDS)
  }

  /** The delivery may be called once more after its next exception. */
  predicate Retries(attempt: nat) {
    attempt + 1 < 3
  }

  /** A transcription worker past its inbox check that can still end the run's claim or take it over. */
  predicate CanSettle(p: Proc, run: RunRow) {
    p.Worker? && p.event.state == TranscriptionPending &&
    match p.pc
    case Calling(_) => true
    case Transcribing(_) => true
    case Failing(_, _) => true
    case Active(attempt, startedAt) => Retries(attempt) || Claimable(run, startedAt)
    case Raising(attempt) => Retries(attempt)
    case InTx(attempt, tx, snap) =>
      || Retries(attempt) || tx.CompleteAudioTx? || tx.HeartbeatTx?
      || (snap.run.stateVersion == run.stateVersion && (tx.ClaimAudioTx? ==> Claimable(run, tx.now)))
    case _ => false
  }

  /** Transcription is claimed, all its requests are recorded, and no worker can settle the claim. */
  predicate Silent(s: Sys) {
    && s.tables.run.state == TranscriptionPending && s.tables.run.claimedAt.Some?
    && (forall id <- s.tables.outbox :: s.tables.outbox[id].event.state == TranscriptionPending ==> id in s.inbox)
    && (forall pid <- s.procs :: !CanSettle(s.procs[pid], s.tables.run))
  }

  lemma PeopleCannotMoveTranscription(tx: Tx, snap: Snapshot, now: Time)
    requires ByPerson(tx) && snap.run.state == TranscriptionPending && Mutate(tx, snap, now).Success?
    ensures Mutate(tx, snap, now).value.run.None?
  {
    hide Request, Pow2;
  }

  lemma SilentHttpEnd(s: Sys, s': Sys, pid: nat, now: Time)
    requires Inv(s) && Silent(s) && Apply(s, HttpEnd(pid, now)) == Some(s')
    ensures Silent(s') && s'.tables.run == s.tables.run
  {
    hide Sound, Mutate, OutboxOk, MessagesOk, AiRunsOk, CanSettle;
    var p := s.procs[pid];
    assert ProcOk(p, s);
    if Attempt(s.tables, p.tx, p.snap, now).Committed? {
      SavesRun(p.tx, p.snap, now);
      PeopleCannotMoveTranscription(p.tx, p.snap, now);
    }
  }

  lemma SilentEdit(s: Sys, s': Sys, tx: Tx)
    requires Inv(s) && Silent(s) && Apply(s, EditNow(tx)) == Some(s')
    ensures Silent(s') && s'.tables.run == s.tables.run
  {
    hide Mutate, OutboxOk, MessagesOk, AiRunsOk, CanSettle;
    if Attempt(s.tables, tx, Cur(s), s.clock).Committed? {
      PeopleCannotMoveTranscription(tx, Cur(s), s.clock);
      AttemptShape(s, tx, Cur(s), s.clock, s.procs);
      Unsaved(tx, Cur(s), s.clock, Cur(s), s.confirmations);
    }
  }

  /** Transactions that serve other steps find nothing to do. */
  lemma OthersCannotMoveTranscription(state: WorkflowState, tx: Tx, snap: Snapshot, now: Time)
    requires Serves(state, tx) && state != TranscriptionPending && !tx.PersistTx?
    requires snap.run.state == TranscriptionPending
    ensures Mutate(tx, snap, now).Failure?
  {
  }

  /** A claim read too early, or a failure read before somebody else's commit, changes nothing. */
  lemma UnsettledAttempt(t: Tables, attempt: nat, tx: Tx, snap: Snapshot, now: Time)
    requires Serves(TranscriptionPending, tx) && t.run.state == TranscriptionPending
    requires snap.run.stateVersion == t.run.stateVersion ==> snap.run == t.run
    requires !(Retries(attempt) || tx.CompleteAudioTx? || tx.HeartbeatTx?
               || (snap.run.stateVersion == t.run.stateVersion && (tx.ClaimAudioTx? ==> Claimable(t.run, tx.now))))
    ensures !Attempt(t, tx, snap, now).Committed?
    ensures var pc := Continue(tx, attempt, Attempt(t, tx, snap, now)); pc.Handled? || pc == Raising(attempt)
    ensures snap.run.stateVersion == t.run.stateVersion ==> tx.ClaimAudioTx?
  {
    hide Pow2;
  }

  /** A worker serving another step cannot commit while the run is transcribing. */
  lemma OtherStepAttempt(s: Sys, state: WorkflowState, tx: Tx, snap: Snapshot, now: Time)
    requires SnapOk(snap, s) && Serves(state, tx) && state != TranscriptionPending
    requires tx.PersistTx? ==> HeldForDrafting(snap.run)
    requires s.tables.run.state == TranscriptionPending
    ensures !Attempt(s.tables, tx, snap, now).Committed?
  {
    hide Sound, Mutate;
    if Attempt(s.tables, tx, snap, now).Committed? {
      SavesRun(tx, snap, now);
      OthersCannotMoveTranscription(state, tx, snap, now);
    }
  }

  /** No worker commits anything in a silent system, and none of them becomes able to settle the claim. */
  lemma SilentAttempt(s: Sys, pid: nat, now: Time)
    requires Inv(s) && Silent(s) && pid in s.procs && s.procs[pid].Worker? && s.procs[pid].pc.InTx?
    ensures var InTx(attempt, tx, snap) := s.procs[pid].pc;
            var result := Attempt(s.tables, tx, snap, now);
            !result.Committed? && !CanSettle(s.procs[pid].(pc := Continue(tx, attempt, result)), s.tables.run)
  {
    var p := s.procs[pid];
    var InTx(attempt, tx, snap) := p.pc;
    assert !CanSettle(p, s.tables.run);
    hide Inv, Sound, Attempt, Claimable, Continue, Serves;
    InTxFacts(s, pid, attempt, tx, snap);
    if p.event.state == TranscriptionPending {
      UnsettledAttempt(s.tables, attempt, tx, snap, now);
    } else {
      OtherStepAttempt(s, p.event.state, tx, snap, now);
    }
  }

  lemma SilentEnd(s: Sys, s': Sys, pid: nat, now: Time)
    requires Inv(s) && Silent(s) && Apply(s, End(pid, now)) == Some(s')
    ensures Silent(s') && s'.tables.run == s.tables.run
  {
    SilentAttempt(s, pid, now);
    hide Inv, CanSettle, Attempt, Continue;
  }

  /** What an external failure leads to is no better than what the worker could do before. */
  lemma AbortedCannotSettle(p: Proc, run: RunRow, code: string)
    requires p.Worker? && !CanSettle(p, run) && Aborted(p.pc, code, false).Some?
    requires p.event.state == TranscriptionPending ==> !p.pc.Parking? && !p.pc.Holding?
    requires p.event.state == TranscriptionPending && p.pc.InTx? ==> p.pc.tx.ClaimAudioTx? || p.pc.tx.FailAudioTx?
    ensures !CanSettle(p.(pc := Aborted(p.pc, code, false).value), run)
  {
    hide Claimable;
  }

  lemma SilentBeforeAbort(s: Sys, pid: nat)
    requires Inv(s) && Silent(s) && pid in s.procs && s.procs[pid].Worker?
    ensures var p := s.procs[pid];
            && !CanSettle(p, s.tables.run) && !RecordingChecked(s, p.pc)
            && (p.event.state == TranscriptionPending ==>
                  !p.pc.Parking? && !p.pc.Holding? && (p.pc.InTx? ==> p.pc.tx.ClaimAudioTx? || p.pc.tx.FailAudioTx?))
  {
    hide Sound, OutboxOk, MessagesOk, AiRunsOk, Attempt, Claimable;
    var p := s.procs[pid];
    assert ProcOk(p, s) && !CanSettle(p, s.tables.run);
    if p.pc.InTx? {
      SilentAttempt(s, pid, s.clock);
    }
  }

  lemma SilentAbort(s: Sys, s': Sys, pid: nat, code: string, audioInvalid: bool)
    requires Inv(s) && Silent(s) && Apply(s, Abort(pid, code, audioInvalid)) == Some(s')
    ensures Silent(s') && s'.tables.run == s.tables.run
  {
    hide Inv, RecordingChecked, CanSettle, Aborted;
    SilentBeforeAbort(s, pid);
    assert !audioInvalid;
    AbortedCannotSettle(s.procs[pid], s.tables.run, code);
  }

  lemma SilentBegin(s: Sys, s': Sys, pid: nat, tx: Tx)
    requires Inv(s) && Silent(s) && Apply(s, Begin(pid, tx)) == Some(s')
    ensures Silent(s') && s'.tables.run == s.tables.run
  {
    hide Sound, OutboxOk, MessagesOk, AiRunsOk, Claimable, Validated;
    assert ProcOk(s.procs[pid], s) && !CanSettle(s.procs[pid], s.tables.run);
    assert !CanSettle(s'.procs[pid], s'.tables.run);
  }

  lemma SilentCheckInbox(s: Sys, s': Sys, pid: nat)
    requires Inv(s) && Silent(s) && Apply(s, CheckInbox(pid)) == Some(s')
    ensures Silent(s') && s'.tables.run == s.tables.run
  {
    hide Sound, OutboxOk, MessagesOk, AiRunsOk;
    assert ProcOk(s.procs[pid], s) && !CanSettle(s.procs[pid], s.tables.run);
  }

  lemma SilentMessaging(s: Sys, s': Sys, step: Step)
    requires Silent(s) && Apply(s, step) == Some(s')
    requires step.Tick? || step.HttpBegin? || step.Select? || step.Publish? || step.Stamp? || step.Deliver? || step.CallHandler?
    ensures Silent(s') && s'.tables.run == s.tables.run
  {
    hide Claimable, Validated;
  }

  lemma SilentSettling(s: Sys, s': Sys, step: Step)
    requires Silent(s) && Apply(s, step) == Some(s')
    requires step.RunAi? || step.Rerun? || step.RecordInbox? || step.Ack? || step.Crash?
    ensures Silent(s') && s'.tables.run == s.tables.run
  {
    hide Claimable;
  }

  /** A silent system stays silent: the run remains claimed in transcription whatever happens. */
  lemma SilentStep(s: Sys, s': Sys, step: Step)
    requires Inv(s) && Silent(s) && Apply(s, step) == Some(s')
    ensures Silent(s') && s'.tables.run == s.tables.run
  {
    match step
    case HttpEnd(pid, now) => SilentHttpEnd(s, s', pid, now);
    case EditNow(tx) => SilentEdit(s, s', tx);
    case CheckInbox(pid) => SilentCheckInbox(s, s', pid);
    case Begin(pid, tx) => SilentBegin(s, s', pid, tx);
    case End(pid, now) => SilentEnd(s, s', pid, now);
    case EndUnseen(pid, now, code) =>
      SilentAttempt(s, pid, now);
      assert false;
    case Abort(pid, code, audioInvalid) => SilentAbort(s, s', pid, code, audioInvalid);
    case RunAi(_, _) => SilentSettling(s, s', step);
    case Rerun(_) => SilentSettling(s, s', step);
    case RecordInbox(_) => SilentSettling(s, s', step);
    case Ack(_) => SilentSettling(s, s', step);
    case Crash(_) => SilentSettling(s, s', step);
    case _ => SilentMessaging(s, s', step);
  }

  /**
   The exact condition: a redelivered event that meets a claimed run is dropped as handled
   when the lease is still running at the worker's clock reading, and takes over otherwise.
   The first load that follows decides; nothing else is consulted.
   */
  lemma ClaimedRunDroppedIffLeaseRuns(snap: Snapshot, started: Time, now: Time, t: Tables, attempt: nat, c: Confirmations)
    requires Sound(snap, c) && snap.run == t.run
    requires snap.run.state == TranscriptionPending && snap.run.claimedAt.Some?
    requires snap.run.nextRetryAt.None? || snap.run.nextRetryAt.value <= started
    ensures var next := Continue(ClaimAudioTx(started), attempt, Attempt(t, ClaimAudioTx(started), snap, now));
            && (next == Handled <==> started < snap.run.claimedAt.value + CLAIM_LEASE_SECONDS * SECOND)
            && (next != Handled <==> next == Transcribing(attempt))
  {
  }

  // ----- A lease shortened by a late heartbeat -----

  lemma HeldByWriter(prev: RunRow, link: Link)
    requires LegalLink(prev, link) && link.run.state == TranscriptionPending && link.run.claimedAt.Some?
    ensures WritesClaim(link.tx) && link.run.claimedAt.value == link.tx.now
  {
    hide Joint, InputOk, Pow2;
  }

  lemma TakenOver(prev: RunRow, link: Link)
    requires LegalLink(prev, link) && link.tx.ClaimAudioTx? && prev.claimedAt.Some?
    ensures prev.state == TranscriptionPending && prev.claimedAt.value + CLAIM_LEASE_SECONDS * SECOND <= link.tx.now
  {
    hide Joint, InputOk, Pow2;
  }

  /**
   A claim less than 120 seconds after an unreleased one is possible only after a heartbeat
   with an even older reading: that heartbeat moved the claim time back, and the new claim is
   120 seconds past it. `ClaimedRunDroppedIffLeaseRuns` is the condition on the single row.
   */
  lemma {:induction false} EarlyTakeoverNeedsStaleHeartbeat(origin: RunRow, chain: seq<Link>, a: nat, b: nat) returns (k: nat)
    requires LegalChain(origin, chain) && a < b < |chain|
    requires chain[a].tx.ClaimAudioTx? && chain[b].tx.ClaimAudioTx?
    requires forall k :: a < k <= b ==> RowAt(origin, chain, k).claimedAt.Some?
    requires chain[b].tx.now < chain[a].tx.now + CLAIM_LEASE_SECONDS * SECOND
    ensures a < k < b && chain[k].tx.HeartbeatTx?
    ensures chain[k].tx.now < chain[a].tx.now && chain[k].tx.now + CLAIM_LEASE_SECONDS * SECOND <= chain[b].tx.now
    decreases b
  {
    hide LegalLink;
    LinkAt(origin, chain, b - 1);
    LinkAt(origin, chain, b);
    assert RowAt(origin, chain, b) == chain[b - 1].run;
    TakenOver(RowAt(origin, chain, b), chain[b]);
    HeldByWriter(RowAt(origin, chain, b - 1), chain[b - 1]);
    if chain[b - 1].tx.HeartbeatTx? {
      k := b - 1;
    } else {
      k := EarlyTakeoverNeedsStaleHeartbeat(origin, chain, a, b - 1);
    }
  }

  /** In any execution a lease is cut short only by a heartbeat that was read before the lease was taken. */
  lemma LeaseCutOnlyByLateHeartbeat(trace: seq<Sys>, steps: seq<Step>, i: nat, a: nat, b: nat) returns (k: nat)
    requires Execution(trace, steps) && i < |trace| && a < b < |trace[i].chain|
    requires trace[i].chain[a].tx.ClaimAudioTx? && trace[i].chain[b].tx.ClaimAudioTx?
    requires forall k :: a < k <= b ==> RowAt(trace[i].origin, trace[i].chain, k).claimedAt.Some?
    requires trace[i].chain[b].tx.now < trace[i].chain[a].tx.now + CLAIM_LEASE_SECONDS * SECOND
    ensures a < k < b && trace[i].chain[k].tx.HeartbeatTx? && trace[i].chain[k].tx.now < trace[i].chain[a].tx.now
    ensures trace[i].chain[k].tx.now + CLAIM_LEASE_SECONDS * SECOND <= trace[i].chain[b].tx.now
  {
    ReachableHistory(trace, steps, i);
    hide Execution, Inv, LegalChain;
    k := EarlyTakeoverNeedsStaleHeartbeat(trace[i].origin, trace[i].chain, a, b);
  }

  /** A reading takes the claim over exactly when the stored claim time is a full lease older than it. */
  lemma TakeoverIffLeaseExpired(t: Tables, at: Time, clock: Time, c: Confirmations)
    requires Sound(Snapshot(t.run, t.report, clock), c) && t.run.state == TranscriptionPending && t.run.claimedAt.Some?
    requires t.run.nextRetryAt.Some? ==> t.run.nextRetryAt.value <= at
    ensures Attempt(t, ClaimAudioTx(at), Snapshot(t.run, t.report, clock), clock).Committed?
            <==> t.run.claimedAt.value <= at - CLAIM_LEASE_SECONDS * SECOND
  {
  }
}
