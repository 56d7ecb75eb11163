/** Main results: what holds in every reachable state, and along every run, of the interleaved system. */
module Safety {
  import opened Wrappers
  import opened States
  import opened WorkflowRuns
  import opened Reports
  import opened VisualAudits
  import opened Pricing
  import opened Transactions
  import opened RowInvariants
  import opened Protocol
  import opened SystemInvariant
  import opened History
  import opened Chains

  // ----- Run and report together -----

  /** The run's state and the report's status agree in every reachable state. */
  lemma RunAndReportAgree(trace: seq<Sys>, steps: seq<Step>, i: nat)
    requires Execution(trace, steps) && i < |trace|
    ensures var run, report := trace[i].tables.run, trace[i].tables.report;
            && (run.state == TranscriptionPending || run.state == ReviewPending || run.state == Failed ==> report.status == Draft)
            && (run.state == SignaturePending <==> report.status == PendingSignature)
            && (run.state == PdfPending ==> report.status == Signed)
            && (run.state == Completed <==> report.status == CompletedReport)
            && (run.state == ManualInputRequired || run.state == DraftingPending ==>
                  report.status == Draft || report.status == Signed)
            && run.state != CollectingEvidence && run.state != FinalizationPending
  {
    Reachable(trace, steps, i);
  }

  // ----- No lost wake-up -----

  /** The event can still cause a call: not recorded as processed, and unpublished or on an unacknowledged entry. */
  predicate Deliverable(s: Sys, id: nat) {
    && id in s.tables.outbox && id !in s.inbox
    && (!s.tables.outbox[id].published || exists e <- s.stream :: s.stream[e].event == id && !s.stream[e].acked)
  }

  lemma WakeUpKept(s: Sys)
    requires Inv(s) && Awaiting(s.tables.run)
    ensures Deliverable(s, s.tables.run.stateVersion)
  {
    hide Sound, ProcsOk, AiRunsOk;
    var id := s.tables.run.stateVersion;
    if s.tables.outbox[id].published {
      assert OnStream(s, id);
      var e :| e in s.stream && s.stream[e].event == id;
      assert !s.stream[e].acked;
    }
  }

  /**
   No lost wake-up. A run that needs a worker and is not claimed has the dispatch event
   of its latest entry or retry still deliverable, naming its state and its due time.
   */
  lemma NoLostWakeUp(trace: seq<Sys>, steps: seq<Step>, i: nat)
    requires Execution(trace, steps) && i < |trace| && Awaiting(trace[i].tables.run)
    ensures var s := trace[i];
            && Deliverable(s, s.tables.run.stateVersion)
            && var event := s.tables.outbox[s.tables.run.stateVersion].event;
               event.state == s.tables.run.state && event.notBefore == s.tables.run.nextRetryAt
  {
    Reachable(trace, steps, i);
    hide Sound, ProcsOk, AiRunsOk;
    WakeUpKept(trace[i]);
  }

  // ----- Paid work -----

  predicate DraftClaimAt(chain: seq<Link>, version: nat) {
    exists k :: 0 <= k < |chain| && chain[k].tx.ClaimDraftTx? && chain[k].run.stateVersion == version
  }

  predicate AiLinked(s: Sys) {
    forall j :: 0 <= j < |s.aiRuns| ==> DraftClaimAt(s.chain, s.aiRuns[j])
  }

  lemma HeldIsClaimed(s: Sys)
    requires ChainOk(s) && HeldForDrafting(s.tables.run) && HeldForDrafting(s.origin) == false
    ensures DraftClaimAt(s.chain, s.tables.run.stateVersion)
  {
    hide LegalLink;
    var n := |s.chain| - 1;
    LinkAt(s.origin, s.chain, n);
    HeldByClaim(RowAt(s.origin, s.chain, n), s.chain[n]);
    assert s.chain[n].tx.ClaimDraftTx?;
  }

  lemma AiRunsChange(s: Sys, s': Sys, step: Step)
    requires Apply(s, step) == Some(s')
    ensures s'.aiRuns == s.aiRuns || (step.RunAi? && step.pid in s.procs && s.procs[step.pid].Worker?
              && s.procs[step.pid].pc.Holding? && s'.aiRuns == s.aiRuns + [s.procs[step.pid].pc.claim])
  {
    hide Continue, Aborted, MayBegin, Attempt, Noted;
  }

  lemma {:induction false} AiRunsLinked(trace: seq<Sys>, steps: seq<Step>, i: nat)
    requires Execution(trace, steps) && i < |trace|
    ensures AiLinked(trace[i]) && !HeldForDrafting(trace[i].origin)
  {
    hide Inv, HistoryOk, Apply, ChainOk;
    if i > 0 {
      AiRunsLinked(trace, steps, i - 1);
      ReachableHistory(trace, steps, i - 1);
      HistoryGrows(trace, steps, i - 1, i);
      var s, s' := trace[i - 1], trace[i];
      assert Apply(s, steps[i - 1]) == Some(trace[i - 1 + 1]);
      AiRunsChange(s, s', steps[i - 1]);
      if s'.aiRuns != s.aiRuns {
        HolderClaim(s, steps[i - 1].pid);
      }
      forall j | 0 <= j < |s'.aiRuns|
        ensures DraftClaimAt(s'.chain, s'.aiRuns[j])
      {
        assert DraftClaimAt(s.chain, s'.aiRuns[j]);
        LongerChain(s.chain, s'.chain, s'.aiRuns[j]);
      }
    }
  }

  lemma LongerChain(shorter: seq<Link>, longer: seq<Link>, version: nat)
    requires shorter <= longer && DraftClaimAt(shorter, version)
    ensures DraftClaimAt(longer, version)
  {
    var k :| 0 <= k < |shorter| && shorter[k].tx.ClaimDraftTx? && shorter[k].run.stateVersion == version;
    assert longer[k] == shorter[k];
  }

  lemma HolderClaim(s: Sys, pid: nat)
    requires Inv(s) && HistoryOk(s) && !HeldForDrafting(s.origin)
    requires pid in s.procs && s.procs[pid].Worker? && s.procs[pid].pc.Holding?
    ensures DraftClaimAt(s.chain, s.procs[pid].pc.claim)
  {
    hide Sound, Accounted, ReviewOk, LegalChain;
    assert ProcOk(s.procs[pid], s);
    HeldIsClaimed(s);
  }

  /** The two versions were written by two drafting claims with an entry into drafting between them. */
  predicate ClaimedApart(origin: RunRow, chain: seq<Link>, v: nat, w: nat) {
    exists k, l :: 0 <= k < |chain| && 0 <= l < |chain| && ClaimsApart(origin, chain, k, l, v, w)
  }

  predicate ClaimsApart(origin: RunRow, chain: seq<Link>, k: nat, l: nat, v: nat, w: nat)
    requires k < |chain| && l < |chain|
  {
    && chain[k].tx.ClaimDraftTx? && chain[k].run.stateVersion == v
    && chain[l].tx.ClaimDraftTx? && chain[l].run.stateVersion == w
    && (if k < l then EnteredIn(origin, chain, k + 1, l, DraftingPending)
        else l < k && EnteredIn(origin, chain, l + 1, k, DraftingPending))
  }

  lemma DistinctClaimsApart(origin: RunRow, chain: seq<Link>, v: nat, w: nat)
    requires LegalChain(origin, chain) && v != w && DraftClaimAt(chain, v) && DraftClaimAt(chain, w)
    ensures ClaimedApart(origin, chain, v, w)
  {
    hide LegalChain, EnteredIn;
    var k :| 0 <= k < |chain| && chain[k].tx.ClaimDraftTx? && chain[k].run.stateVersion == v;
    var l :| 0 <= l < |chain| && chain[l].tx.ClaimDraftTx? && chain[l].run.stateVersion == w;
    if k < l {
      OneClaimPerDrafting(origin, chain, k, l);
    } else {
      OneClaimPerDrafting(origin, chain, l, k);
    }
    assert ClaimsApart(origin, chain, k, l, v, w);
  }

  /**
   Paid AI work happens at most once per entry into drafting: two AI runs belong to
   different committed claims, and the run re-entered drafting between those claims.
   */
  lemma AiRunsOncePerDrafting(trace: seq<Sys>, steps: seq<Step>, i: nat, a: nat, b: nat)
    requires Execution(trace, steps) && i < |trace|
    requires a < b < |trace[i].aiRuns|
    ensures trace[i].aiRuns[a] != trace[i].aiRuns[b]
    ensures ClaimedApart(trace[i].origin, trace[i].chain, trace[i].aiRuns[a], trace[i].aiRuns[b])
  {
    var s := trace[i];
    ReachableHistory(trace, steps, i);
    AiRunsLinked(trace, steps, i);
    hide Sound, ProcsOk, MessagesOk, OutboxOk, Accounted, ReviewOk, LegalChain, ClaimedApart, DraftClaimAt;
    DistinctClaimsApart(s.origin, s.chain, s.aiRuns[a], s.aiRuns[b]);
  }

  /** The claim holder's persist finds the run exactly as it loaded it, whenever it gets to commit. */
  lemma HolderNeverLoses(trace: seq<Sys>, steps: seq<Step>, i: nat, pid: nat, now: Time)
    requires Execution(trace, steps) && i < |trace|
    requires pid in trace[i].procs && Holder(trace[i].procs[pid]) && trace[i].procs[pid].pc.InTx?
    ensures var InTx(_, tx, snap) := trace[i].procs[pid].pc;
            Attempt(trace[i].tables, tx, snap, now) != Lost && HeldForDrafting(trace[i].tables.run)
  {
    Reachable(trace, steps, i);
    hide Sound, MessagesOk, OutboxOk, AiRunsOk, Mutate;
    assert ProcOk(trace[i].procs[pid], trace[i]);
  }

  // ----- PDF, review, audit -----

  /** At most one PDF is ever attached, and there is one exactly when the run is completed. */
  lemma OnePdf(trace: seq<Sys>, steps: seq<Step>, i: nat)
    requires Execution(trace, steps) && i < |trace|
    ensures |trace[i].tables.pdfs| <= 1
    ensures |trace[i].tables.pdfs| == 1 <==> trace[i].tables.run.state == Completed
  {
    ReachableHistory(trace, steps, i);
  }

  /** Once completed, the run's row never changes again. */
  lemma CompletedStays(trace: seq<Sys>, steps: seq<Step>, i: nat, j: nat)
    requires Execution(trace, steps) && i <= j < |trace|
    requires trace[i].tables.run.state == Completed
    ensures trace[j].tables.run == trace[i].tables.run
  {
    ReachableHistory(trace, steps, i);
    ReachableHistory(trace, steps, j);
    HistoryGrows(trace, steps, i, j);
    hide Inv, LegalLink;
    var s, s' := trace[i], trace[j];
    assert RowAt(s'.origin, s'.chain, |s.chain|) == RowAt(s.origin, s.chain, |s.chain|);
    CompletedIsLast(s'.origin, s'.chain, |s.chain|);
  }

  /** Review is entered at most once, so at most one audit is stored, and each came with the move to review. */
  lemma OneReview(trace: seq<Sys>, steps: seq<Step>, i: nat)
    requires Execution(trace, steps) && i < |trace|
    ensures ReviewEntries(trace[i].chain) <= 1
    ensures |trace[i].tables.audits| == DraftsReviewed(trace[i].chain) <= ReviewEntries(trace[i].chain)
  {
    ReachableHistory(trace, steps, i);
  }

  /**
   The audit stored by a successful analysis carries the price its auditor was shown,
   the report's new amount and currency, and the drafted work, all from one transaction.
   */
  lemma StoredAuditMatchesReport(snap: Snapshot, analysis: Analysis)
    requires analysis.Analysed? && 1.0 <= analysis.rate
    requires Persist(snap, analysis).Success?
    ensures var e := Persist(snap, analysis).value;
            && |e.audits| == 1 && e.report.Some?
            && e.audits[0].status == Succeeded
            && e.audits[0].providedPriceUsd
            == ProvidedPriceUsd(SuggestedAmountCents(analysis.draft.workUnits), "USD", analysis.rate)
            && e.audits[0].amountCents == e.report.value.content.amountCents
            && e.audits[0].currency == e.report.value.content.currency == snap.report.content.currency
            && e.audits[0].work == e.report.value.content.work
            && 1 <= |e.audits[0].pairs| <= MAX_PHOTO_PAIRS && Distinct(e.audits[0].pairs)
  {
    hide ToRub, PriceFromUsd, PriceFromRub;
    var units, currency := analysis.draft.workUnits, snap.report.content.currency;
    if Recognised(currency).Some? {
      PriceRoundTrip(units, currency, analysis.rate);
    }
  }

  // ----- Dispatch conservation, inputs, measure -----

  /** The outbox holds exactly one event per committed entry into a worker-driven state and per scheduled retry. */
  lemma DispatchConservation(trace: seq<Sys>, steps: seq<Step>, i: nat, state: WorkflowState)
    requires Execution(trace, steps) && i < |trace| && WorkerDriven(state)
    ensures var s := trace[i];
            && Accounted(s.tables.outbox, Emitted(s.origin, s.chain))
            && |OutboxIds(s.tables.outbox, state)| == Entries(s.origin, s.chain, state)
  {
    ReachableHistory(trace, steps, i);
    OriginIsWorkerDriven(trace, steps, i);
    hide Inv, LegalChain, ReviewOk, Emitted, Accounted, Execution;
    var s := trace[i];
    DispatchesCounted(s.origin, s.chain, state);
    AccountedIds(s.tables.outbox, Emitted(s.origin, s.chain), state);
  }

  function OutboxIds(outbox: map<nat, OutboxRow>, state: WorkflowState): set<nat> {
    set id <- outbox | outbox[id].event.state == state
  }

  lemma AccountedIds(outbox: map<nat, OutboxRow>, emitted: map<nat, DispatchEvent>, state: WorkflowState)
    requires Accounted(outbox, emitted)
    ensures OutboxIds(outbox, state) == IdsFor(emitted, state)
  {
    forall id
      ensures id in OutboxIds(outbox, state) <==> id in IdsFor(emitted, state)
    {
      assert id in outbox.Keys <==> id in emitted.Keys;
    }
  }

  lemma OriginIsWorkerDriven(trace: seq<Sys>, steps: seq<Step>, i: nat)
    requires Execution(trace, steps) && i < |trace|
    ensures WorkerDriven(trace[i].origin.state)
  {
    HistoryGrows(trace, steps, 0, i);
  }

  /** Attempts, retries and inputs are well formed wherever a worker will read them. */
  lemma InputsWellFormed(trace: seq<Sys>, steps: seq<Step>, i: nat)
    requires Execution(trace, steps) && i < |trace|
    ensures var run := trace[i].tables.run;
            && (run.state == TranscriptionPending ==>
                  && run.attempt < 3 && (run.nextRetryAt.Some? <==> run.attempt > 0)
                  && Dispatch(run).Success?
                  && run.input.transcription.Some? && run.input.transcription.value.mediaAssetId.Some?)
            && (run.state == DraftingPending ==> run.input.drafting.Some? && 20 <= |run.input.drafting.value|)
  {
    Reachable(trace, steps, i);
  }

  /** The stored rows of any run form one legal chain; each was computed from exactly its predecessor. */
  lemma CommittedRowsFormChain(trace: seq<Sys>, steps: seq<Step>, i: nat)
    requires Execution(trace, steps) && i < |trace|
    ensures var s := trace[i];
            LegalChain(s.origin, s.chain) && s.tables.run == RowAt(s.origin, s.chain, |s.chain|)
  {
    ReachableHistory(trace, steps, i);
  }

  // ----- Signed content -----

  lemma FrozenStep(s: Sys, s': Sys, step: Step)
    requires Inv(s) && Apply(s, step) == Some(s') && s.tables.report.frozenAt.Some?
    ensures s'.tables.report.content == s.tables.report.content
    ensures s'.tables.report.frozenAt == s.tables.report.frozenAt
    ensures s'.tables.report.confirmedAt == s.tables.report.confirmedAt
    ensures s.tables.report.signatures <= s'.tables.report.signatures
  {
    hide Inv, Apply, CommitShape;
    var shape := ShapeOf(s, s', step);
    match shape
    case Still =>
    case Committing(tx, snap, now) => FrozenCommit(s, s', tx, snap, now);
  }

  lemma FrozenCommit(s: Sys, s': Sys, tx: Tx, snap: Snapshot, now: Time)
    requires CommitShape(s, s', tx, snap, now) && s.tables.report.frozenAt.Some?
    ensures s'.tables.report.content == s.tables.report.content
    ensures s'.tables.report.frozenAt == s.tables.report.frozenAt
    ensures s'.tables.report.confirmedAt == s.tables.report.confirmedAt
    ensures s.tables.report.signatures <= s'.tables.report.signatures
  {
    hide Joint, BookkeepingOk, InputOk, ConfirmedOk, Request, Pow2, AddEvents;
  }

  /** After the freeze no step of any handler or activity changes work, amount, currency or materials. */
  lemma {:induction false} FrozenContentStays(trace: seq<Sys>, steps: seq<Step>, i: nat, j: nat)
    requires Execution(trace, steps) && i <= j < |trace|
    requires trace[i].tables.report.frozenAt.Some?
    ensures trace[j].tables.report.content == trace[i].tables.report.content
    ensures trace[j].tables.report.frozenAt == trace[i].tables.report.frozenAt
    decreases j - i
  {
    hide Inv, Apply;
    if i < j {
      FrozenContentStays(trace, steps, i, j - 1);
      Reachable(trace, steps, j - 1);
      assert Apply(trace[j - 1], steps[j - 1]) == Some(trace[j - 1 + 1]);
      FrozenStep(trace[j - 1], trace[j], steps[j - 1]);
    }
  }

  /** Confirmation requests happen only while the run is in review. */
  ghost predicate ConfirmsInReview(trace: seq<Sys>, steps: seq<Step>) {
    |trace| == |steps| + 1 &&
    forall k :: 0 <= k < |steps| && steps[k] == EditNow(ConfirmTx) ==> trace[k].tables.run.state == ReviewPending
  }

  /** Some confirmation before step `i` went through on a report with this content. */
  ghost predicate Confirmed(trace: seq<Sys>, steps: seq<Step>, i: nat, content: Content)
    requires i <= |steps| < |trace|
  {
    exists k :: 0 <= k < i && ConfirmsHere(trace[k], steps[k]) && trace[k].tables.report.content == content
  }

  predicate ConfirmsHere(s: Sys, step: Step) {
    step == EditNow(ConfirmTx) && Confirm(s.tables.report, s.clock).Success?
  }

  lemma ConfirmStep(s: Sys, s': Sys)
    requires Apply(s, EditNow(ConfirmTx)) == Some(s')
    ensures s'.confirmations == if ConfirmsHere(s, EditNow(ConfirmTx)) then Noted(ConfirmTx, Cur(s), s.confirmations)
                                else s.confirmations
  {
  }

  lemma ConfirmationsStep(s: Sys, s': Sys, step: Step)
    requires Inv(s) && Apply(s, step) == Some(s')
    ensures s'.confirmations == if ConfirmsHere(s, step) then Noted(ConfirmTx, Cur(s), s.confirmations)
                                else s.confirmations
  {
    hide Inv, Apply, CommitShape;
    if step == EditNow(ConfirmTx) {
      ConfirmStep(s, s');
    } else {
      var shape := ShapeOf(s, s', step);
      match shape
      case Still =>
      case Committing(tx, snap, now) => CommitConfirmations(s, s', tx, snap, now);
    }
  }

  lemma CommitConfirmations(s: Sys, s': Sys, tx: Tx, snap: Snapshot, now: Time)
    requires CommitShape(s, s', tx, snap, now)
    ensures s'.confirmations == Noted(tx, Cur(s), s.confirmations)
  {
  }

  lemma {:induction false} SeenWasConfirmed(trace: seq<Sys>, steps: seq<Step>, i: nat)
    requires Execution(trace, steps) && i < |trace| && ConfirmsInReview(trace, steps)
    ensures !trace[i].confirmations.early
    ensures forall content <- trace[i].confirmations.seen :: Confirmed(trace, steps, i, content)
  {
    hide Inv, Apply;
    if i > 0 {
      SeenWasConfirmed(trace, steps, i - 1);
      Reachable(trace, steps, i - 1);
      assert Apply(trace[i - 1], steps[i - 1]) == Some(trace[i - 1 + 1]);
      ConfirmationsStep(trace[i - 1], trace[i], steps[i - 1]);
      forall content <- trace[i].confirmations.seen
        ensures Confirmed(trace, steps, i, content)
      {
        if content in trace[i - 1].confirmations.seen {
          assert Confirmed(trace, steps, i - 1, content);
        }
      }
    }
  }

  /** The history field records exactly the contents that confirmations were made on. */
  lemma {:induction false} ConfirmedIsSeen(trace: seq<Sys>, steps: seq<Step>, i: nat, content: Content)
    requires Execution(trace, steps) && i < |trace| && Confirmed(trace, steps, i, content)
    ensures content in trace[i].confirmations.seen
  {
    hide Inv, Apply, ConfirmsHere;
    var k :| 0 <= k < i && ConfirmsHere(trace[k], steps[k]) && trace[k].tables.report.content == content;
    Reachable(trace, steps, i - 1);
    assert Apply(trace[i - 1], steps[i - 1]) == Some(trace[i - 1 + 1]);
    ConfirmationsStep(trace[i - 1], trace[i], steps[i - 1]);
    if k < i - 1 {
      ConfirmedIsSeen(trace, steps, i - 1, content);
    }
  }

  /** If reports are confirmed only in review, the frozen content is one a confirmation saw. */
  lemma FrozenContentWasConfirmed(trace: seq<Sys>, steps: seq<Step>, i: nat)
    requires Execution(trace, steps) && i < |trace| && ConfirmsInReview(trace, steps)
    requires trace[i].tables.report.frozenAt.Some?
    ensures Confirmed(trace, steps, i, trace[i].tables.report.content)
  {
    Reachable(trace, steps, i);
    hide OutboxOk, MessagesOk, ProcsOk, AiRunsOk;
    SeenWasConfirmed(trace, steps, i);
  }

  /** Signed and completed reports carry exactly one signature, and their marks are in time order. */
  lemma SigningMarks(trace: seq<Sys>, steps: seq<Step>, i: nat)
    requires Execution(trace, steps) && i < |trace|
    ensures SigningOk(trace[i].tables.report, trace[i].clock)
  {
    Reachable(trace, steps, i);
  }

  // ----- Along the committed rows -----

  /** The chain of any reachable state; what the following results rest on. */
  lemma HasChain(trace: seq<Sys>, steps: seq<Step>, i: nat)
    requires Execution(trace, steps) && i < |trace|
    ensures LegalChain(trace[i].origin, trace[i].chain)
  {
    ReachableHistory(trace, steps, i);
  }

  /** No update is lost: each committed transaction loaded exactly the row before it, and no two loaded the same version. */
  lemma NoLostUpdate(trace: seq<Sys>, steps: seq<Step>, i: nat, a: nat, b: nat)
    requires Execution(trace, steps) && i < |trace| && a < b < |trace[i].chain|
    ensures trace[i].chain[a].snap.run == RowAt(trace[i].origin, trace[i].chain, a)
    ensures trace[i].chain[a].snap.run.stateVersion < trace[i].chain[a].run.stateVersion
            <= trace[i].chain[b].snap.run.stateVersion
  {
    hide Execution, LegalChain;
    HasChain(trace, steps, i);
    OneCommitPerVersion(trace[i].origin, trace[i].chain, a, b);
  }

  /** Between two committed transcripts transcription was entered again. */
  lemma OneTranscriptPerStay(trace: seq<Sys>, steps: seq<Step>, i: nat, a: nat, b: nat)
    requires Execution(trace, steps) && i < |trace| && a < b < |trace[i].chain|
    requires trace[i].chain[a].tx.CompleteAudioTx? && trace[i].chain[b].tx.CompleteAudioTx?
    ensures EnteredIn(trace[i].origin, trace[i].chain, a + 1, b, TranscriptionPending)
  {
    hide Execution, LegalChain, EnteredIn;
    HasChain(trace, steps, i);
    OneCompletionPerStay(trace[i].origin, trace[i].chain, a, b);
  }

  /** FAILED is entered only by a claim holder giving up, although nothing in the aggregate checks that. */
  lemma OnlyHoldersFail(trace: seq<Sys>, steps: seq<Step>, i: nat, a: nat)
    requires Execution(trace, steps) && i < |trace| && a < |trace[i].chain| && trace[i].chain[a].run.state == Failed
    ensures HeldForDrafting(RowAt(trace[i].origin, trace[i].chain, a))
    ensures trace[i].chain[a].tx.PersistTx? && trace[i].chain[a].tx.analysis.GaveUp?
  {
    hide Execution, LegalChain;
    HasChain(trace, steps, i);
    FailedOnlyFromDrafting(trace[i].origin, trace[i].chain, a);
  }

  /** No claim interrupts a running lease, whatever stale workers and heartbeats there are. */
  lemma LeasesExclude(trace: seq<Sys>, steps: seq<Step>, i: nat, a: nat, b: nat)
    requires Execution(trace, steps) && i < |trace| && a < b < |trace[i].chain|
    requires WritesClaim(trace[i].chain[a].tx) && trace[i].chain[b].tx.ClaimAudioTx?
    requires forall k :: a < k < b ==> !WritesClaim(trace[i].chain[k].tx)
    requires forall k :: a < k <= b ==> RowAt(trace[i].origin, trace[i].chain, k).claimedAt.Some?
    ensures trace[i].chain[a].tx.now + CLAIM_LEASE_SECONDS * SECOND <= trace[i].chain[b].tx.now <= trace[i].chain[b].at
  {
    hide Execution, LegalChain;
    HasChain(trace, steps, i);
    LeaseExclusion(trace[i].origin, trace[i].chain, a, b);
  }

  /** Two failures are retried after 2 and 4 seconds, the third parks, and no retry is claimed early. */
  lemma RetriesFollowSchedule(trace: seq<Sys>, steps: seq<Step>, i: nat, a: nat)
    requires Execution(trace, steps) && i < |trace| && a < |trace[i].chain|
    ensures var prev, link := RowAt(trace[i].origin, trace[i].chain, a), trace[i].chain[a];
            && (link.tx.ClaimAudioTx? && prev.nextRetryAt.Some? ==> prev.nextRetryAt.value <= link.tx.now)
            && (link.tx.FailAudioTx? ==>
                  && prev.attempt < 3 && link.run.attempt == prev.attempt + 1
                  && (prev.attempt == 0 ==> link.run.nextRetryAt == Some(link.tx.finishedAt + 2 * SECOND))
                  && (prev.attempt == 1 ==> link.run.nextRetryAt == Some(link.tx.finishedAt + 4 * SECOND))
                  && (prev.attempt == 2 <==> link.run.state == ManualInputRequired))
  {
    hide Execution, LegalChain;
    HasChain(trace, steps, i);
    RetrySchedule(trace[i].origin, trace[i].chain, a);
  }

  /** Whatever enters a worker's state or schedules a retry leaves the run unclaimed for the worker it dispatches. */
  lemma EntriesCanBeClaimed(trace: seq<Sys>, steps: seq<Step>, i: nat, a: nat)
    requires Execution(trace, steps) && i < |trace| && a < |trace[i].chain|
    requires Enters(RowAt(trace[i].origin, trace[i].chain, a), trace[i].chain[a].run)
    ensures Awaiting(trace[i].chain[a].run) && trace[i].chain[a].run.claimedAt.None?
  {
    hide Execution, LegalChain;
    HasChain(trace, steps, i);
    EntriesAreUnclaimed(trace[i].origin, trace[i].chain, a);
  }

  /** Between two human actions a run commits at most four outcomes. */
  lemma OutcomesBetweenPeople(trace: seq<Sys>, steps: seq<Step>, i: nat, a: nat, b: nat)
    requires Execution(trace, steps) && i < |trace| && a <= b <= |trace[i].chain|
    requires forall k :: a <= k < b ==> !ByPerson(trace[i].chain[k].tx)
    ensures Concluded(trace[i].chain, a, b) <= Measure(RowAt(trace[i].origin, trace[i].chain, a)) <= 4
  {
    hide Execution, LegalChain;
    HasChain(trace, steps, i);
    AtMostFourOutcomes(trace[i].origin, trace[i].chain, a, b);
  }
}
