/**
 What becomes of a run whose step is claimed: when it can still be completed, and when the
 claim has outlived everybody who could settle it.
 */
module Recovery {
  import opened Wrappers
  import opened States
  import opened WorkflowRuns
  import opened Reports
  import opened VisualAudits
  import opened Pricing
  import opened Transactions
  import opened RowInvariants
  import opened Protocol
  import opened SystemInvariant
  import opened Limits
  import opened Progress

  // ----- A claimed drafting step -----

  /** A result whose audit would be accepted; giving up needs none. */
  predicate Storable(analysis: Analysis) {
    analysis.GaveUp? ||
    (1 <= |analysis.pairs| <= MAX_PHOTO_PAIRS && Distinct(analysis.pairs) && !Blank(analysis.draft.work))
  }

  /** The process holds the drafting claim, and what it has so far can still be stored. */
  predicate Viable(p: Proc) {
    p.Worker? &&
    match p.pc
    case Holding(_, _, None) => true
    case Holding(_, _, Some(analysis)) => Storable(analysis)
    case InTx(_, PersistTx(analysis), snap) => Persist(snap, analysis).Success?
    case _ => false
  }

  /** Drafting is claimed, and nobody can settle the claim. */
  predicate Abandoned(s: Sys) {
    HeldForDrafting(s.tables.run) && forall pid <- s.procs :: !Viable(s.procs[pid])
  }

  lemma UnstorableIsRefused(snap: Snapshot, analysis: Analysis)
    requires !Storable(analysis)
    ensures Persist(snap, analysis).Failure?
  {
    hide ConvertUsdCents, ProvidedPriceUsd, Distinct, Blank, ApplyAi;
  }

  /** A storable result can be persisted for a report in dollars, whatever was drafted. */
  lemma StorableInDollars(t: Sys, analysis: Analysis)
    requires Storable(analysis) && Editable(t.tables.report).Pass? && t.tables.report.content.currency == "USD"
    requires t.tables.run.state == DraftingPending
    ensures Attempt(t.tables, PersistTx(analysis), Cur(t), t.clock).Committed?
  {
    hide ProvidedPriceUsd, Distinct, Blank, Editable, AddEvents;
    assert Upper("USD") == "USD";
  }

  lemma OnlyPersistMovesHeld(tx: Tx, snap: Snapshot, now: Time)
    requires HeldForDrafting(snap.run) && !tx.PersistTx? && Mutate(tx, snap, now).Success?
    ensures Mutate(tx, snap, now).value.run.None?
  {
    hide Request, Pow2;
  }

  lemma HeldIsNotMoved(s: Sys, tx: Tx, snap: Snapshot, now: Time)
    requires HeldForDrafting(s.tables.run) && !tx.PersistTx? && SnapOk(snap, s)
    requires !tx.ConfirmTx? && (tx.UpdateTx? ==> snap.run.state == ManualInputRequired)
    ensures !Attempt(s.tables, tx, snap, now).Committed?
  {
    hide Mutate, Sound;
    if Attempt(s.tables, tx, snap, now).Committed? {
      SavesRun(tx, snap, now);
      OnlyPersistMovesHeld(tx, snap, now);
    }
  }

  lemma AbandonedHttpEnd(s: Sys, s': Sys, pid: nat, now: Time)
    requires Inv(s) && Abandoned(s) && Apply(s, HttpEnd(pid, now)) == Some(s')
    ensures Abandoned(s')
  {
    hide Sound, Attempt, OutboxOk, MessagesOk, AiRunsOk, Viable;
    var p := s.procs[pid];
    assert ProcOk(p, s);
    HeldIsNotMoved(s, p.tx, p.snap, now);
  }

  lemma AbandonedEdit(s: Sys, s': Sys, tx: Tx)
    requires Inv(s) && Abandoned(s) && Apply(s, EditNow(tx)) == Some(s')
    ensures Abandoned(s')
  {
    hide Mutate, OutboxOk, MessagesOk, AiRunsOk, Viable;
    if Attempt(s.tables, tx, Cur(s), s.clock).Committed? {
      OnlyPersistMovesHeld(tx, Cur(s), s.clock);
    }
  }

  /** Whatever transaction a worker has open, it does not commit. */
  lemma AbandonedAttempt(s: Sys, pid: nat, now: Time)
    requires Inv(s) && Abandoned(s) && pid in s.procs && s.procs[pid].Worker? && s.procs[pid].pc.InTx?
    ensures !Attempt(s.tables, s.procs[pid].pc.tx, s.procs[pid].pc.snap, now).Committed?
  {
    hide Sound, OutboxOk, MessagesOk, AiRunsOk, Persist;
    var p := s.procs[pid];
    var InTx(attempt, tx, snap) := p.pc;
    assert ProcOk(p, s) && !Viable(p);
    if !tx.PersistTx? {
      hide Attempt;
      HeldIsNotMoved(s, tx, snap, now);
    }
  }

  lemma AbandonedEnd(s: Sys, s': Sys, pid: nat, now: Time)
    requires Inv(s) && Abandoned(s) && Apply(s, End(pid, now)) == Some(s')
    ensures Abandoned(s')
  {
    hide Inv, Persist, Attempt, Storable;
    AbandonedAttempt(s, pid, now);
    assert !Viable(s'.procs[pid]);
  }

  lemma UnseenCommits(s: Sys, pid: nat, now: Time, code: string)
    requires Apply(s, EndUnseen(pid, now, code)).Some?
    ensures pid in s.procs && s.procs[pid].Worker? && s.procs[pid].pc.InTx?
    ensures Attempt(s.tables, s.procs[pid].pc.tx, s.procs[pid].pc.snap, now).Committed?
  {
  }

  lemma AbandonedBegin(s: Sys, s': Sys, pid: nat, tx: Tx)
    requires Inv(s) && Abandoned(s) && Apply(s, Begin(pid, tx)) == Some(s')
    ensures Abandoned(s')
  {
    hide Inv, Persist, Validated;
    assert !Viable(s.procs[pid]);
    if tx.PersistTx? {
      UnstorableIsRefused(Cur(s), tx.analysis);
    }
    assert !Viable(s'.procs[pid]);
  }

  lemma AbandonedMessaging(s: Sys, s': Sys, step: Step)
    requires Abandoned(s) && Apply(s, step) == Some(s')
    requires step.Tick? || step.HttpBegin? || step.Select? || step.Publish? || step.Stamp? || step.Deliver?
             || step.CheckInbox? || step.CallHandler?
    ensures Abandoned(s')
  {
    hide Persist, Storable, Validated;
  }

  lemma AbandonedSettling(s: Sys, s': Sys, step: Step)
    requires Abandoned(s) && Apply(s, step) == Some(s')
    requires step.Abort? || step.RunAi? || step.Rerun? || step.RecordInbox? || step.Ack? || step.Crash?
    ensures Abandoned(s')
  {
    hide Persist, Storable;
  }

  /** No step settles an abandoned claim: the run stays claimed in drafting for good. */
  lemma AbandonedStep(s: Sys, s': Sys, step: Step)
    requires Inv(s) && Abandoned(s) && Apply(s, step) == Some(s')
    ensures Abandoned(s')
  {
    hide Inv, Abandoned, Apply;
    match step
    case HttpEnd(pid, now) => AbandonedHttpEnd(s, s', pid, now);
    case EditNow(tx) => AbandonedEdit(s, s', tx);
    case End(pid, now) => AbandonedEnd(s, s', pid, now);
    case EndUnseen(pid, now, code) =>
      UnseenCommits(s, pid, now, code);
      AbandonedAttempt(s, pid, now);
      assert false;
    case Begin(pid, tx) => AbandonedBegin(s, s', pid, tx);
    case Tick(_) => AbandonedMessaging(s, s', step);
    case HttpBegin(_, _) => AbandonedMessaging(s, s', step);
    case Select(_, _) => AbandonedMessaging(s, s', step);
    case Publish(_, _) => AbandonedMessaging(s, s', step);
    case Stamp(_) => AbandonedMessaging(s, s', step);
    case Deliver(_, _) => AbandonedMessaging(s, s', step);
    case CheckInbox(_) => AbandonedMessaging(s, s', step);
    case CallHandler(_) => AbandonedMessaging(s, s', step);
    case _ => AbandonedSettling(s, s', step);
  }

  lemma {:induction false} AbandonedStays(s: Sys, steps: seq<Step>)
    requires Inv(s) && Abandoned(s) && Perform(s, steps).Some?
    ensures Inv(Perform(s, steps).value) && Abandoned(Perform(s, steps).value)
  {
    hide Inv, Apply, Abandoned;
    if steps != [] {
      var front := steps[..|steps| - 1];
      AbandonedStays(s, front);
      AbandonedStep(Perform(s, front).value, Perform(s, steps).value, steps[|steps| - 1]);
      StepInv(Perform(s, front).value, Perform(s, steps).value, steps[|steps| - 1]);
    }
  }

  // ----- Completing a claimed drafting step -----

  /** A commit by the holder leaves drafting, one way or the other. */
  lemma PersistLeaves(t: Sys, analysis: Analysis, snap: Snapshot)
    requires Attempt(t.tables, PersistTx(analysis), snap, t.clock).Committed?
    ensures var run := Attempt(t.tables, PersistTx(analysis), snap, t.clock).tables.run;
            (run.state == ReviewPending && run.claimedAt.None?) || run.state == Failed
  {
    hide StoredAudit, ConvertUsdCents, AddEvents, ApplyAi;
  }

  lemma SettledCanComplete(s: Sys, t: Sys)
    requires CanReach(s, t) && Inv(t)
    requires (t.tables.run.state == ReviewPending && t.tables.run.claimedAt.None?) || t.tables.run.state == Failed
    ensures CanComplete(s)
  {
    hide Inv, CanReach;
    if t.tables.run.state == Failed {
      var u := SomeoneRetries(t);
      Transitive(s, t, u);
      StagesCanFinish(s, u);
    } else {
      StagesCanFinish(s, t);
    }
  }

  lemma StoredCanComplete(s: Sys, t: Sys, pid: nat, analysis: Analysis)
    requires CanReach(s, t) && Inv(t) && HeldForDrafting(t.tables.run) && !Stranded(t) && Storable(analysis)
    requires pid in t.procs && t.procs[pid].Worker? && t.procs[pid].pc.Holding? && t.procs[pid].pc.result == Some(analysis)
    ensures CanComplete(s)
  {
    hide Inv, CanReach, Attempt, Storable, Apply;
    DraftIsEditable(t);
    var t1 := PricedInDollars(s, t, pid);
    DraftIsEditable(t1);
    StorableInDollars(t1, analysis);
    PersistLeaves(t1, analysis, Cur(t1));
    var u := WorkerCanCommit(s, t1, pid, PersistTx(analysis));
    SettledCanComplete(s, u);
  }

  /** A person edits the draft, changing its currency. */
  lemma PricedInDollars(s: Sys, t: Sys, pid: nat) returns (u: Sys)
    requires CanReach(s, t) && Inv(t) && HeldForDrafting(t.tables.run) && Editable(t.tables.report).Pass?
    requires pid in t.procs
    ensures CanReach(s, u) && Inv(u) && u.tables.run == t.tables.run && pid in u.procs && u.procs[pid] == t.procs[pid]
    ensures u.tables.report.content.currency == "USD" && u.tables.report.status == t.tables.report.status
  {
    hide Inv, CanReach;
    u := Extend(s, t, EditNow(UpdateTx(Content("", None, "USD", multiset{}))));
  }

  lemma HolderCanComplete(s: Sys, pid: nat)
    requires Inv(s) && HeldForDrafting(s.tables.run) && !Stranded(s) && pid in s.procs && Viable(s.procs[pid])
    ensures CanComplete(s)
  {
    hide Inv, CanReach, Storable, CanComplete, Persist, Stranded;
    ReachesItself(s);
    match s.procs[pid].pc
    case Holding(_, claim, None) =>
      var analysis := GaveUp("");
      assert Storable(analysis) by {
        GivingUpIsStorable("");
      }
      var t := Extend(s, s, RunAi(pid, analysis));
      assert !Stranded(t) by {
        SameRowsNotStranded(s, t);
      }
      StoredCanComplete(s, t, pid, analysis);
    case Holding(_, _, Some(analysis)) => StoredCanComplete(s, s, pid, analysis);
    case InTx(_, tx, snap) => CommittingCanComplete(s, pid);
  }

  lemma GivingUpIsStorable(code: string)
    ensures Storable(GaveUp(code))
  {
  }

  lemma SameRowsNotStranded(s: Sys, t: Sys)
    requires !Stranded(s) && t.tables == s.tables
    ensures !Stranded(t)
  {
  }

  /** The holder's persist finds the run as it was loaded. */
  lemma HolderCommits(s: Sys, pid: nat)
    requires Inv(s) && pid in s.procs && Viable(s.procs[pid]) && s.procs[pid].pc.InTx?
    ensures var InTx(_, tx, snap) := s.procs[pid].pc;
            tx.PersistTx? && snap.at <= s.clock && Attempt(s.tables, tx, snap, s.clock).Committed?
  {
    hide Sound, OutboxOk, MessagesOk, AiRunsOk, Persist;
    assert ProcOk(s.procs[pid], s);
  }

  lemma CommittingCanComplete(s: Sys, pid: nat)
    requires Inv(s) && pid in s.procs && Viable(s.procs[pid]) && s.procs[pid].pc.InTx?
    ensures CanComplete(s)
  {
    var InTx(_, tx, snap) := s.procs[pid].pc;
    hide Inv, CanReach, Attempt, Viable;
    HolderCommits(s, pid);
    PersistLeaves(s, tx.analysis, snap);
    ReachesItself(s);
    var t := CanEnd(s, s, pid);
    SettledCanComplete(s, t);
  }

  /**
   A report whose drafting step is claimed can be completed exactly when it is a draft and
   some process holds the claim with no result yet, or with one that can be stored.
   */
  lemma ClaimedDraftCompletableIff(trace: seq<Sys>, steps: seq<Step>, i: nat)
    requires Execution(trace, steps) && i < |trace| && HeldForDrafting(trace[i].tables.run)
    ensures CanComplete(trace[i]) <==> !Stranded(trace[i]) && exists pid <- trace[i].procs :: Viable(trace[i].procs[pid])
  {
    var s := trace[i];
    Reachable(trace, steps, i);
    hide Execution, Inv, Apply, Viable, HeldForDrafting;
    if Abandoned(s) {
      forall u: Sys | CanReach(s, u)
        ensures u.tables.run.state != Completed
      {
        var more: seq<Step> :| Perform(s, more) == Some(u);
        AbandonedStays(s, more);
        AbandonedIsNotCompleted(u);
      }
    } else {
      var pid :| pid in s.procs && Viable(s.procs[pid]);
      if Stranded(s) {
        forall u: Sys | CanReach(s, u)
          ensures u.tables.run.state != Completed
        {
          var more: seq<Step> :| Perform(s, more) == Some(u);
          StrandedStays(s, more);
        }
      } else {
        HolderCanComplete(s, pid);
      }
    }
  }

  lemma AbandonedIsNotCompleted(s: Sys)
    requires Abandoned(s)
    ensures s.tables.run.state != Completed
  {
  }

  // ----- A claimed transcription -----

  /** A transcription request no worker has recorded as processed. */
  predicate Unrecorded(s: Sys, id: nat) {
    id in s.tables.outbox && s.tables.outbox[id].event.state == TranscriptionPending && id !in s.inbox
  }

  /** `t` continues `s`, its transcription is claimed, and `pid` is a transcription worker at `pc`. */
  ghost predicate Transcriber(s: Sys, t: Sys, pid: nat, pc: Pc) {
    && CanReach(s, t) && Inv(t) && t.tables.run.state == TranscriptionPending && t.tables.run.claimedAt.Some?
    && pid in t.procs && t.procs[pid].Worker? && t.procs[pid].event.state == TranscriptionPending && t.procs[pid].pc == pc
  }

  lemma TranscribingCanComplete(s: Sys, t: Sys, pid: nat, attempt: nat)
    requires Transcriber(s, t, pid, Transcribing(attempt))
    ensures CanComplete(s)
  {
    hide CanReach, Inv;
    var u := TranscribingCanFinish(s, t, pid);
    StagesCanFinish(s, u);
  }

  lemma FailureCommits(t: Sys, code: string)
    requires Inv(t) && t.tables.run.state == TranscriptionPending
    ensures var r := Attempt(t.tables, FailAudioTx(code, t.clock), Cur(t), t.clock);
            && r.Committed? && r.tables.run.claimedAt.None?
            && (r.tables.run.state == TranscriptionPending || r.tables.run.state == ManualInputRequired)
  {
    hide OutboxOk, MessagesOk, ProcsOk, AiRunsOk, ConfirmedOk, SigningOk, AddEvents, Pow2;
  }

  /** A recorded failure releases the claim, for a retry by a worker or by a person. */
  lemma ReleasedCanComplete(s: Sys, t: Sys)
    requires CanReach(s, t) && Inv(t) && t.tables.run.claimedAt.None?
    requires t.tables.run.state == TranscriptionPending || t.tables.run.state == ManualInputRequired
    ensures CanComplete(s)
  {
    hide CanReach, Inv;
    if t.tables.run.state == TranscriptionPending {
      StagesCanFinish(s, t);
    } else {
      var u := SomeoneRetries(t);
      Transitive(s, t, u);
      StagesCanFinish(s, u);
    }
  }

  lemma FailingCanComplete(s: Sys, t: Sys, pid: nat, attempt: nat, code: string)
    requires Transcriber(s, t, pid, Failing(attempt, code))
    ensures CanComplete(s)
  {
    hide CanReach, Inv, Attempt;
    FailureCommits(t, code);
    var u := WorkerCanCommit(s, t, pid, FailAudioTx(code, t.clock));
    ReleasedCanComplete(s, u);
  }

  lemma ClaimCommits(t: Sys, at: Time)
    requires Inv(t) && t.tables.run.state == TranscriptionPending && Claimable(t.tables.run, at)
    ensures var r := Attempt(t.tables, ClaimAudioTx(at), Cur(t), t.clock);
            r.Committed? && r.tables.run.state == TranscriptionPending && r.tables.run.claimedAt.Some?
  {
    hide OutboxOk, MessagesOk, ProcsOk, AiRunsOk, ConfirmedOk, SigningOk, AddEvents;
  }

  lemma ActiveCanClaim(s: Sys, t: Sys, pid: nat, attempt: nat, startedAt: Time)
    requires Transcriber(s, t, pid, Active(attempt, startedAt)) && Claimable(t.tables.run, startedAt)
    ensures CanComplete(s)
  {
    hide CanReach, Inv, Attempt, Claimable;
    ClaimCommits(t, startedAt);
    var u := WorkerCanCommit(s, t, pid, ClaimAudioTx(startedAt));
    var u' := TranscribingCanFinish(s, u, pid);
    StagesCanFinish(s, u');
  }

  /** A worker about to call the handler waits for the lease to expire, and takes the claim over. */
  lemma CallingCanComplete(s: Sys, t: Sys, pid: nat, attempt: nat)
    requires Transcriber(s, t, pid, Calling(attempt))
    ensures CanComplete(s)
  {
    hide CanReach, Inv, Attempt;
    ReachesItself(t);
    var retry := t.tables.run.nextRetryAt;
    var expiry := t.tables.run.claimedAt.value + CLAIM_LEASE_SECONDS * SECOND;
    var u := CanBeCalled(t, t, pid, attempt, t.procs[pid].event,
                         if retry.Some? && retry.value > expiry then retry.value else expiry);
    Transitive(s, t, u);
    assert Claimable(u.tables.run, u.clock);
    ActiveCanClaim(s, u, pid, attempt, u.clock);
  }

  lemma RaisingCanComplete(s: Sys, t: Sys, pid: nat, attempt: nat)
    requires Transcriber(s, t, pid, Raising(attempt)) && Retries(attempt)
    ensures CanComplete(s)
  {
    hide CanReach, Inv;
    var u := Extend(s, t, Rerun(pid));
    CallingCanComplete(s, u, pid, attempt + 1);
  }

  /** An external failure takes the worker to the next call, or to recording the failure. */
  lemma AbortingCanComplete(s: Sys, t: Sys, pid: nat)
    requires pid in t.procs && t.procs[pid].Worker? && Transcriber(s, t, pid, t.procs[pid].pc)
    requires Aborted(t.procs[pid].pc, "", false).Some?
    requires var pc := Aborted(t.procs[pid].pc, "", false).value; pc.Failing? || (pc.Raising? && Retries(pc.attempt))
    ensures CanComplete(s)
  {
    hide CanReach, Inv;
    var u := Extend(s, t, Abort(pid, "", false));
    match u.procs[pid].pc
    case Failing(attempt, code) => FailingCanComplete(s, u, pid, attempt, code);
    case Raising(attempt) => RaisingCanComplete(s, u, pid, attempt);
  }

  /** A claim or failure that was loaded at the current version goes through. */
  lemma LoadedCommits(t: Sys, pid: nat)
    requires Inv(t) && pid in t.procs && t.procs[pid].Worker? && t.procs[pid].pc.InTx?
    requires t.tables.run.state == TranscriptionPending && t.tables.run.claimedAt.Some?
    requires t.procs[pid].pc.snap.run.stateVersion == t.tables.run.stateVersion
    requires var tx := t.procs[pid].pc.tx; tx.FailAudioTx? || (tx.ClaimAudioTx? && Claimable(t.tables.run, tx.now))
    ensures var InTx(_, tx, snap) := t.procs[pid].pc;
            var r := Attempt(t.tables, tx, snap, t.clock);
            && snap.at <= t.clock && r.Committed?
            && (tx.ClaimAudioTx? ==> r.tables.run.state == TranscriptionPending && r.tables.run.claimedAt.Some?)
            && (tx.FailAudioTx? ==>
                  && r.tables.run.claimedAt.None?
                  && (r.tables.run.state == TranscriptionPending || r.tables.run.state == ManualInputRequired))
  {
    hide OutboxOk, MessagesOk, AiRunsOk, ConfirmedOk, SigningOk, AddEvents, Pow2;
    assert ProcOk(t.procs[pid], t);
  }

  lemma LoadedCanComplete(s: Sys, t: Sys, pid: nat)
    requires pid in t.procs && t.procs[pid].Worker? && t.procs[pid].pc.InTx? && Transcriber(s, t, pid, t.procs[pid].pc)
    requires t.procs[pid].pc.snap.run.stateVersion == t.tables.run.stateVersion
    requires var tx := t.procs[pid].pc.tx; tx.FailAudioTx? || (tx.ClaimAudioTx? && Claimable(t.tables.run, tx.now))
    ensures CanComplete(s)
  {
    hide CanReach, Inv, Attempt, Claimable;
    LoadedCommits(t, pid);
    var u := CanEnd(s, t, pid);
    if t.procs[pid].pc.tx.ClaimAudioTx? {
      var u' := TranscribingCanFinish(s, u, pid);
      StagesCanFinish(s, u');
    } else {
      ReleasedCanComplete(s, u);
    }
  }

  lemma OpenIsTranscription(s: Sys, pid: nat)
    requires Inv(s) && pid in s.procs && s.procs[pid].Worker? && s.procs[pid].pc.InTx?
    requires s.procs[pid].event.state == TranscriptionPending
    ensures Serves(TranscriptionPending, s.procs[pid].pc.tx)
  {
    hide Sound, OutboxOk, MessagesOk, AiRunsOk;
    assert ProcOk(s.procs[pid], s);
  }

  lemma SettlerCanComplete(s: Sys, pid: nat)
    requires Inv(s) && s.tables.run.state == TranscriptionPending && s.tables.run.claimedAt.Some?
    requires pid in s.procs && CanSettle(s.procs[pid], s.tables.run)
    ensures CanComplete(s)
  {
    hide CanReach, Inv, CanComplete, Claimable;
    ReachesItself(s);
    match s.procs[pid].pc
    case Calling(attempt) => CallingCanComplete(s, s, pid, attempt);
    case Transcribing(attempt) => TranscribingCanComplete(s, s, pid, attempt);
    case Failing(attempt, code) => FailingCanComplete(s, s, pid, attempt, code);
    case Raising(attempt) => RaisingCanComplete(s, s, pid, attempt);
    case Active(attempt, startedAt) =>
      if Claimable(s.tables.run, startedAt) {
        ActiveCanClaim(s, s, pid, attempt, startedAt);
      } else {
        AbortingCanComplete(s, s, pid);
      }
    case InTx(attempt, tx, snap) =>
      OpenIsTranscription(s, pid);
      if Retries(attempt) || tx.CompleteAudioTx? || tx.HeartbeatTx? {
        AbortingCanComplete(s, s, pid);
      } else {
        LoadedCanComplete(s, s, pid);
      }
  }

  lemma UnrecordedCanComplete(s: Sys, id: nat)
    requires Inv(s) && s.tables.run.state == TranscriptionPending && s.tables.run.claimedAt.Some?
    requires Unrecorded(s, id)
    ensures CanComplete(s)
  {
    hide Inv, CanReach;
    var t, pid := CanBeDelivered(s, id);
    CallingCanComplete(s, t, pid, 0);
  }

  lemma {:induction false} SilentStays(s: Sys, steps: seq<Step>)
    requires Inv(s) && Silent(s) && Perform(s, steps).Some?
    ensures Inv(Perform(s, steps).value) && Silent(Perform(s, steps).value)
  {
    hide Inv, Apply, Silent;
    if steps != [] {
      var front := steps[..|steps| - 1];
      SilentStays(s, front);
      SilentStep(Perform(s, front).value, Perform(s, steps).value, steps[|steps| - 1]);
      StepInv(Perform(s, front).value, Perform(s, steps).value, steps[|steps| - 1]);
    }
  }

  /**
   A report whose transcription is claimed can be completed exactly when one of its requests
   has not been recorded as processed, or some worker can still settle the claim or take it
   over; waiting for the lease does not help otherwise.
   */
  lemma ClaimedTranscriptionCompletableIff(trace: seq<Sys>, steps: seq<Step>, i: nat)
    requires Execution(trace, steps) && i < |trace|
    requires trace[i].tables.run.state == TranscriptionPending && trace[i].tables.run.claimedAt.Some?
    ensures CanComplete(trace[i]) <==>
            || (exists id <- trace[i].tables.outbox :: Unrecorded(trace[i], id))
            || (exists pid <- trace[i].procs :: CanSettle(trace[i].procs[pid], trace[i].tables.run))
  {
    var s := trace[i];
    Reachable(trace, steps, i);
    hide Execution, Inv, Apply, CanSettle;
    if id :| id in s.tables.outbox && Unrecorded(s, id) {
      UnrecordedCanComplete(s, id);
    } else if pid :| pid in s.procs && CanSettle(s.procs[pid], s.tables.run) {
      SettlerCanComplete(s, pid);
    } else {
      assert Silent(s);
      forall u: Sys | CanReach(s, u)
        ensures u.tables.run.state != Completed
      {
        var more: seq<Step> :| Perform(s, more) == Some(u);
        SilentStays(s, more);
      }
    }
  }
}
