/**
 The system can always go on: whatever has crashed or been duplicated so far, a run that
 needs a worker can still be served, and a new report can be carried to completion.
 */
module Progress {
  import opened Wrappers
  import opened States
  import opened WorkflowRuns
  import opened Reports
  import opened Transactions
  import opened RowInvariants
  import opened Protocol
  import opened SystemInvariant
  import opened VisualAudits
  import opened Limits

  /** How long a delivered entry stays with its consumer before another one may take it over. */
  const REDELIVERY: Time := 120 * SECOND

  /** Taking several steps in turn. */
  function Perform(s: Sys, steps: seq<Step>): Option<Sys> {
    if steps == [] then Some(s)
    else
      match Perform(s, steps[..|steps| - 1])
      case Some(t) => Apply(t, steps[|steps| - 1])
      case None => None
  }

  ghost predicate CanReach(s: Sys, t: Sys) {
    exists steps: seq<Step> :: Perform(s, steps) == Some(t)
  }

  lemma ReachesItself(s: Sys)
    ensures CanReach(s, s)
  {
    assert Perform(s, []) == Some(s);
  }

  lemma Extend(s: Sys, t: Sys, step: Step) returns (u: Sys)
    requires CanReach(s, t) && Inv(t) && Apply(t, step).Some?
    ensures Apply(t, step) == Some(u) && CanReach(s, u) && Inv(u)
  {
    hide Inv, Apply;
    u := Apply(t, step).value;
    var steps: seq<Step> :| Perform(s, steps) == Some(t);
    assert (steps + [step])[..|steps|] == steps;
    assert Perform(s, steps + [step]) == Some(u);
    StepInv(t, u, step);
  }

  lemma {:induction false} FreshKey(keys: set<nat>) returns (fresher: nat)
    ensures forall k <- keys :: k < fresher
    decreases |keys|
  {
    assert (forall k <- keys :: false) ==> keys == {};
    if keys == {} {
      fresher := 0;
    } else {
      var k :| k in keys;
      var below := FreshKey(keys - {k});
      fresher := if k < below then below else k + 1;
      assert keys == keys - {k} + {k};
    }
  }

  /** `t` continues `s` with the same rows, and worker `pid` is at `pc` with `event`. */
  ghost predicate Serving(s: Sys, t: Sys, pid: nat, pc: Pc, event: DispatchEvent) {
    && CanReach(s, t) && Inv(t)
    && t.tables.run == s.tables.run && t.tables.report == s.tables.report && t.confirmations == s.confirmations
    && pid in t.procs && t.procs[pid].Worker? && t.procs[pid].pc == pc && t.procs[pid].event == event
  }

  /** An entry of the event is on its stream and unacknowledged. */
  predicate Waiting(t: Sys, entry: nat, id: nat) {
    entry in t.stream && t.stream[entry].event == id && !t.stream[entry].acked
  }

  /** An unrecorded event is on its stream, or unstamped so that the publisher will still send it. */
  lemma CanBeSent(s: Sys, id: nat) returns (t: Sys, entry: nat)
    requires Inv(s) && id in s.tables.outbox && id !in s.inbox
    ensures CanReach(s, t) && Inv(t) && Waiting(t, entry, id)
    ensures t.tables == s.tables && t.inbox == s.inbox && t.confirmations == s.confirmations
  {
    hide ProcsOk, AiRunsOk, Sound, OutboxOk, CanReach;
    ReachesItself(s);
    if s.tables.outbox[id].published {
      assert OnStream(s, id);
      t := s;
      entry :| entry in s.stream && s.stream[entry].event == id;
    } else {
      var pid := FreshKey(s.procs.Keys);
      entry := FreshKey(s.stream.Keys);
      var s1 := Extend(s, s, Select(pid, id));
      t := Extend(s, s1, Publish(pid, entry));
    }
  }

  /** After the idle time the waiting entry is delivered to a worker that does not find its event in the inbox. */
  lemma CanBeDelivered(s: Sys, id: nat) returns (t: Sys, pid: nat)
    requires Inv(s) && id in s.tables.outbox && id !in s.inbox
    ensures Serving(s, t, pid, Calling(0), s.tables.outbox[id].event)
  {
    hide ProcsOk, AiRunsOk, Sound, CanReach;
    var s1, entry := CanBeSent(s, id);
    pid := FreshKey(s1.procs.Keys);
    var s2 := Extend(s, s1, Tick(REDELIVERY));
    var s3 := Extend(s, s2, Deliver(pid, entry));
    t := Extend(s, s3, CheckInbox(pid));
  }

  /** Wait as long as necessary, and enter the dispatcher. */
  lemma CanBeCalled(s: Sys, t: Sys, pid: nat, attempt: nat, event: DispatchEvent, earliest: Time) returns (u: Sys)
    requires Serving(s, t, pid, Calling(attempt), event)
    requires event.state == s.tables.run.state
    ensures Serving(s, u, pid, Active(attempt, u.clock), event)
    ensures earliest <= u.clock && Due(event, u.clock)
  {
    hide Inv, CanReach;
    var due := if event.notBefore.Some? && event.notBefore.value > earliest then event.notBefore.value else earliest;
    var wait: nat := if due > t.clock then due - t.clock else 0;
    var t1 := Extend(s, t, Tick(wait));
    u := Extend(s, t1, CallHandler(pid));
  }

  /** A loaded transaction whose commit would go through can commit. */
  lemma CanEnd(s: Sys, t: Sys, pid: nat) returns (u: Sys)
    requires CanReach(s, t) && Inv(t) && pid in t.procs && t.procs[pid].Worker? && t.procs[pid].pc.InTx?
    requires var InTx(_, tx, snap) := t.procs[pid].pc;
             !tx.ConfirmTx? && snap.at <= t.clock && Attempt(t.tables, tx, snap, t.clock).Committed?
    ensures CanReach(s, u) && Inv(u) && u.confirmations == t.confirmations
    ensures var InTx(attempt, tx, snap) := t.procs[pid].pc;
            var r := Attempt(t.tables, tx, snap, t.clock);
            u.tables == r.tables && u.procs == t.procs[pid := t.procs[pid].(pc := Continue(tx, attempt, r))]
  {
    hide Inv, CanReach, Attempt, Continue;
    u := Extend(s, t, End(pid, t.clock));
  }

  lemma CanLoad(s: Sys, t: Sys, pid: nat, tx: Tx) returns (u: Sys)
    requires CanReach(s, t) && Inv(t) && pid in t.procs && t.procs[pid].Worker? && MayBegin(t.procs[pid], tx, t.clock)
    requires Validated(tx)
    ensures CanReach(s, u) && Inv(u) && !tx.ConfirmTx?
    ensures u == Move(t, pid, InTx(t.procs[pid].pc.attempt, tx, Cur(t)))
  {
    hide Inv, CanReach, Validated;
    u := Extend(s, t, Begin(pid, tx));
  }

  /** A worker that may begin a transaction can load and commit it without anybody in between. */
  lemma WorkerCanCommit(s: Sys, t: Sys, pid: nat, tx: Tx) returns (u: Sys)
    requires CanReach(s, t) && Inv(t) && pid in t.procs && t.procs[pid].Worker? && MayBegin(t.procs[pid], tx, t.clock)
    requires Validated(tx) && Attempt(t.tables, tx, Cur(t), t.clock).Committed?
    ensures CanReach(s, u) && Inv(u) && u.confirmations == t.confirmations
    ensures u.tables == Attempt(t.tables, tx, Cur(t), t.clock).tables
    ensures pid in u.procs && u.procs[pid].Worker?
            && u.procs[pid].pc == Continue(tx, t.procs[pid].pc.attempt, Attempt(t.tables, tx, Cur(t), t.clock))
  {
    hide Inv, CanReach, Attempt, Continue, MayBegin, Validated;
    var t1 := CanLoad(s, t, pid, tx);
    u := CanEnd(s, t1, pid);
  }

  lemma PersonCanCommit(s: Sys, t: Sys, tx: Tx) returns (u: Sys)
    requires CanReach(s, t) && Inv(t)
    requires ByPerson(tx) && Validated(tx) && !tx.ConfirmTx? && !tx.UpdateTx?
    requires Attempt(t.tables, tx, Cur(t), t.clock).Committed?
    ensures CanReach(s, u) && Inv(u)
    ensures u.tables == Attempt(t.tables, tx, Cur(t), t.clock).tables && u.confirmations == t.confirmations
  {
    hide Inv, CanReach, Attempt, Validated;
    var pid := FreshKey(t.procs.Keys);
    var t1 := Extend(s, t, HttpBegin(pid, tx));
    u := Extend(s, t1, HttpEnd(pid, t1.clock));
  }

  /** What serving an unclaimed run amounts to: a held claim, or for the PDF stage completion. */
  predicate Served(before: Tables, u: Sys, pid: nat) {
    pid in u.procs && u.procs[pid].Worker? &&
    (before.run.state != PdfPending ==> u.tables.report == before.report && u.tables.run.claimedAt.Some?) &&
    match before.run.state
    case DraftingPending => u.tables.run.state == DraftingPending && u.procs[pid].pc == Holding(0, u.tables.run.stateVersion, None)
    case TranscriptionPending => u.tables.run.state == TranscriptionPending && u.procs[pid].pc == Transcribing(0)
    case PdfPending => u.tables.run.state == Completed && |u.tables.pdfs| > 0
    case _ => false
  }

  lemma CommitsWhatAwaits(t: Sys, pid: nat) returns (tx: Tx)
    requires Inv(t) && Awaiting(t.tables.run)
    requires pid in t.procs && t.procs[pid].Worker? && t.procs[pid].pc == Active(0, t.clock)
    requires t.procs[pid].event.state == t.tables.run.state
    requires t.tables.run.nextRetryAt.Some? ==> t.tables.run.nextRetryAt.value <= t.clock
    ensures MayBegin(t.procs[pid], tx, t.clock) && Validated(tx)
    ensures var r := Attempt(t.tables, tx, Cur(t), t.clock);
            && r.Committed?
            && (t.tables.run.state != PdfPending ==> r.tables.report == t.tables.report)
            && (t.tables.run.state == DraftingPending ==> tx.ClaimDraftTx? && HeldForDrafting(r.tables.run))
            && (t.tables.run.state == TranscriptionPending ==>
                  tx.ClaimAudioTx? && r.tables.run.state == TranscriptionPending && r.tables.run.claimedAt.Some?)
            && (t.tables.run.state == PdfPending ==>
                  tx.GenerateTx? && r.tables.run.state == Completed && |r.tables.pdfs| > 0)
  {
    hide OutboxOk, MessagesOk, ProcsOk, AiRunsOk, ConfirmedOk, AddEvents;
    if t.tables.run.state == DraftingPending {
      tx := ClaimDraftTx;
    } else if t.tables.run.state == TranscriptionPending {
      tx := ClaimAudioTx(t.clock);
    } else {
      tx := GenerateTx(0);
    }
  }

  /** The latest entry's event is unrecorded and fits the run. */
  lemma WakeUpFits(s: Sys)
    requires Inv(s) && Awaiting(s.tables.run)
    ensures var id := s.tables.run.stateVersion;
            && id in s.tables.outbox && id !in s.inbox
            && s.tables.outbox[id].event.state == s.tables.run.state
            && s.tables.outbox[id].event.notBefore == s.tables.run.nextRetryAt
  {
    hide Sound, ProcsOk, AiRunsOk;
  }

  /**
   No lost wake-up, operationally: from every reachable state in which a run needs a worker and
   is unclaimed, some continuation serves it, whatever the other processes have done or left undone.
   */
  lemma AwaitingRunCanBeServed(trace: seq<Sys>, steps: seq<Step>, i: nat) returns (u: Sys, pid: nat)
    requires Execution(trace, steps) && i < |trace| && Awaiting(trace[i].tables.run)
    ensures CanReach(trace[i], u) && Served(trace[i].tables, u, pid)
  {
    Reachable(trace, steps, i);
    u, pid := CanBeServed(trace[i]);
  }

  lemma CanBeServed(s: Sys) returns (u: Sys, pid: nat)
    requires Inv(s) && Awaiting(s.tables.run)
    ensures CanReach(s, u) && Inv(u) && Served(s.tables, u, pid) && u.confirmations == s.confirmations
  {
    hide Inv, CanReach, Attempt, Validated, MayBegin;
    WakeUpFits(s);
    var event := s.tables.outbox[s.tables.run.stateVersion].event;
    var t0, p := CanBeDelivered(s, s.tables.run.stateVersion);
    var t := CanBeCalled(s, t0, p, 0, event, t0.clock);
    var tx := CommitsWhatAwaits(t, p);
    u := WorkerCanCommit(s, t, p, tx);
    pid := p;
  }

  // ----- Completion -----

  /** Nobody holds a claim; a failed run keeps the mark of its last one. */
  predicate Unclaimed(run: RunRow) {
    run.claimedAt.None? || run.state == Failed
  }

  /** `u` continues `s` and is unclaimed in `state`. */
  ghost predicate Arrived(s: Sys, u: Sys, state: WorkflowState) {
    CanReach(s, u) && Inv(u) && u.tables.run.state == state && u.tables.run.claimedAt.None?
  }

  lemma SomeoneRetries(s: Sys) returns (u: Sys)
    requires Inv(s) && (s.tables.run.state == ManualInputRequired || s.tables.run.state == Failed)
    ensures CanReach(s, u) && Inv(u) && !Stranded(u)
    ensures Awaiting(u.tables.run) && u.tables.run.claimedAt.None?
  {
    ReachesItself(s);
    assert Attempt(s.tables, RetryTx, Cur(s), s.clock).Committed? by {
      hide OutboxOk, MessagesOk, ProcsOk, AiRunsOk, SigningOk, ConfirmedOk, AddEvents, CanReach;
    }
    hide Inv, CanReach;
    u := PersonCanCommit(s, s, RetryTx);
  }

  const TRANSCRIPT: string := "This is a transcript"

  lemma TranscriptCommits(t: Sys)
    requires Inv(t) && t.tables.run.state == TranscriptionPending && t.tables.run.claimedAt.Some?
    ensures var r := Attempt(t.tables, CompleteAudioTx(TRANSCRIPT), Cur(t), t.clock);
            && r.Committed? && r.tables.report.status == Draft
            && r.tables.run.state == DraftingPending && r.tables.run.claimedAt.None?
  {
    hide OutboxOk, MessagesOk, ProcsOk, AiRunsOk, ConfirmedOk, SigningOk, AddEvents;
  }

  lemma TranscribingCanFinish(s: Sys, t: Sys, pid: nat) returns (u: Sys)
    requires CanReach(s, t) && Inv(t) && t.tables.run.state == TranscriptionPending && t.tables.run.claimedAt.Some?
    requires pid in t.procs && t.procs[pid].Worker? && t.procs[pid].pc.Transcribing?
    ensures Arrived(s, u, DraftingPending) && !Stranded(u)
  {
    hide CanReach, Inv, Attempt, Apply, Continue;
    TranscriptCommits(t);
    u := WorkerCanCommit(s, t, pid, CompleteAudioTx(TRANSCRIPT));
  }

  lemma TranscriptionCanFinish(s: Sys, t: Sys) returns (u: Sys)
    requires Arrived(s, t, TranscriptionPending)
    ensures Arrived(s, u, DraftingPending) && !Stranded(u)
  {
    hide CanReach, Inv;
    var t1, pid := CanBeServed(t);
    Transitive(s, t, t1);
    u := TranscribingCanFinish(s, t1, pid);
  }

  /** A drafted result without a suggested amount, which every currency accepts. */
  function PlainAnalysis(): Analysis {
    Analysed(DraftedReport("x", multiset{}, None, "low"), "", [PhotoPair(0, 0)], 1.0)
  }

  lemma PlainAnalysisPersists(t: Sys)
    requires t.tables.run.state == DraftingPending && Editable(t.tables.report).Pass?
    ensures var r := Attempt(t.tables, PersistTx(PlainAnalysis()), Cur(t), t.clock);
            && r.Committed? && r.tables.run.state == ReviewPending && r.tables.run.claimedAt.None?
            && r.tables.report.content.work == "x" && r.tables.report.confirmedAt == t.tables.report.confirmedAt
  {
    assert !Blank("x") by {
      assert "x"[0] == 'x' && 'x' in "x" && !IsSpace('x');
    }
  }

  lemma DraftIsEditable(t: Sys)
    requires Inv(t) && t.tables.run.state == DraftingPending && !Stranded(t)
    ensures Editable(t.tables.report).Pass?
  {
    hide OutboxOk, MessagesOk, ProcsOk, AiRunsOk, ConfirmedOk, InputOk;
  }

  lemma AiCanRun(s: Sys, t: Sys, pid: nat, claim: nat, analysis: Analysis) returns (u: Sys)
    requires CanReach(s, t) && Inv(t) && pid in t.procs && t.procs[pid].Worker? && t.procs[pid].pc == Holding(0, claim, None)
    ensures CanReach(s, u) && Inv(u) && u.tables == t.tables && u.confirmations == t.confirmations
    ensures pid in u.procs && u.procs[pid].Worker? && MayBegin(u.procs[pid], PersistTx(analysis), u.clock)
  {
    hide CanReach, Inv;
    u := Extend(s, t, RunAi(pid, analysis));
  }

  lemma DraftCanBeHeld(s: Sys, t: Sys) returns (u: Sys, pid: nat)
    requires Arrived(s, t, DraftingPending) && !Stranded(t)
    ensures CanReach(s, u) && Inv(u) && u.tables.run.state == DraftingPending && Editable(u.tables.report).Pass?
    ensures u.tables.report == t.tables.report && u.confirmations == t.confirmations
    ensures pid in u.procs && u.procs[pid].Worker? && u.procs[pid].pc == Holding(0, u.tables.run.stateVersion, None)
  {
    hide CanReach, Inv, Editable, Apply;
    DraftIsEditable(t);
    u, pid := CanBeServed(t);
    Transitive(s, t, u);
  }

  lemma DraftingCanFinish(s: Sys, t: Sys) returns (u: Sys)
    requires Arrived(s, t, DraftingPending) && !Stranded(t)
    ensures Arrived(s, u, ReviewPending)
    ensures u.tables.report.content.work == "x" && u.tables.report.confirmedAt == t.tables.report.confirmedAt
    ensures u.confirmations == t.confirmations
  {
    hide CanReach, Inv, Attempt, PlainAnalysis, Editable, Apply, MayBegin, Continue;
    var t1, pid := DraftCanBeHeld(s, t);
    var t2 := AiCanRun(s, t1, pid, t1.tables.run.stateVersion, PlainAnalysis());
    PlainAnalysisPersists(t2);
    u := WorkerCanCommit(s, t2, pid, PersistTx(PlainAnalysis()));
  }

  lemma ReviewCanFinish(s: Sys, t: Sys) returns (u: Sys)
    requires Arrived(s, t, ReviewPending)
    ensures Arrived(s, u, SignaturePending)
  {
    hide CanReach, OutboxOk, MessagesOk, ProcsOk, AiRunsOk, ConfirmedOk, InputOk, AddEvents;
    var t1 := Extend(s, t, EditNow(ConfirmTx));
    u := PersonCanCommit(s, t1, ReadyTx);
  }

  lemma SigningCanFinish(s: Sys, t: Sys) returns (u: Sys)
    requires Arrived(s, t, SignaturePending)
    ensures Arrived(s, u, PdfPending)
  {
    hide CanReach, OutboxOk, MessagesOk, ProcsOk, AiRunsOk, ConfirmedOk, InputOk, AddEvents;
    u := PersonCanCommit(s, t, SignTx("", 0, 0));
  }

  lemma Transitive(s: Sys, t: Sys, u: Sys)
    requires CanReach(s, t) && CanReach(t, u)
    ensures CanReach(s, u)
  {
    hide Apply;
    var first: seq<Step> :| Perform(s, first) == Some(t);
    var second: seq<Step> :| Perform(t, second) == Some(u);
    Concatenate(s, t, first, second);
  }

  lemma {:induction false} Concatenate(s: Sys, t: Sys, first: seq<Step>, second: seq<Step>)
    requires Perform(s, first) == Some(t)
    ensures Perform(s, first + second) == Perform(t, second)
  {
    hide Apply;
    if second == [] {
      assert first + second == first;
    } else {
      var front := second[..|second| - 1];
      Concatenate(s, t, first, front);
      assert (first + second)[..|first + second| - 1] == first + front;
    }
  }

  ghost predicate CanComplete(s: Sys) {
    exists u: Sys :: CanReach(s, u) && u.tables.run.state == Completed
  }

  lemma StagesCanFinish(s: Sys, t: Sys)
    requires CanReach(s, t) && Inv(t) && t.tables.run.claimedAt.None? && !Stranded(t)
    requires t.tables.run.state != ManualInputRequired && t.tables.run.state != Failed
    ensures CanComplete(s)
  {
    hide Inv, CanReach;
    var u := t;
    if u.tables.run.state == TranscriptionPending {
      u := TranscriptionCanFinish(s, u);
    }
    if u.tables.run.state == DraftingPending {
      u := DraftingCanFinish(s, u);
    }
    if u.tables.run.state == ReviewPending {
      u := ReviewCanFinish(s, u);
    }
    if u.tables.run.state == SignaturePending {
      u := SigningCanFinish(s, u);
    }
    if u.tables.run.state == PdfPending {
      assert Awaiting(u.tables.run);
      var done, pid := CanBeServed(u);
      Transitive(s, u, done);
      u := done;
    }
    NeverInBetween(u);
  }

  /** Two states are never stored: evidence is collected before a run exists, and finalization passes within a commit. */
  lemma NeverInBetween(s: Sys)
    requires Inv(s)
    ensures s.tables.run.state != CollectingEvidence && s.tables.run.state != FinalizationPending
  {
    hide OutboxOk, MessagesOk, ProcsOk, AiRunsOk;
  }

  lemma {:induction false} StrandedStays(s: Sys, steps: seq<Step>)
    requires Inv(s) && Stranded(s) && Perform(s, steps).Some?
    ensures Inv(Perform(s, steps).value) && Stranded(Perform(s, steps).value)
  {
    hide Inv, Apply, Stranded;
    if steps != [] {
      var front := steps[..|steps| - 1];
      StrandedStays(s, front);
      StrandedStep(Perform(s, front).value, Perform(s, steps).value, steps[|steps| - 1]);
      StepInv(Perform(s, front).value, Perform(s, steps).value, steps[|steps| - 1]);
    }
  }

  /**
   From every reachable state in which nobody holds a claim, some continuation completes the
   report, exactly when it is not a signed report sent back to drafting.
   */
  lemma CompletableIffNotStranded(trace: seq<Sys>, steps: seq<Step>, i: nat)
    requires Execution(trace, steps) && i < |trace| && Unclaimed(trace[i].tables.run)
    ensures CanComplete(trace[i]) <==> !Stranded(trace[i])
  {
    var s := trace[i];
    Reachable(trace, steps, i);
    hide Execution, Inv, Apply;
    ReachesItself(s);
    if Stranded(s) {
      forall u: Sys | CanReach(s, u)
        ensures u.tables.run.state != Completed
      {
        var more: seq<Step> :| Perform(s, more) == Some(u);
        StrandedStays(s, more);
      }
    } else if s.tables.run.state == ManualInputRequired || s.tables.run.state == Failed {
      var t := SomeoneRetries(s);
      StagesCanFinish(s, t);
    } else {
      StagesCanFinish(s, s);
    }
  }
}
