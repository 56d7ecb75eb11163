/**
 Executions that end in the states the limits are about: each of them can be reached from a
 newly created report by steps the processes really take.
 */
module Witnesses {
  import opened Wrappers
  import opened States
  import opened WorkflowRuns
  import opened Reports
  import opened VisualAudits
  import opened Transactions
  import opened RowInvariants
  import opened Protocol
  import opened SystemInvariant
  import opened History
  import opened Safety
  import opened Limits
  import opened Progress
  import opened Recovery

  ghost predicate ReachableState(s: Sys) {
    exists trace: seq<Sys>, steps: seq<Step> :: Execution(trace, steps) && trace[|trace| - 1] == s
  }

  lemma InitReachable(s: Sys)
    requires Init(s)
    ensures ReachableState(s)
  {
    assert Execution([s], []);
    assert [s][|[s]| - 1] == s;
  }

  lemma Then(s: Sys, step: Step) returns (s': Sys)
    requires ReachableState(s) && Apply(s, step).Some?
    ensures Some(s') == Apply(s, step) && ReachableState(s')
  {
    hide Apply, Init;
    s' := Apply(s, step).value;
    var trace: seq<Sys>, steps: seq<Step> :| Execution(trace, steps) && trace[|trace| - 1] == s;
    var longer, more := trace + [s'], steps + [step];
    forall i | 0 <= i < |more|
      ensures Apply(longer[i], more[i]) == Some(longer[i + 1])
    {
      if i < |steps| {
        assert longer[i] == trace[i] && longer[i + 1] == trace[i + 1];
        assert Apply(trace[i], steps[i]) == Some(trace[i + 1]);
      }
    }
    assert Execution(longer, more);
    assert longer[|longer| - 1] == s';
  }

  lemma {:induction false} Continued(s: Sys, steps: seq<Step>)
    requires ReachableState(s) && Perform(s, steps).Some?
    ensures ReachableState(Perform(s, steps).value)
  {
    hide Apply, ReachableState;
    if steps != [] {
      Continued(s, steps[..|steps| - 1]);
      var u := Then(Perform(s, steps[..|steps| - 1]).value, steps[|steps| - 1]);
    }
  }

  /** Whatever a reachable state can reach is reachable. */
  lemma ReachedIsReachable(s: Sys, t: Sys)
    requires ReachableState(s) && CanReach(s, t)
    ensures ReachableState(t)
  {
    hide ReachableState, Apply;
    var steps: seq<Step> :| Perform(s, steps) == Some(t);
    Continued(s, steps);
  }

  // ----- From typed notes -----

  const NOTES: string := "Twenty characters of notes"

  /** A report created from notes: drafting, unclaimed, nothing sent yet. */
  lemma NewReport() returns (s: Sys)
    ensures ReachableState(s) && Arrived(s, s, DraftingPending) && !Stranded(s)
    ensures s.tables.report == NewDraft("USD") && s.procs == map[] && s.confirmations == Confirmations(false, {})
  {
    hide ReachableState, CanReach;
    var t := Created(Notes(NOTES), "USD");
    s := Sys(t, 0, map[], {}, map[], t.run, [], Confirmations(false, {}), []);
    assert InitWith(s, Notes(NOTES), "USD");
    InitReachable(s);
    InitInv(s);
    ReachesItself(s);
  }

  lemma SignedReport() returns (s: Sys)
    ensures ReachableState(s) && Arrived(s, s, PdfPending)
  {
    hide ReachableState, CanReach, Inv;
    var s0 := NewReport();
    var s1 := DraftingCanFinish(s0, s0);
    var s2 := ReviewCanFinish(s0, s1);
    s := SigningCanFinish(s0, s2);
    ReachedIsReachable(s0, s);
    ReachesItself(s);
  }

  /** Rendering fails once, and the run is parked with its report signed. */
  lemma ParkedSigned() returns (s: Sys)
    ensures ReachableState(s) && Inv(s) && s.tables.run.state == ManualInputRequired && s.tables.report.status == Signed
  {
    hide ReachableState, CanReach, Inv, Attempt;
    var s0 := SignedReport();
    var s1, pid := PdfIsTried(s0);
    var s2 := Extend(s0, s1, Abort(pid, "", false));
    ParkingCommits(s2);
    s := WorkerCanCommit(s0, s2, pid, ParkTx("", s2.clock));
    ReachedIsReachable(s0, s);
  }

  lemma PdfIsTried(s: Sys) returns (t: Sys, pid: nat)
    requires Inv(s) && s.tables.run.state == PdfPending
    ensures CanReach(s, t) && Inv(t) && t.tables.run.state == PdfPending
    ensures pid in t.procs && t.procs[pid].Worker? && t.procs[pid].pc.InTx? && t.procs[pid].pc.tx.GenerateTx?
  {
    hide CanReach, Inv;
    WakeUpFits(s);
    var event := s.tables.outbox[s.tables.run.stateVersion].event;
    var t0, p := CanBeDelivered(s, s.tables.run.stateVersion);
    var t1 := CanBeCalled(s, t0, p, 0, event, t0.clock);
    t := CanLoad(s, t1, p, GenerateTx(0));
    pid := p;
  }

  lemma ParkingCommits(t: Sys)
    requires Inv(t) && t.tables.run.state == PdfPending
    ensures var r := Attempt(t.tables, ParkTx("", t.clock), Cur(t), t.clock);
            r.Committed? && r.tables.run.state == ManualInputRequired && r.tables.report.status == Signed
  {
    hide OutboxOk, MessagesOk, ProcsOk, AiRunsOk, ConfirmedOk, SigningOk, AddEvents, Pow2;
  }

  /** A signed report can be sent back to drafting. */
  lemma StrandedIsReachable() returns (s: Sys)
    ensures ReachableState(s) && Stranded(s)
  {
    hide ReachableState, CanReach, Inv;
    var s0 := ParkedSigned();
    ReachesItself(s0);
    NotesCommit(s0);
    s := PersonCanCommit(s0, s0, ManualNotesTx(NOTES));
    ReachedIsReachable(s0, s);
  }

  lemma NotesCommit(t: Sys)
    requires t.tables.run.state == ManualInputRequired
    ensures var r := Attempt(t.tables, ManualNotesTx(NOTES), Cur(t), t.clock);
            r.Committed? && r.tables.run.state == DraftingPending && r.tables.report == t.tables.report
  {
    hide AddEvents;
  }

  /** A worker that dies with the drafting claim leaves it abandoned. */
  lemma AbandonedIsReachable() returns (s: Sys)
    ensures ReachableState(s) && Abandoned(s)
  {
    hide ReachableState, CanReach, Inv;
    var s0 := NewReport();
    var s1, pid := CanBeServed(s0);
    s := Extend(s0, s1, Crash(pid));
    ReachedIsReachable(s0, s);
    OnlyHolderViable(s1, pid);
  }

  lemma OnlyHolderViable(s: Sys, pid: nat)
    requires Inv(s) && pid in s.procs && Holder(s.procs[pid])
    ensures forall q <- s.procs :: Viable(s.procs[q]) ==> q == pid
  {
    hide Sound, OutboxOk, MessagesOk, AiRunsOk, ProcOk, Persist;
  }

  /** Confirmed while still empty, drafted afterwards, and made ready: nobody confirmed what is frozen. */
  lemma UnseenContentCanFreeze() returns (trace: seq<Sys>, steps: seq<Step>)
    ensures Execution(trace, steps)
    ensures var s := trace[|trace| - 1];
            s.tables.report.frozenAt.Some? && !Confirmed(trace, steps, |steps|, s.tables.report.content)
  {
    hide Inv, Apply, Init;
    var s := FrozenUnseen();
    trace, steps :| Execution(trace, steps) && trace[|trace| - 1] == s;
    if Confirmed(trace, steps, |steps|, s.tables.report.content) {
      ConfirmedIsSeen(trace, steps, |steps|, s.tables.report.content);
    }
  }

  lemma FrozenUnseen() returns (s: Sys)
    ensures ReachableState(s)
    ensures s.tables.report.frozenAt.Some? && s.tables.report.content !in s.confirmations.seen
  {
    hide ReachableState, CanReach, Inv;
    var s0 := NewReport();
    var s1 := ConfirmedEmpty(s0);
    var s2 := DraftingCanFinish(s0, s1);
    ReadyCommits(s2);
    s := PersonCanCommit(s0, s2, ReadyTx);
    ReachedIsReachable(s0, s);
  }

  lemma ConfirmedEmpty(s: Sys) returns (t: Sys)
    requires Arrived(s, s, DraftingPending) && s.tables.report == NewDraft("USD") && s.confirmations.seen == {}
    ensures Arrived(s, t, DraftingPending) && !Stranded(t)
    ensures t.tables.report.confirmedAt.Some? && t.confirmations.seen == {NewDraft("USD").content}
  {
    hide CanReach, Inv;
    t := Extend(s, s, EditNow(ConfirmTx));
  }

  lemma ReadyCommits(t: Sys)
    requires Inv(t) && t.tables.run.state == ReviewPending && t.tables.report.confirmedAt.Some?
    ensures var r := Attempt(t.tables, ReadyTx, Cur(t), t.clock);
            r.Committed? && r.tables.report.frozenAt.Some? && r.tables.report.content == t.tables.report.content
  {
    hide OutboxOk, MessagesOk, ProcsOk, AiRunsOk, ConfirmedOk, InputOk, AddEvents;
  }

  // ----- From a recording -----

  const EVENT: DispatchEvent := DispatchEvent(0, TranscriptionPending, Some(7), None)

  /** One recorded report whose event is on the stream as two unacknowledged entries. */
  predicate Recorded(s: Sys, claimed: Option<Time>, version: nat, clock: Time) {
    && s.tables.run == InitialRun(Audio(7)).(claimedAt := claimed, stateVersion := version)
    && s.tables.report == NewDraft("USD")
    && s.tables.outbox == map[0 := OutboxRow(EVENT, false)]
    && s.stream == map[0 := Entry(0, AudioStream, false), 1 := Entry(0, AudioStream, false)]
    && s.inbox == {} && s.clock == clock && s.origin == InitialRun(Audio(7))
  }

  /** Only the point of worker `pid` differs. */
  predicate Moved(s: Sys, s': Sys, pid: nat, entry: nat, pc: Pc) {
    s'.procs == s.procs[pid := Worker(entry, EVENT, pc)] && s'.chain == s.chain
  }

  /** A publisher that dies between sending and stamping leaves the row for the next one. */
  lemma SentBy(s: Sys, pid: nat, entry: nat) returns (t: Sys)
    requires ReachableState(s) && s.procs == map[] && entry !in s.stream
    requires s.tables.outbox == map[0 := OutboxRow(EVENT, false)]
    ensures ReachableState(t) && t == s.(stream := s.stream[entry := Entry(0, AudioStream, false)])
  {
    hide ReachableState;
    var s1 := Then(s, Select(pid, 0));
    var s2 := Then(s1, Publish(pid, entry));
    t := Then(s2, Crash(pid));
    assert t.procs == map[];
  }

  lemma SentTwice() returns (s: Sys)
    ensures ReachableState(s) && Recorded(s, None, 0, 0) && s.procs == map[] && s.chain == []
  {
    hide Execution, Apply;
    var t := Created(Audio(7), "USD");
    var s0 := Sys(t, 0, map[], {}, map[], t.run, [], Confirmations(false, {}), []);
    assert InitWith(s0, Audio(7), "USD");
    InitReachable(s0);
    var s1 := SentBy(s0, 9, 0);
    s := SentBy(s1, 9, 1);
    assert s.stream == map[0 := Entry(0, AudioStream, false), 1 := Entry(0, AudioStream, false)];
  }

  lemma Passes(s: Sys, claimed: Option<Time>, version: nat, clock: Time, elapsed: nat) returns (t: Sys)
    requires ReachableState(s) && Recorded(s, claimed, version, clock)
    ensures ReachableState(t) && Recorded(t, claimed, version, clock + elapsed) && t == s.(clock := clock + elapsed)
  {
    hide ReachableState;
    t := Then(s, Tick(elapsed));
  }

  /** Entry `entry` is delivered to a new worker, which does not find the event in the inbox. */
  lemma Arrives(s: Sys, pid: nat, entry: nat, claimed: Option<Time>, version: nat, clock: Time) returns (t: Sys)
    requires ReachableState(s) && Recorded(s, claimed, version, clock) && pid !in s.procs && entry < 2
    ensures ReachableState(t) && Recorded(t, claimed, version, clock) && Moved(s, t, pid, entry, Calling(0))
  {
    hide ReachableState;
    var s1 := Then(s, Deliver(pid, entry));
    t := Then(s1, CheckInbox(pid));
  }

  lemma Asks(s: Sys, pid: nat, entry: nat, claimed: Option<Time>, version: nat, clock: Time) returns (t: Sys)
    requires ReachableState(s) && Recorded(s, claimed, version, clock)
    requires pid in s.procs && s.procs[pid] == Worker(entry, EVENT, Calling(0))
    ensures ReachableState(t) && Recorded(t, claimed, version, clock)
    ensures Moved(s, t, pid, entry, InTx(0, ClaimAudioTx(clock), Snapshot(s.tables.run, NewDraft("USD"), clock)))
  {
    hide ReachableState;
    var s1 := Then(s, CallHandler(pid));
    t := Then(s1, Begin(pid, ClaimAudioTx(clock)));
  }

  /** The claim finds the run free, or its lease expired. */
  lemma Gets(s: Sys, pid: nat, entry: nat, claimed: Option<Time>, version: nat, clock: Time) returns (t: Sys)
    requires ReachableState(s) && Recorded(s, claimed, version, clock)
    requires claimed.Some? ==> claimed.value + CLAIM_LEASE_SECONDS * SECOND <= clock
    requires pid in s.procs
    requires s.procs[pid] == Worker(entry, EVENT, InTx(0, ClaimAudioTx(clock), Snapshot(s.tables.run, NewDraft("USD"), clock)))
    ensures ReachableState(t) && Recorded(t, Some(clock), version + 1, clock)
    ensures t.procs == s.procs[pid := Worker(entry, EVENT, Transcribing(0))]
    ensures |t.chain| == |s.chain| + 1 && s.chain < t.chain
    ensures t.chain[|s.chain|].tx == ClaimAudioTx(clock) && t.chain[|s.chain|].run == t.tables.run
  {
    hide ReachableState;
    t := Then(s, End(pid, clock));
  }

  /** A worker that joins takes the claim over, in three moves. */
  lemma Joins(s: Sys, pid: nat, entry: nat, claimed: Option<Time>, version: nat, clock: Time) returns (t: Sys)
    requires ReachableState(s) && Recorded(s, claimed, version, clock) && pid !in s.procs && entry < 2
    requires claimed.Some? ==> claimed.value + CLAIM_LEASE_SECONDS * SECOND <= clock
    ensures ReachableState(t) && Recorded(t, Some(clock), version + 1, clock)
    ensures t.procs == s.procs[pid := Worker(entry, EVENT, Transcribing(0))]
    ensures |t.chain| == |s.chain| + 1 && s.chain < t.chain
    ensures t.chain[|s.chain|].tx == ClaimAudioTx(clock) && t.chain[|s.chain|].run == t.tables.run
  {
    hide ReachableState, Recorded;
    var s1 := Arrives(s, pid, entry, claimed, version, clock);
    var s2 := Asks(s1, pid, entry, claimed, version, clock);
    assert s1.tables.run == s2.tables.run by {
      assert Recorded(s1, claimed, version, clock) && Recorded(s2, claimed, version, clock);
      SameRun(s1, s2, claimed, version, clock);
    }
    t := Gets(s2, pid, entry, claimed, version, clock);
  }

  lemma SameRun(s: Sys, t: Sys, claimed: Option<Time>, version: nat, clock: Time)
    requires Recorded(s, claimed, version, clock) && Recorded(t, claimed, version, clock)
    ensures s.tables.run == t.tables.run
  {
  }

  lemma Dies(s: Sys, pid: nat, claimed: Option<Time>, version: nat, clock: Time) returns (t: Sys)
    requires ReachableState(s) && Recorded(s, claimed, version, clock) && pid in s.procs
    ensures ReachableState(t) && Recorded(t, claimed, version, clock) && t.procs == s.procs - {pid}
  {
    hide ReachableState;
    t := Then(s, Crash(pid));
  }

  // ----- A starved transcription -----

  lemma DeclinedByLease(s: Sys, pid: nat, entry: nat, claimed: Time, version: nat, clock: Time) returns (t: Sys)
    requires ReachableState(s) && Recorded(s, Some(claimed), version, clock)
    requires claimed <= clock < claimed + CLAIM_LEASE_SECONDS * SECOND
    requires pid in s.procs
    requires s.procs[pid] == Worker(entry, EVENT, InTx(0, ClaimAudioTx(clock), Snapshot(s.tables.run, NewDraft("USD"), clock)))
    ensures ReachableState(t) && Recorded(t, Some(claimed), version, clock) && Moved(s, t, pid, entry, Handled)
  {
    hide ReachableState;
    t := Then(s, End(pid, clock));
  }

  lemma RecordedAndAcknowledged(s: Sys, pid: nat, entry: nat, claimed: Time, version: nat, clock: Time) returns (t: Sys)
    requires ReachableState(s) && Recorded(s, Some(claimed), version, clock) && entry < 2
    requires s.procs == map[pid := Worker(entry, EVENT, Handled)]
    ensures ReachableState(t) && Silent(t) && t.tables.run.claimedAt == Some(claimed) && t.clock == clock
  {
    hide ReachableState, Attempt, Continue, Claimable;
    var s1 := Then(s, RecordInbox(pid));
    t := Then(s1, Ack(pid));
    assert t.procs == map[];
  }

  /**
   A worker that crashes one second into a transcription can leave the run claimed for ever:
   the redelivery after 120 seconds is acknowledged before the lease has run out.
   */
  lemma CrashedTranscriptionCanStarve() returns (s: Sys)
    ensures ReachableState(s) && Silent(s)
    ensures s.tables.run.claimedAt == Some(SECOND) && s.clock == REDELIVERY
  {
    hide ReachableState, Recorded, Silent;
    var s1 := SentTwice();
    var s2 := Arrives(s1, 1, 0, None, 0, 0);
    var s3 := Passes(s2, None, 0, 0, SECOND);
    var s4 := Asks(s3, 1, 0, None, 0, SECOND);
    SameRun(s3, s4, None, 0, SECOND);
    var s5 := Gets(s4, 1, 0, None, 0, SECOND);
    var s6 := Dies(s5, 1, Some(SECOND), 1, SECOND);
    var s7 := Passes(s6, Some(SECOND), 1, SECOND, REDELIVERY - SECOND);
    var s8 := Arrives(s7, 2, 0, Some(SECOND), 1, REDELIVERY);
    var s9 := Asks(s8, 2, 0, Some(SECOND), 1, REDELIVERY);
    SameRun(s8, s9, Some(SECOND), 1, REDELIVERY);
    var s10 := DeclinedByLease(s9, 2, 0, SECOND, 1, REDELIVERY);
    assert s10.procs == map[2 := Worker(0, EVENT, Handled)];
    s := RecordedAndAcknowledged(s10, 2, 0, SECOND, 1, REDELIVERY);
  }

  // ----- A lease cut short -----

  /** A heartbeat read long ago and committed now moves the claim time back. */
  lemma BeatsLate(s: Sys, pid: nat, entry: nat, claimed: Time, version: nat, clock: Time, reading: Time) returns (t: Sys)
    requires ReachableState(s) && Recorded(s, Some(claimed), version, clock) && reading <= clock
    requires pid in s.procs && s.procs[pid] == Worker(entry, EVENT, Transcribing(0))
    ensures ReachableState(t) && Recorded(t, Some(reading), version + 1, clock) && t.procs == s.procs
    ensures |t.chain| == |s.chain| + 1 && s.chain < t.chain
    ensures t.chain[|s.chain|].tx == HeartbeatTx(reading) && t.chain[|s.chain|].run == t.tables.run
  {
    hide ReachableState;
    var s1 := Then(s, Begin(pid, HeartbeatTx(reading)));
    t := Then(s1, End(pid, clock));
    assert t.procs == s.procs;
  }

  /**
   Two workers inside one lease: the first is overtaken at 121 seconds, commits a heartbeat it
   read at 30, and a third worker claims at 150, 29 seconds into the second one's lease.
   */
  lemma LateHeartbeatBreaksLease() returns (s: Sys)
    ensures ReachableState(s) && |s.chain| == 4
    ensures s.chain[1].tx == ClaimAudioTx(121 * SECOND) && s.chain[2].tx == HeartbeatTx(30 * SECOND)
    ensures s.chain[3].tx == ClaimAudioTx(150 * SECOND)
    ensures forall k :: 1 <= k <= 3 ==> s.chain[k].run.claimedAt.Some? && s.chain[k].run.state == TranscriptionPending
    ensures 2 in s.procs && 3 in s.procs
            && s.procs[2] == Worker(0, EVENT, Transcribing(0)) && s.procs[3] == Worker(1, EVENT, Transcribing(0))
  {
    hide ReachableState;
    var s1 := SentTwice();
    var s2 := Joins(s1, 1, 0, None, 0, 0);
    var s3 := Passes(s2, Some(0), 1, 0, 121 * SECOND);
    var s4 := Joins(s3, 2, 0, Some(0), 1, 121 * SECOND);
    var s5 := BeatsLate(s4, 1, 0, 121 * SECOND, 2, 121 * SECOND, 30 * SECOND);
    var s6 := Passes(s5, Some(30 * SECOND), 3, 121 * SECOND, 29 * SECOND);
    s := Joins(s6, 3, 1, Some(30 * SECOND), 3, 150 * SECOND);
  }
}
