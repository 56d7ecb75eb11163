/** The invariant of the interleaved system, and that every step keeps it. */
module SystemInvariant {
  import opened Wrappers
  import opened States
  import opened WorkflowRuns
  import opened Reports
  import opened VisualAudits
  import opened Transactions
  import opened RowInvariants
  import opened Protocol

  /** An event speaks about the current row only as long as that row still awaits a worker. */
  predicate EventFits(event: DispatchEvent, run: RunRow) {
    && WorkerDriven(event.state)
    && event.id <= run.stateVersion
    && (event.id == run.stateVersion ==>
          Awaiting(run) && run.state == event.state && run.nextRetryAt == event.notBefore)
  }

  predicate OutboxOk(outbox: map<nat, OutboxRow>, run: RunRow) {
    && (forall id <- outbox :: outbox[id].event.id == id && EventFits(outbox[id].event, run))
    && (Awaiting(run) ==> run.stateVersion in outbox)
  }

  /** Acknowledged means recorded, and recorded means superseded. */
  predicate MessagesOk(s: Sys) {
    && (forall id <- s.inbox :: id < s.tables.run.stateVersion)
    && (forall e <- s.stream ::
          && s.stream[e].event in s.tables.outbox
          && s.stream[e].stream == StreamFor(s.tables.outbox[s.stream[e].event].event)
          && (s.stream[e].acked ==> s.stream[e].event in s.inbox))
    && (forall id <- s.tables.outbox :: s.tables.outbox[id].published ==> OnStream(s, id))
  }

  predicate OnStream(s: Sys, id: nat) {
    exists e <- s.stream :: s.stream[e].event == id
  }

  predicate SnapOk(snap: Snapshot, s: Sys) {
    Sound(snap, s.confirmations) && Drift(snap, Cur(s))
  }

  /** The transactions that serve each kind of event. */
  predicate Serves(state: WorkflowState, tx: Tx) {
    match state
    case DraftingPending => tx.ClaimDraftTx? || tx.PersistTx?
    case PdfPending => tx.GenerateTx? || tx.ParkTx?
    case TranscriptionPending => tx.ClaimAudioTx? || tx.CompleteAudioTx? || tx.FailAudioTx? || tx.HeartbeatTx?
    case _ => false
  }

  /** The process that claimed the current drafting stay and has not tried to persist yet. */
  predicate Holder(p: Proc) {
    p.Worker? && (p.pc.Holding? || (p.pc.InTx? && p.pc.tx.PersistTx?))
  }

  predicate PcOk(event: DispatchEvent, pc: Pc, s: Sys) {
    match pc
    case InTx(_, tx, snap) =>
      && SnapOk(snap, s) && EventFits(event, snap.run)
      && Serves(event.state, tx) && Validated(tx) && Timely(tx, snap.at)
      && (tx.ClaimAudioTx? ==> Due(event, tx.now))
      && (tx.PersistTx? ==> HeldForDrafting(s.tables.run) && snap.run == s.tables.run)
    case Holding(_, claim, result) =>
      && event.state == DraftingPending
      && claim == s.tables.run.stateVersion && HeldForDrafting(s.tables.run)
      && (result.None? ==> claim !in s.aiRuns)
    case Active(_, startedAt) =>
      startedAt <= s.clock && (Due(event, startedAt) || event.state != TranscriptionPending)
    case Parking(_) => event.state == PdfPending
    case Transcribing(_) => event.state == TranscriptionPending
    case Failing(_, _) => event.state == TranscriptionPending
    case Handled => event.id < s.tables.run.stateVersion
    case Recorded => event.id in s.inbox
    case _ => true
  }

  predicate ProcOk(p: Proc, s: Sys) {
    match p
    case Http(tx, snap) =>
      && SnapOk(snap, s) && ByPerson(tx) && Validated(tx)
      && !tx.ConfirmTx? && (tx.UpdateTx? ==> snap.run.state == ManualInputRequired)
    case Publisher(id, sent) => id in s.tables.outbox && (sent ==> OnStream(s, id))
    case Worker(entry, event, pc) =>
      && entry in s.stream && s.stream[entry].event == event.id
      && event.id in s.tables.outbox && s.tables.outbox[event.id].event == event
      && PcOk(event, pc, s)
  }

  predicate OneHolder(procs: map<nat, Proc>) {
    forall p, q :: p in procs && q in procs && Holder(procs[p]) && Holder(procs[q]) ==> p == q
  }

  predicate AiRunsOk(s: Sys) {
    && (forall i :: 0 <= i < |s.aiRuns| ==> s.aiRuns[i] <= s.tables.run.stateVersion)
    && (forall i, j :: 0 <= i < j < |s.aiRuns| ==> s.aiRuns[i] != s.aiRuns[j])
  }

  predicate ProcsOk(s: Sys) {
    (forall pid <- s.procs :: ProcOk(s.procs[pid], s)) && OneHolder(s.procs)
  }

  predicate Inv(s: Sys) {
    && Sound(Cur(s), s.confirmations)
    && OutboxOk(s.tables.outbox, s.tables.run)
    && MessagesOk(s)
    && ProcsOk(s)
    && AiRunsOk(s)
  }

  lemma InitInv(s: Sys)
    requires Init(s)
    ensures Inv(s)
  {
  }

  // ----- Commits -----

  /** A commit by `tx` from a snapshot that is still current, leaving everything else but processes alone. */
  predicate CommitShape(s: Sys, s': Sys, tx: Tx, snap: Snapshot, now: Time) {
    && Commits(tx, snap, now, Cur(s), s.confirmations)
    && (tx.UpdateTx? && Mutate(tx, snap, now).value.run.None? ==> s.tables.run.state != ManualInputRequired)
    && var t := Write(s.tables, Mutate(tx, snap, now).value);
       s' == Commit(s, tx, snap, now, t).(procs := s'.procs)
  }

  lemma CommitSound(s: Sys, s': Sys, tx: Tx, snap: Snapshot, now: Time)
    requires CommitShape(s, s', tx, snap, now)
    ensures Sound(Cur(s'), s'.confirmations)
  {
    hide Mutate;
    CommitKeepsJoint(tx, snap, now, Cur(s), s.confirmations);
    CommitKeepsRun(tx, snap, now, Cur(s), s.confirmations);
    CommitKeepsSigning(tx, snap, now, Cur(s), s.confirmations);
    CommitKeepsConfirmed(tx, snap, now, Cur(s), s.confirmations);
  }

  /** A saved run was loaded at the current version, gets a higher one, and is never taken from its holder. */
  lemma SavedVersion(tx: Tx, snap: Snapshot, now: Time, cur: Snapshot, c: Confirmations)
    requires Commits(tx, snap, now, cur, c)
    requires Mutate(tx, snap, now).value.run.Some?
    ensures snap.run == cur.run
    ensures cur.run.stateVersion < Mutate(tx, snap, now).value.run.value.stateVersion
    ensures HeldForDrafting(cur.run) ==> tx.PersistTx?
  {
    hide Sound, Request, Pow2;
  }

  /** A transaction dispatches exactly when the row it saves awaits a worker, under that row's version. */
  lemma SavedEvents(tx: Tx, snap: Snapshot, now: Time, cur: Snapshot, c: Confirmations)
    requires Commits(tx, snap, now, cur, c)
    requires Mutate(tx, snap, now).value.run.Some?
    ensures var e := Mutate(tx, snap, now).value;
            var run := e.run.value;
            if Awaiting(run) then
              && |e.events| == 1 && e.events[0].id == run.stateVersion
              && e.events[0].state == run.state && e.events[0].notBefore == run.nextRetryAt
            else e.events == []
  {
    hide Joint, SigningOk, ConfirmedOk, InputOk, Request, Pow2;
  }

  /** A report-only transaction edits a draft and nothing else. */
  lemma Unsaved(tx: Tx, snap: Snapshot, now: Time, cur: Snapshot, c: Confirmations)
    requires Commits(tx, snap, now, cur, c)
    requires Mutate(tx, snap, now).value.run.None?
    ensures var e := Mutate(tx, snap, now).value;
            && snap == cur && e.events == [] && e.pdfs == [] && e.audits == []
            && e.report.Some? && e.report.value.status == Draft && cur.report.status == Draft
  {
    hide Sound, Request, Pow2;
  }

  lemma SavedRun(tx: Tx, snap: Snapshot, now: Time, cur: Snapshot, c: Confirmations)
    requires Commits(tx, snap, now, cur, c)
    ensures var e := Mutate(tx, snap, now).value;
            && (e.run.Some? ==>
                  && snap.run == cur.run
                  && cur.run.stateVersion < e.run.value.stateVersion
                  && (if Awaiting(e.run.value) then
                        && |e.events| == 1 && e.events[0].id == e.run.value.stateVersion
                        && e.events[0].state == e.run.value.state
                        && e.events[0].notBefore == e.run.value.nextRetryAt
                      else e.events == [])
                  && (HeldForDrafting(cur.run) ==> tx.PersistTx?))
            && (e.run.None? ==>
                  && e.events == [] && e.pdfs == [] && e.audits == []
                  && e.report.Some? && e.report.value.status == Draft && cur.report.status == Draft)
  {
    hide Mutate, Sound;
    if Mutate(tx, snap, now).value.run.Some? {
      SavedVersion(tx, snap, now, cur, c);
      SavedEvents(tx, snap, now, cur, c);
    } else {
      Unsaved(tx, snap, now, cur, c);
    }
  }

  lemma CommitOutbox(s: Sys, s': Sys, tx: Tx, snap: Snapshot, now: Time)
    requires Inv(s) && CommitShape(s, s', tx, snap, now)
    ensures OutboxOk(s'.tables.outbox, s'.tables.run)
    ensures s.tables.run.stateVersion <= s'.tables.run.stateVersion
    ensures forall id <- s.tables.outbox :: id in s'.tables.outbox && s'.tables.outbox[id] == s.tables.outbox[id]
    ensures forall id <- s'.tables.outbox :: id in s.tables.outbox || !s'.tables.outbox[id].published
  {
    hide Mutate, Sound;
    SavedRun(tx, snap, now, Cur(s), s.confirmations);
    var e := Mutate(tx, snap, now).value;
    if e.events != [] {
      assert e.events == [e.events[0]];
      assert AddEvents(s.tables.outbox, e.events) == s.tables.outbox[e.events[0].id := OutboxRow(e.events[0], false)];
    }
  }

  lemma CommitMessages(s: Sys, s': Sys, tx: Tx, snap: Snapshot, now: Time)
    requires Inv(s) && CommitShape(s, s', tx, snap, now)
    ensures MessagesOk(s') && AiRunsOk(s')
  {
    hide Sound, Mutate, Drift;
    CommitOutbox(s, s', tx, snap, now);
    forall id <- s'.tables.outbox | s'.tables.outbox[id].published
      ensures OnStream(s', id)
    {
      assert OnStream(s, id);
    }
  }

  /** A process that is not the committing one keeps its facts. */
  lemma CommitOther(s: Sys, s': Sys, tx: Tx, snap: Snapshot, now: Time, p: Proc)
    requires Inv(s) && CommitShape(s, s', tx, snap, now)
    requires ProcOk(p, s)
    requires Holder(p) ==> !tx.PersistTx?
    ensures ProcOk(p, s')
  {
    hide Mutate, SigningOk, Joint, BookkeepingOk, InputOk;
    CommitOutbox(s, s', tx, snap, now);
    SavedRun(tx, snap, now, Cur(s), s.confirmations);
  }

  /** The committing process is gone or has moved on; all others keep their facts. */
  lemma CommitInv(s: Sys, s': Sys, tx: Tx, snap: Snapshot, now: Time, pid: nat)
    requires Inv(s) && CommitShape(s, s', tx, snap, now)
    requires s'.procs - {pid} == s.procs - {pid}
    requires pid in s'.procs ==> ProcOk(s'.procs[pid], s')
    requires tx.PersistTx? ==> pid in s.procs && Holder(s.procs[pid])
    requires OneHolder(s'.procs)
    ensures Inv(s')
  {
    hide Sound, Mutate, Drift;
    CommitSound(s, s', tx, snap, now);
    CommitOutbox(s, s', tx, snap, now);
    CommitMessages(s, s', tx, snap, now);
    forall q | q in s'.procs
      ensures ProcOk(s'.procs[q], s')
    {
      if q != pid {
        assert q in s'.procs - {pid};
        assert s'.procs[q] == s.procs[q];
        CommitOther(s, s', tx, snap, now, s.procs[q]);
      }
    }
  }

  /** A committed attempt from a process's own snapshot has the commit shape. */
  lemma AttemptShape(s: Sys, tx: Tx, snap: Snapshot, now: Time, procs: map<nat, Proc>)
    requires Inv(s) && SnapOk(snap, s) && Validated(tx) && Timely(tx, snap.at) && snap.at <= now <= s.clock
    requires tx.PersistTx? ==> HeldForDrafting(snap.run)
    requires Attempt(s.tables, tx, snap, now).Committed?
    requires Mutate(tx, snap, now).value.run.None? ==> snap == Cur(s) && (tx.UpdateTx? ==> s.tables.run.state != ManualInputRequired)
    ensures var t := Attempt(s.tables, tx, snap, now).tables;
            CommitShape(s, Commit(s, tx, snap, now, t).(procs := procs), tx, snap, now)
  {
    hide Sound;
  }

  lemma EditNowInv(s: Sys, s': Sys, tx: Tx)
    requires Inv(s) && Apply(s, EditNow(tx)) == Some(s')
    ensures Inv(s')
  {
    hide Sound, Mutate;
    var result := Attempt(s.tables, tx, Cur(s), s.clock);
    if result.Committed? {
      AttemptShape(s, tx, Cur(s), s.clock, s.procs);
      CommitSound(s, s', tx, Cur(s), s.clock);
      CommitOutbox(s, s', tx, Cur(s), s.clock);
      CommitMessages(s, s', tx, Cur(s), s.clock);
      forall q | q in s'.procs
        ensures ProcOk(s'.procs[q], s')
      {
        CommitOther(s, s', tx, Cur(s), s.clock, s.procs[q]);
      }
    }
  }

  /** The committed rows, clock readings, outbox events and inbox are untouched or only grow. */
  predicate Quiet(s: Sys, s': Sys) {
    && s'.tables.(outbox := map[]) == s.tables.(outbox := map[])
    && s'.tables.outbox.Keys == s.tables.outbox.Keys
    && (forall id <- s.tables.outbox :: s'.tables.outbox[id].event == s.tables.outbox[id].event)
    && s.clock <= s'.clock
    && s.inbox <= s'.inbox
    && (forall e <- s.stream :: e in s'.stream && s'.stream[e].event == s.stream[e].event)
    && s'.origin == s.origin && s'.chain == s.chain && s'.confirmations == s.confirmations
  }

  lemma QuietOther(s: Sys, s': Sys, p: Proc)
    requires Inv(s) && Quiet(s, s') && ProcOk(p, s)
    requires s'.aiRuns == s.aiRuns || !Holder(p)
    ensures ProcOk(p, s')
  {
    hide Mutate;
  }

  lemma QuietInv(s: Sys, s': Sys, pid: nat)
    requires Inv(s) && Quiet(s, s')
    requires MessagesOk(s') && AiRunsOk(s')
    requires s'.procs - {pid} == s.procs - {pid}
    requires pid in s'.procs ==> ProcOk(s'.procs[pid], s')
    requires s'.aiRuns == s.aiRuns || (pid in s.procs && Holder(s.procs[pid]))
    requires OneHolder(s'.procs)
    ensures Inv(s')
  {
    hide Mutate;
    forall q | q in s'.procs
      ensures ProcOk(s'.procs[q], s')
    {
      if q != pid {
        assert q in s'.procs - {pid};
        assert s'.procs[q] == s.procs[q];
        QuietOther(s, s', s.procs[q]);
      }
    }
  }

  /** A process enters a point of the handler that owns nothing. */
  lemma MoveInv(s: Sys, s': Sys, pid: nat, pc: Pc)
    requires Inv(s) && pid in s.procs && s.procs[pid].Worker?
    requires s' == Move(s, pid, pc)
    requires PcOk(s.procs[pid].event, pc, s)
    requires Holder(s'.procs[pid]) ==> Holder(s.procs[pid])
    ensures Inv(s')
  {
    hide Sound, Mutate, Drift;
    assert ProcOk(s.procs[pid], s);
    QuietOther(s, s', s'.procs[pid]);
    QuietInv(s, s', pid);
  }

  lemma DropInv(s: Sys, pid: nat)
    requires Inv(s)
    ensures Inv(Drop(s, pid))
  {
    hide Sound, Mutate, Drift;
    QuietInv(s, Drop(s, pid), pid);
  }

  /** Every transaction but a report-only edit saves the run. */
  lemma SavesRun(tx: Tx, snap: Snapshot, now: Time)
    requires Mutate(tx, snap, now).Success?
    requires !tx.ConfirmTx? && (tx.UpdateTx? ==> snap.run.state == ManualInputRequired)
    ensures Mutate(tx, snap, now).value.run.Some?
  {
  }

  lemma HttpEndInv(s: Sys, s': Sys, pid: nat, now: Time)
    requires Inv(s) && Apply(s, HttpEnd(pid, now)) == Some(s')
    ensures Inv(s')
  {
    hide Sound, Mutate, Drift;
    var p := s.procs[pid];
    assert ProcOk(p, s);
    var result := Attempt(s.tables, p.tx, p.snap, now);
    if result.Committed? {
      SavesRun(p.tx, p.snap, now);
      AttemptShape(s, p.tx, p.snap, now, s.procs - {pid});
      assert s' == Commit(s, p.tx, p.snap, now, result.tables).(procs := s.procs - {pid});
      CommitInv(s, s', p.tx, p.snap, now, pid);
    } else {
      DropInv(s, pid);
    }
  }

  // ----- Worker transactions -----

  /** A claim that finds nothing to do was asked for by a superseded event. */
  lemma DeclinedIsSuperseded(event: DispatchEvent, tx: Tx, snap: Snapshot, now: Time)
    requires EventFits(event, snap.run) && Serves(event.state, tx) && !tx.HeartbeatTx?
    requires tx.ClaimAudioTx? ==> Due(event, tx.now)
    requires Mutate(tx, snap, now) == Failure(Declined)
    ensures event.id < snap.run.stateVersion
  {
  }

  lemma ContinueUncommitted(s: Sys, event: DispatchEvent, attempt: nat, tx: Tx, snap: Snapshot, now: Time)
    requires Inv(s) && PcOk(event, InTx(attempt, tx, snap), s)
    requires snap.at <= now <= s.clock
    requires !Attempt(s.tables, tx, snap, now).Committed?
    ensures PcOk(event, Continue(tx, attempt, Attempt(s.tables, tx, snap, now)), s)
    ensures !Continue(tx, attempt, Attempt(s.tables, tx, snap, now)).Holding?
    ensures !Continue(tx, attempt, Attempt(s.tables, tx, snap, now)).InTx?
  {
    hide Sound;
    if Mutate(tx, snap, now) == Failure(Declined) && !tx.HeartbeatTx? {
      DeclinedIsSuperseded(event, tx, snap, now);
    }
  }

  lemma ClaimHolds(snap: Snapshot, now: Time)
    requires Mutate(ClaimDraftTx, snap, now).Success?
    ensures HeldForDrafting(Mutate(ClaimDraftTx, snap, now).value.run.value)
  {
  }

  lemma ContinueCommitted(s: Sys, s': Sys, event: DispatchEvent, attempt: nat, tx: Tx, snap: Snapshot, now: Time)
    requires Inv(s) && PcOk(event, InTx(attempt, tx, snap), s)
    requires CommitShape(s, s', tx, snap, now)
    ensures PcOk(event, Continue(tx, attempt, Committed(s'.tables)), s')
    ensures tx.ClaimDraftTx? || !Continue(tx, attempt, Committed(s'.tables)).Holding?
    ensures !Continue(tx, attempt, Committed(s'.tables)).InTx?
  {
    hide Mutate, Sound;
    if tx.ClaimDraftTx? {
      ClaimHolds(snap, now);
    }
    SavesRun(tx, snap, now);
    SavedRun(tx, snap, now, Cur(s), s.confirmations);
  }

  /** A drafting claim commits only when nobody holds the drafting stay. */
  lemma ClaimIsExclusive(s: Sys, tx: Tx, snap: Snapshot, now: Time, pid: nat, pc: Pc)
    requires Inv(s) && Commits(tx, snap, now, Cur(s), s.confirmations)
    requires Mutate(tx, snap, now).value.run.Some? && !tx.PersistTx?
    requires pid in s.procs && s.procs[pid].Worker?
    ensures OneHolder(s.procs[pid := s.procs[pid].(pc := pc)])
  {
    hide Mutate, Sound;
    SavedRun(tx, snap, now, Cur(s), s.confirmations);
    forall q | q in s.procs
      ensures !Holder(s.procs[q])
    {
      assert ProcOk(s.procs[q], s);
    }
  }

  /** A worker whose commit succeeded moves on, whether it saw that or not. */
  lemma CommittedInv(s: Sys, s': Sys, pid: nat, attempt: nat, tx: Tx, snap: Snapshot, now: Time, t: Tables, pc: Pc)
    requires Inv(s) && pid in s.procs && s.procs[pid].Worker? && s.procs[pid].pc == InTx(attempt, tx, snap)
    requires snap.at <= now <= s.clock && Attempt(s.tables, tx, snap, now) == Committed(t)
    requires s' == Move(Commit(s, tx, snap, now, t), pid, pc)
    requires CommitShape(s, s', tx, snap, now) ==> PcOk(s.procs[pid].event, pc, s')
    requires pc.Holding? || pc.InTx? ==> tx.ClaimDraftTx?
    ensures Inv(s')
  {
    hide Sound, Mutate, Drift, PcOk;
    var p := s.procs[pid];
    assert ProcOk(p, s);
    assert PcOk(p.event, p.pc, s);
    InTxFacts(s, pid, attempt, tx, snap);
    SavesRun(tx, snap, now);
    AttemptShape(s, tx, snap, now, s'.procs);
    assert CommitShape(s, s', tx, snap, now);
    CommitOutbox(s, s', tx, snap, now);
    assert ProcOk(s'.procs[pid], s');
    if !tx.PersistTx? {
      ClaimIsExclusive(s, tx, snap, now, pid, pc);
    }
    CommitInv(s, s', tx, snap, now, pid);
  }

  lemma InTxFacts(s: Sys, pid: nat, attempt: nat, tx: Tx, snap: Snapshot)
    requires Inv(s) && pid in s.procs && s.procs[pid].Worker? && s.procs[pid].pc == InTx(attempt, tx, snap)
    ensures SnapOk(snap, s) && Validated(tx) && Timely(tx, snap.at)
    ensures tx.PersistTx? ==> HeldForDrafting(snap.run)
    ensures Serves(s.procs[pid].event.state, tx)
  {
    hide Sound, Drift;
    assert ProcOk(s.procs[pid], s);
  }

  lemma EndCommittedInv(s: Sys, s': Sys, pid: nat, attempt: nat, tx: Tx, snap: Snapshot, now: Time, t: Tables)
    requires Inv(s) && pid in s.procs && s.procs[pid].Worker? && s.procs[pid].pc == InTx(attempt, tx, snap)
    requires snap.at <= now <= s.clock && Attempt(s.tables, tx, snap, now) == Committed(t)
    requires s' == Move(Commit(s, tx, snap, now, t), pid, Continue(tx, attempt, Committed(t)))
    ensures Inv(s')
  {
    hide Sound, Mutate, Drift;
    var p := s.procs[pid];
    assert ProcOk(p, s);
    if CommitShape(s, s', tx, snap, now) {
      ContinueCommitted(s, s', p.event, attempt, tx, snap, now);
    }
    CommittedInv(s, s', pid, attempt, tx, snap, now, t, Continue(tx, attempt, Committed(t)));
  }

  lemma EndUnseenInv(s: Sys, s': Sys, pid: nat, now: Time, code: string)
    requires Inv(s) && Apply(s, EndUnseen(pid, now, code)) == Some(s')
    ensures Inv(s')
  {
    hide Sound, Mutate, Drift, CommitShape;
    var InTx(attempt, tx, snap) := s.procs[pid].pc;
    InTxFacts(s, pid, attempt, tx, snap);
    CommittedInv(s, s', pid, attempt, tx, snap, now, Attempt(s.tables, tx, snap, now).tables, s'.procs[pid].pc);
  }

  lemma EndInv(s: Sys, s': Sys, pid: nat, now: Time)
    requires Inv(s) && Apply(s, End(pid, now)) == Some(s')
    ensures Inv(s')
  {
    hide Sound, Mutate, Drift;
    var p := s.procs[pid];
    var InTx(attempt, tx, snap) := p.pc;
    var result := Attempt(s.tables, tx, snap, now);
    if result.Committed? {
      EndCommittedInv(s, s', pid, attempt, tx, snap, now, result.tables);
    } else {
      assert ProcOk(p, s);
      ContinueUncommitted(s, p.event, attempt, tx, snap, now);
      MoveInv(s, s', pid, Continue(tx, attempt, result));
    }
  }

  // ----- The remaining steps -----

  lemma TickInv(s: Sys, s': Sys, elapsed: nat)
    requires Inv(s) && Apply(s, Tick(elapsed)) == Some(s')
    ensures Inv(s')
  {
    hide Mutate;
    forall q | q in s'.procs
      ensures ProcOk(s'.procs[q], s')
    {
      QuietOther(s, s', s.procs[q]);
    }
  }

  lemma HttpBeginInv(s: Sys, s': Sys, pid: nat, tx: Tx)
    requires Inv(s) && Apply(s, HttpBegin(pid, tx)) == Some(s')
    ensures Inv(s')
  {
    hide Sound, Mutate;
    QuietInv(s, s', pid);
  }

  lemma SelectInv(s: Sys, s': Sys, pid: nat, event: nat)
    requires Inv(s) && Apply(s, Select(pid, event)) == Some(s')
    ensures Inv(s')
  {
    hide Sound, Mutate, Drift;
    QuietInv(s, s', pid);
  }

  lemma PublishInv(s: Sys, s': Sys, pid: nat, entry: nat)
    requires Inv(s) && Apply(s, Publish(pid, entry)) == Some(s')
    ensures Inv(s')
  {
    hide Sound, Mutate, Drift;
    assert OnStream(s', s.procs[pid].id) by {
      assert entry in s'.stream;
    }
    forall id <- s'.tables.outbox | s'.tables.outbox[id].published
      ensures OnStream(s', id)
    {
      var e :| e in s.stream && s.stream[e].event == id;
      assert e in s'.stream && s'.stream[e].event == id;
    }
    QuietInv(s, s', pid);
  }

  lemma StampInv(s: Sys, s': Sys, pid: nat)
    requires Inv(s) && Apply(s, Stamp(pid)) == Some(s')
    ensures Inv(s')
  {
    hide Sound, Mutate, Drift;
    assert ProcOk(s.procs[pid], s);
    forall id <- s'.tables.outbox | s'.tables.outbox[id].published
      ensures OnStream(s', id)
    {
      assert OnStream(s, id);
    }
    QuietInv(s, s', pid);
  }

  lemma DeliverInv(s: Sys, s': Sys, pid: nat, entry: nat)
    requires Inv(s) && Apply(s, Deliver(pid, entry)) == Some(s')
    ensures Inv(s')
  {
    hide Sound, Mutate, Drift;
    QuietInv(s, s', pid);
  }

  lemma CallHandlerInv(s: Sys, s': Sys, pid: nat)
    requires Inv(s) && Apply(s, CallHandler(pid)) == Some(s')
    ensures Inv(s')
  {
    hide Sound, Mutate, Drift;
    var p := s.procs[pid];
    assert ProcOk(p, s);
    assert EventFits(p.event, s.tables.run);
    MoveInv(s, s', pid, s'.procs[pid].pc);
  }

  lemma BeginInv(s: Sys, s': Sys, pid: nat, tx: Tx)
    requires Inv(s) && Apply(s, Begin(pid, tx)) == Some(s')
    ensures Inv(s')
  {
    hide Sound, Mutate;
    var p := s.procs[pid];
    assert ProcOk(p, s);
    assert EventFits(p.event, s.tables.run);
    MoveInv(s, s', pid, s'.procs[pid].pc);
  }

  lemma AbortInv(s: Sys, s': Sys, pid: nat, code: string, audioInvalid: bool)
    requires Inv(s) && Apply(s, Abort(pid, code, audioInvalid)) == Some(s')
    ensures Inv(s')
  {
    hide Sound, Mutate, Drift;
    assert ProcOk(s.procs[pid], s);
    MoveInv(s, s', pid, s'.procs[pid].pc);
  }

  lemma RunAiInv(s: Sys, s': Sys, pid: nat, analysis: Analysis)
    requires Inv(s) && Apply(s, RunAi(pid, analysis)) == Some(s')
    ensures Inv(s')
  {
    hide Sound, Mutate, Drift;
    assert ProcOk(s.procs[pid], s);
    forall i | 0 <= i < |s.aiRuns|
      ensures s.aiRuns[i] != s.procs[pid].pc.claim
    {
      assert s.aiRuns[i] in s.aiRuns;
    }
    QuietInv(s, s', pid);
  }

  lemma RecordInboxInv(s: Sys, s': Sys, pid: nat)
    requires Inv(s) && Apply(s, RecordInbox(pid)) == Some(s')
    ensures Inv(s')
  {
    hide Sound, Mutate, Drift;
    assert ProcOk(s.procs[pid], s);
    forall id <- s'.tables.outbox | s'.tables.outbox[id].published
      ensures OnStream(s', id)
    {
      assert OnStream(s, id);
    }
    QuietInv(s, s', pid);
  }

  /** Marking an entry acknowledged is harmless once its event is recorded. */
  lemma AckedInv(s: Sys, entry: nat)
    requires Inv(s) && entry in s.stream && s.stream[entry].event in s.inbox
    ensures Inv(s.(stream := s.stream[entry := s.stream[entry].(acked := true)]))
  {
    hide Sound, Mutate, Drift;
    var s' := s.(stream := s.stream[entry := s.stream[entry].(acked := true)]);
    forall id <- s'.tables.outbox | s'.tables.outbox[id].published
      ensures OnStream(s', id)
    {
      var e :| e in s.stream && s.stream[e].event == id;
      assert e in s'.stream && s'.stream[e].event == id;
    }
    forall q | q in s'.procs
      ensures ProcOk(s'.procs[q], s')
    {
      QuietOther(s, s', s.procs[q]);
    }
  }

  lemma AckInv(s: Sys, s': Sys, pid: nat)
    requires Inv(s) && Apply(s, Ack(pid)) == Some(s')
    ensures Inv(s')
  {
    hide Sound, Mutate, Drift;
    assert ProcOk(s.procs[pid], s);
    var entry := s.procs[pid].entry;
    AckedInv(s, entry);
    DropInv(s.(stream := s.stream[entry := s.stream[entry].(acked := true)]), pid);
  }

  lemma StepInv(s: Sys, s': Sys, step: Step)
    requires Inv(s) && Apply(s, step) == Some(s')
    ensures Inv(s')
  {
    hide Inv;
    match step
    case Tick(elapsed) => TickInv(s, s', elapsed);
    case EditNow(tx) => EditNowInv(s, s', tx);
    case HttpBegin(pid, tx) => HttpBeginInv(s, s', pid, tx);
    case HttpEnd(pid, now) => HttpEndInv(s, s', pid, now);
    case Select(pid, event) => SelectInv(s, s', pid, event);
    case Publish(pid, entry) => PublishInv(s, s', pid, entry);
    case Stamp(pid) => StampInv(s, s', pid);
    case Deliver(pid, entry) => DeliverInv(s, s', pid, entry);
    case CheckInbox(pid) => MoveInv(s, s', pid, s'.procs[pid].pc);
    case CallHandler(pid) => CallHandlerInv(s, s', pid);
    case Begin(pid, tx) => BeginInv(s, s', pid, tx);
    case End(pid, now) => EndInv(s, s', pid, now);
    case EndUnseen(pid, now, code) => EndUnseenInv(s, s', pid, now, code);
    case Abort(pid, code, audioInvalid) => AbortInv(s, s', pid, code, audioInvalid);
    case RunAi(pid, analysis) => RunAiInv(s, s', pid, analysis);
    case Rerun(pid) =>
      if pid in s'.procs { MoveInv(s, s', pid, s'.procs[pid].pc); } else { DropInv(s, pid); }
    case RecordInbox(pid) => RecordInboxInv(s, s', pid);
    case Ack(pid) => AckInv(s, s', pid);
    case Crash(pid) => DropInv(s, pid);
  }

  /** The invariant holds in every reachable state. */
  lemma {:induction false} Reachable(trace: seq<Sys>, steps: seq<Step>, i: nat)
    requires Execution(trace, steps) && i < |trace|
    ensures Inv(trace[i])
  {
    if i == 0 {
      InitInv(trace[0]);
    } else {
      Reachable(trace, steps, i - 1);
      assert Apply(trace[i - 1], steps[i - 1]) == Some(trace[i - 1 + 1]);
      StepInv(trace[i - 1], trace[i], steps[i - 1]);
    }
  }
}
