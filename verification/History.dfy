/**
 The chain of committed run rows: what each link is, what a legal chain implies, and
 that every reachable state carries one together with the rows it accounts for.
 */
module History {
  import opened Wrappers
  import opened States
  import opened WorkflowRuns
  import opened Reports
  import opened VisualAudits
  import opened Transactions
  import opened RowInvariants
  import opened Protocol
  import opened SystemInvariant

  /** Row `i` of the chain; row 0 is the created one. */
  function RowAt(origin: RunRow, chain: seq<Link>, i: nat): RunRow
    requires i <= |chain|
  {
    if i == 0 then origin else chain[i - 1].run
  }

  /** The link applies one transaction, computed from exactly the previous row, and raises the version. */
  predicate LegalLink(prev: RunRow, link: Link) {
    && link.snap.run == prev
    && link.snap.at <= link.now <= link.at
    && Validated(link.tx) && Timely(link.tx, link.snap.at)
    && (link.tx.PersistTx? ==> HeldForDrafting(prev))
    && Mutate(link.tx, link.snap, link.now).Success?
    && Mutate(link.tx, link.snap, link.now).value.run == Some(link.run)
    && prev.stateVersion < link.run.stateVersion
    && Joint(prev.state, link.snap.report.status)
    && BookkeepingOk(prev) && InputOk(prev)
    && BookkeepingOk(link.run) && InputOk(link.run)
  }

  predicate LegalChain(origin: RunRow, chain: seq<Link>) {
    forall i :: 0 <= i < |chain| ==> LegalLink(RowAt(origin, chain, i), chain[i])
  }

  /** A row that enters a worker-driven state, or schedules another try of the same one. */
  predicate Enters(prev: RunRow, row: RunRow) {
    WorkerDriven(row.state) && (prev.state != row.state || prev.attempt < row.attempt)
  }

  function EventOf(row: RunRow): DispatchEvent {
    var media := if row.input.transcription.Some? then row.input.transcription.value.mediaAssetId else None;
    if row.state == TranscriptionPending then DispatchEvent(row.stateVersion, row.state, media, row.nextRetryAt)
    else DispatchEvent(row.stateVersion, row.state, None, None)
  }

  /** The events a chain accounts for, read off its rows alone. */
  function Emitted(origin: RunRow, chain: seq<Link>): map<nat, DispatchEvent> {
    if chain == [] then map[origin.stateVersion := EventOf(origin)]
    else
      var front, row := chain[..|chain| - 1], chain[|chain| - 1].run;
      if Enters(RowAt(origin, chain, |chain| - 1), row) then Emitted(origin, front)[row.stateVersion := EventOf(row)]
      else Emitted(origin, front)
  }

  function ReviewEntries(chain: seq<Link>): nat {
    if chain == [] then 0
    else ReviewEntries(chain[..|chain| - 1]) + (if chain[|chain| - 1].run.state == ReviewPending then 1 else 0)
  }

  /** Links that move a drafted run to review. */
  function DraftsReviewed(chain: seq<Link>): nat {
    if chain == [] then 0
    else
      var link := chain[|chain| - 1];
      DraftsReviewed(chain[..|chain| - 1]) + (if link.tx.PersistTx? && link.run.state == ReviewPending then 1 else 0)
  }

  predicate ChainOk(s: Sys) {
    && LegalChain(s.origin, s.chain)
    && s.tables.run == RowAt(s.origin, s.chain, |s.chain|)
    && BookkeepingOk(s.origin) && InputOk(s.origin)
  }

  predicate Accounted(outbox: map<nat, OutboxRow>, emitted: map<nat, DispatchEvent>) {
    && outbox.Keys == emitted.Keys
    && forall id <- outbox :: outbox[id].event == emitted[id]
  }

  /** The review stage has been entered once if the report is in it or past it, and never before. */
  predicate ReviewOk(s: Sys) {
    && ReviewEntries(s.chain) == (if s.tables.run.state == ReviewPending || s.tables.report.status != Draft then 1 else 0)
    && |s.tables.audits| == DraftsReviewed(s.chain) <= ReviewEntries(s.chain)
  }

  predicate PdfOk(s: Sys) {
    |s.tables.pdfs| == (if s.tables.run.state == Completed then 1 else 0)
  }

  // ----- Every step is quiet or a commit -----

  /** What a step did to the committed rows. */
  datatype Shape = Still | Committing(tx: Tx, snap: Snapshot, now: Time)

  predicate HasShape(s: Sys, s': Sys, shape: Shape) {
    match shape
    case Still => Quiet(s, s')
    case Committing(tx, snap, now) => CommitShape(s, s', tx, snap, now)
  }

  /** What the step commits, if it commits anything. */
  function Happening(s: Sys, step: Step): Shape {
    match step
    case EditNow(tx) =>
      if Attempt(s.tables, tx, Cur(s), s.clock).Committed? then Committing(tx, Cur(s), s.clock) else Still
    case HttpEnd(pid, now) =>
      if pid in s.procs && s.procs[pid].Http? then Ending(s, s.procs[pid].tx, s.procs[pid].snap, now) else Still
    case End(pid, now) =>
      if pid in s.procs && s.procs[pid].Worker? && s.procs[pid].pc.InTx? then
        Ending(s, s.procs[pid].pc.tx, s.procs[pid].pc.snap, now)
      else Still
    case EndUnseen(pid, now, _) =>
      if pid in s.procs && s.procs[pid].Worker? && s.procs[pid].pc.InTx? then
        Ending(s, s.procs[pid].pc.tx, s.procs[pid].pc.snap, now)
      else Still
    case _ => Still
  }

  function Ending(s: Sys, tx: Tx, snap: Snapshot, now: Time): Shape {
    if Attempt(s.tables, tx, snap, now).Committed? then Committing(tx, snap, now) else Still
  }

  lemma ShapeOfEdit(s: Sys, s': Sys, tx: Tx)
    requires Inv(s) && Apply(s, EditNow(tx)) == Some(s')
    ensures HasShape(s, s', Happening(s, EditNow(tx)))
  {
    hide Sound, Mutate;
    if Attempt(s.tables, tx, Cur(s), s.clock).Committed? {
      AttemptShape(s, tx, Cur(s), s.clock, s.procs);
    }
  }

  lemma ShapeOfHttpEnd(s: Sys, s': Sys, pid: nat, now: Time)
    requires Inv(s) && Apply(s, HttpEnd(pid, now)) == Some(s')
    ensures HasShape(s, s', Happening(s, HttpEnd(pid, now)))
    ensures var shape := Happening(s, HttpEnd(pid, now)); shape.Committing? ==> !shape.tx.ConfirmTx?
  {
    hide Sound, Mutate;
    var p := s.procs[pid];
    assert ProcOk(p, s);
    if Attempt(s.tables, p.tx, p.snap, now).Committed? {
      SavesRun(p.tx, p.snap, now);
      AttemptShape(s, p.tx, p.snap, now, s.procs - {pid});
    }
  }

  lemma ShapeOfEnd(s: Sys, s': Sys, pid: nat, now: Time)
    requires Inv(s) && Apply(s, End(pid, now)) == Some(s')
    ensures HasShape(s, s', Happening(s, End(pid, now)))
    ensures var shape := Happening(s, End(pid, now)); shape.Committing? ==> !shape.tx.ConfirmTx?
  {
    hide Sound, Mutate, Continue, PcOk;
    var InTx(attempt, tx, snap) := s.procs[pid].pc;
    InTxFacts(s, pid, attempt, tx, snap);
    if Attempt(s.tables, tx, snap, now).Committed? {
      SavesRun(tx, snap, now);
      AttemptShape(s, tx, snap, now, s'.procs);
    }
  }

  lemma ShapeOfUnseen(s: Sys, s': Sys, pid: nat, now: Time, code: string)
    requires Inv(s) && Apply(s, EndUnseen(pid, now, code)) == Some(s')
    ensures HasShape(s, s', Happening(s, EndUnseen(pid, now, code)))
    ensures var shape := Happening(s, EndUnseen(pid, now, code)); shape.Committing? ==> !shape.tx.ConfirmTx?
  {
    hide Sound, Mutate, Aborted;
    var InTx(attempt, tx, snap) := s.procs[pid].pc;
    InTxFacts(s, pid, attempt, tx, snap);
    SavesRun(tx, snap, now);
    AttemptShape(s, tx, snap, now, s'.procs);
  }

  lemma MessagingIsQuiet(s: Sys, s': Sys, step: Step)
    requires Apply(s, step) == Some(s')
    requires step.Tick? || step.Publish? || step.Stamp? || step.Ack? || step.RecordInbox? || step.RunAi?
    ensures Quiet(s, s')
  {
  }

  lemma BookkeepingIsQuiet(s: Sys, s': Sys, step: Step)
    requires Apply(s, step) == Some(s')
    requires !(step.Tick? || step.Publish? || step.Stamp? || step.Ack? || step.RecordInbox? || step.RunAi?)
    requires !(step.EditNow? || step.HttpEnd? || step.End? || step.EndUnseen?)
    ensures Quiet(s, s')
  {
    hide Continue, Aborted, MayBegin, Validated;
  }

  lemma ShapeOf(s: Sys, s': Sys, step: Step) returns (shape: Shape)
    requires Inv(s) && Apply(s, step) == Some(s')
    ensures shape == Happening(s, step) && HasShape(s, s', shape)
    ensures shape.Committing? && shape.tx.ConfirmTx? ==> step == EditNow(ConfirmTx) && shape.snap == Cur(s)
  {
    hide Inv, CommitShape, Quiet, Apply, Attempt;
    shape := Happening(s, step);
    match step
    case EditNow(tx) => ShapeOfEdit(s, s', tx);
    case HttpEnd(pid, now) => ShapeOfHttpEnd(s, s', pid, now);
    case End(pid, now) => ShapeOfEnd(s, s', pid, now);
    case EndUnseen(pid, now, code) => ShapeOfUnseen(s, s', pid, now, code);
    case _ =>
      if step.Tick? || step.Publish? || step.Stamp? || step.Ack? || step.RecordInbox? || step.RunAi? {
        MessagingIsQuiet(s, s', step);
      } else {
        BookkeepingIsQuiet(s, s', step);
      }
  }

  // ----- Appending one link -----

  lemma ReviewEntriesAppend(chain: seq<Link>, link: Link)
    ensures ReviewEntries(chain + [link]) == ReviewEntries(chain) + (if link.run.state == ReviewPending then 1 else 0)
    ensures DraftsReviewed(chain + [link])
         == DraftsReviewed(chain) + (if link.tx.PersistTx? && link.run.state == ReviewPending then 1 else 0)
  {
    assert (chain + [link])[..|chain|] == chain;
  }

  lemma EmittedAppend(origin: RunRow, chain: seq<Link>, link: Link)
    ensures Emitted(origin, chain + [link])
         == if Enters(RowAt(origin, chain, |chain|), link.run) then Emitted(origin, chain)[link.run.stateVersion := EventOf(link.run)]
            else Emitted(origin, chain)
  {
    hide Enters, EventOf;
    assert (chain + [link])[..|chain|] == chain;
    assert RowAt(origin, chain + [link], |chain|) == RowAt(origin, chain, |chain|);
  }

  // ----- Commits extend the history -----

  lemma {:induction false} ExtendChain(origin: RunRow, chain: seq<Link>, link: Link)
    requires LegalChain(origin, chain) && LegalLink(RowAt(origin, chain, |chain|), link)
    ensures LegalChain(origin, chain + [link])
    ensures RowAt(origin, chain + [link], |chain| + 1) == link.run
  {
    hide LegalLink;
    var longer := chain + [link];
    forall i | 0 <= i < |longer|
      ensures LegalLink(RowAt(origin, longer, i), longer[i])
    {
      if i < |chain| {
        assert LegalLink(RowAt(origin, chain, i), chain[i]);
      }
      assert RowAt(origin, longer, i) == RowAt(origin, chain, i);
    }
  }

  lemma CommitChain(s: Sys, s': Sys, tx: Tx, snap: Snapshot, now: Time)
    requires ChainOk(s) && CommitShape(s, s', tx, snap, now)
    ensures ChainOk(s')
    ensures if Mutate(tx, snap, now).value.run.Some? then
              s'.chain == s.chain + [Link(tx, snap, now, s.clock, s'.tables.run)]
            else s'.chain == s.chain && s'.tables.run == s.tables.run
  {
    hide Mutate, LegalChain, SigningOk, ConfirmedOk, Joint, BookkeepingOk, InputOk;
    SavedRun(tx, snap, now, Cur(s), s.confirmations);
    if Mutate(tx, snap, now).value.run.Some? {
      CommitKeepsRun(tx, snap, now, Cur(s), s.confirmations);
      ExtendChain(s.origin, s.chain, Link(tx, snap, now, s.clock, s'.tables.run));
    }
  }

  /** The events a transaction dispatches are those its row accounts for. */
  lemma PersonEventsAreEntries(prev: RunRow, link: Link)
    requires LegalLink(prev, link) && ByPerson(link.tx)
    ensures Mutate(link.tx, link.snap, link.now).value.events
         == if Enters(prev, link.run) then [EventOf(link.run)] else []
  {
    hide Joint, Request, Pow2;
  }

  lemma WorkerEventsAreEntries(prev: RunRow, link: Link)
    requires LegalLink(prev, link) && !ByPerson(link.tx)
    ensures Mutate(link.tx, link.snap, link.now).value.events
         == if Enters(prev, link.run) then [EventOf(link.run)] else []
  {
    hide Joint, Request, Pow2;
  }

  lemma EventsAreEntries(prev: RunRow, link: Link)
    requires LegalLink(prev, link)
    ensures Mutate(link.tx, link.snap, link.now).value.events
         == if Enters(prev, link.run) then [EventOf(link.run)] else []
  {
    hide LegalLink, Mutate, Enters;
    if ByPerson(link.tx) {
      PersonEventsAreEntries(prev, link);
    } else {
      WorkerEventsAreEntries(prev, link);
    }
  }

  lemma CommitAccounted(s: Sys, s': Sys, tx: Tx, snap: Snapshot, now: Time)
    requires ChainOk(s) && CommitShape(s, s', tx, snap, now)
    requires Accounted(s.tables.outbox, Emitted(s.origin, s.chain))
    ensures Accounted(s'.tables.outbox, Emitted(s'.origin, s'.chain))
  {
    hide Mutate, Sound, Drift, Emitted, EventOf, Enters, BookkeepingOk, InputOk, Joint, LegalLink;
    CommitChain(s, s', tx, snap, now);
    var e := Mutate(tx, snap, now).value;
    if e.run.Some? {
      var link := s'.chain[|s.chain|];
      assert LegalLink(RowAt(s'.origin, s'.chain, |s.chain|), link);
      EventsAreEntries(s.tables.run, link);
      EmittedAppend(s.origin, s.chain, link);
      if Enters(s.tables.run, link.run) {
        var event := EventOf(link.run);
        assert e.events == [event];
        assert AddEvents(s.tables.outbox, e.events) == s.tables.outbox[event.id := OutboxRow(event, false)];
        EventNamedByVersion(link.run);
      }
    } else {
      Unsaved(tx, snap, now, Cur(s), s.confirmations);
    }
  }

  lemma EventNamedByVersion(row: RunRow)
    ensures EventOf(row).id == row.stateVersion
  {
  }

  predicate ReachedReview(state: WorkflowState, status: Status) {
    state == ReviewPending || status != Draft
  }

  /** Review is entered only by reports that never reached it, and never left without a signature step. */
  lemma ReviewMove(tx: Tx, snap: Snapshot, now: Time, cur: Snapshot, c: Confirmations)
    requires Commits(tx, snap, now, cur, c)
    requires Mutate(tx, snap, now).value.run.Some?
    ensures var e := Mutate(tx, snap, now).value;
            var cur' := Following(cur, e);
            && |e.audits| == (if tx.PersistTx? && cur'.run.state == ReviewPending then 1 else 0)
            && (cur'.run.state == ReviewPending ==> !ReachedReview(cur.run.state, cur.report.status))
            && (cur'.run.state != ReviewPending ==>
                  (ReachedReview(cur'.run.state, cur'.report.status) <==> ReachedReview(cur.run.state, cur.report.status)))
  {
    hide SigningOk, ConfirmedOk, InputOk, Request, Pow2;
  }

  lemma CommitReview(s: Sys, s': Sys, tx: Tx, snap: Snapshot, now: Time)
    requires ChainOk(s) && ReviewOk(s) && CommitShape(s, s', tx, snap, now)
    ensures ReviewOk(s')
  {
    hide Mutate, LegalChain, Sound, Drift, BookkeepingOk, InputOk, ReviewEntries, DraftsReviewed, AddEvents;
    CommitChain(s, s', tx, snap, now);
    if Mutate(tx, snap, now).value.run.Some? {
      ReviewEntriesAppend(s.chain, Link(tx, snap, now, s.clock, s'.tables.run));
      ReviewMove(tx, snap, now, Cur(s), s.confirmations);
    } else {
      Unsaved(tx, snap, now, Cur(s), s.confirmations);
    }
  }

  lemma CommitPdf(s: Sys, s': Sys, tx: Tx, snap: Snapshot, now: Time)
    requires PdfOk(s) && CommitShape(s, s', tx, snap, now)
    ensures PdfOk(s')
  {
    hide SigningOk, ConfirmedOk, InputOk, Request, Pow2;
  }

  predicate HistoryOk(s: Sys) {
    && ChainOk(s)
    && Accounted(s.tables.outbox, Emitted(s.origin, s.chain))
    && ReviewOk(s)
    && PdfOk(s)
  }

  lemma QuietHistory(s: Sys, s': Sys)
    requires HistoryOk(s) && Quiet(s, s')
    ensures HistoryOk(s') && s'.chain == s.chain && s'.origin == s.origin
  {
    hide LegalChain, Emitted, ReviewEntries, DraftsReviewed, BookkeepingOk, InputOk;
  }

  lemma StepHistory(s: Sys, s': Sys, step: Step)
    requires Inv(s) && HistoryOk(s) && Apply(s, step) == Some(s')
    ensures HistoryOk(s')
    ensures s.chain <= s'.chain && s.origin == s'.origin
  {
    hide Inv, Apply, CommitShape, Accounted, ReviewOk, PdfOk, LegalChain, Mutate;
    var shape := ShapeOf(s, s', step);
    match shape
    case Still => QuietHistory(s, s');
    case Committing(tx, snap, now) =>
      CommitChain(s, s', tx, snap, now);
      CommitAccounted(s, s', tx, snap, now);
      CommitReview(s, s', tx, snap, now);
      CommitPdf(s, s', tx, snap, now);
      CommitOrigin(s, s', tx, snap, now);
  }

  lemma CommitOrigin(s: Sys, s': Sys, tx: Tx, snap: Snapshot, now: Time)
    requires CommitShape(s, s', tx, snap, now)
    ensures s'.origin == s.origin
  {
  }

  lemma InitHistory(s: Sys)
    requires Init(s)
    ensures HistoryOk(s)
  {
  }

  /** Every reachable state satisfies both invariants, and history only grows along a run. */
  lemma {:induction false} ReachableHistory(trace: seq<Sys>, steps: seq<Step>, i: nat)
    requires Execution(trace, steps) && i < |trace|
    ensures Inv(trace[i]) && HistoryOk(trace[i])
  {
    hide Inv, HistoryOk, Apply;
    Reachable(trace, steps, i);
    if i == 0 {
      InitHistory(trace[0]);
    } else {
      ReachableHistory(trace, steps, i - 1);
      assert Apply(trace[i - 1], steps[i - 1]) == Some(trace[i - 1 + 1]);
      StepHistory(trace[i - 1], trace[i], steps[i - 1]);
    }
  }

  lemma {:induction false} HistoryGrows(trace: seq<Sys>, steps: seq<Step>, i: nat, j: nat)
    requires Execution(trace, steps) && i <= j < |trace|
    ensures trace[i].chain <= trace[j].chain && trace[i].origin == trace[j].origin
    decreases j - i
  {
    hide Inv, HistoryOk, Apply;
    if i < j {
      HistoryGrows(trace, steps, i, j - 1);
      ReachableHistory(trace, steps, j - 1);
      assert Apply(trace[j - 1], steps[j - 1]) == Some(trace[j - 1 + 1]);
      StepHistory(trace[j - 1], trace[j], steps[j - 1]);
    }
  }
}
