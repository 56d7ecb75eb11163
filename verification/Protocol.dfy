/**
 The interleaved system around one report: HTTP requests, the outbox publisher, the two
 streams with their at-least-once consumers, and the activities those consumers run.

 A transaction is a load (`HttpBegin`, `Begin`) and a later commit attempt (`HttpEnd`, `End`);
 anything may happen in between, and any process may crash. The last four fields are
 history: the rows committed so far, what confirmations saw, and which claims paid for AI work.
 */
module Protocol {
  import opened Wrappers
  import opened States
  import opened WorkflowRuns
  import opened Reports
  import opened Transactions
  import opened RowInvariants
  import Failover

  datatype Stream = StepStream | AudioStream

  datatype Entry = Entry(event: nat, stream: Stream, acked: bool)

  /** Where a worker is in processing one delivered stream entry. */
  datatype Pc =
    | Received
    | Calling(attempt: nat)
    | Active(attempt: nat, startedAt: Time)
    | InTx(attempt: nat, tx: Tx, snap: Snapshot)
    | Holding(attempt: nat, claim: nat, result: Option<Analysis>)
    | Parking(attempt: nat)
    | Transcribing(attempt: nat)
    | Failing(attempt: nat, code: string)
    | Raising(attempt: nat)
    | Handled
    | Recorded

  /** A publisher has read an unstamped row; it may send and stamp it long after another one has. */
  datatype Proc =
    | Http(tx: Tx, snap: Snapshot)
    | Publisher(id: nat, sent: bool)
    | Worker(entry: nat, event: DispatchEvent, pc: Pc)

  /** One committed row of the run: which transaction wrote it, from which snapshot, and when. */
  datatype Link = Link(tx: Tx, snap: Snapshot, now: Time, at: Time, run: RunRow)

  datatype Sys = Sys(
    tables: Tables,
    clock: Time,
    stream: map<nat, Entry>,
    inbox: set<nat>,
    procs: map<nat, Proc>,
    origin: RunRow,
    chain: seq<Link>,
    confirmations: Confirmations,
    aiRuns: seq<nat>)

  function Cur(s: Sys): Snapshot {
    Snapshot(s.tables.run, s.tables.report, s.clock)
  }

  /** Transcription requests have a stream of their own. */
  function StreamFor(event: DispatchEvent): Stream {
    if event.state == TranscriptionPending then AudioStream else StepStream
  }

  function MaxAttempts(event: DispatchEvent): nat {
    if StreamFor(event) == AudioStream then 3 else 5
  }

  predicate Due(event: DispatchEvent, now: Time) {
    event.notBefore.None? || event.notBefore.value <= now
  }

  // ----- Initial states -----

  /** The input of a create request: typed notes, or an attached recording. */
  datatype ReportInput = Notes(text: string) | Audio(asset: AssetId)

  function InitialRun(input: ReportInput): RunRow {
    match input
    case Notes(text) => Start(DraftingPending, InputData(None, Some(text)))
    case Audio(asset) => Start(TranscriptionPending, InputData(Some(TranscriptionInput(Some(asset), None)), None))
  }

  function Created(input: ReportInput, currency: string): Tables {
    var run := InitialRun(input);
    var event := DispatchEvent(0, run.state, if input.Audio? then Some(input.asset) else None, None);
    Tables(run, NewDraft(currency), map[0 := OutboxRow(event, false)], [], [])
  }

  ghost predicate Init(s: Sys) {
    exists input: ReportInput, currency: string :: InitWith(s, input, currency)
  }

  predicate InitWith(s: Sys, input: ReportInput, currency: string) {
    && (input.Notes? ==> 20 <= |input.text|)
    && s.tables == Created(input, currency)
    && s.stream == map[] && s.inbox == {} && s.procs == map[]
    && s.origin == s.tables.run && s.chain == []
    && s.confirmations == Confirmations(false, {}) && s.aiRuns == []
  }

  // ----- Steps -----

  datatype Step =
    | Tick(elapsed: nat)
    | EditNow(tx: Tx)
    | HttpBegin(pid: nat, tx: Tx)
    | HttpEnd(pid: nat, now: Time)
    | Select(pid: nat, event: nat)
    | Publish(pid: nat, entry: nat)
    | Stamp(pid: nat)
    | Deliver(pid: nat, entry: nat)
    | CheckInbox(pid: nat)
    | CallHandler(pid: nat)
    | Begin(pid: nat, tx: Tx)
    | End(pid: nat, now: Time)
    | EndUnseen(pid: nat, now: Time, code: string)
    | Abort(pid: nat, code: string, audioInvalid: bool)
    | RunAi(pid: nat, analysis: Analysis)
    | Rerun(pid: nat)
    | RecordInbox(pid: nat)
    | Ack(pid: nat)
    | Crash(pid: nat)

  /** A committed transaction: new tables, one more link if the run was saved, confirmations noted. */
  function Commit(s: Sys, tx: Tx, snap: Snapshot, now: Time, t: Tables): Sys {
    s.(tables := t,
    chain := if t.run.stateVersion == s.tables.run.stateVersion then s.chain
    else s.chain + [Link(tx, snap, now, s.clock, t.run)],
    confirmations := Noted(tx, Cur(s), s.confirmations))
  }

  function Move(s: Sys, pid: nat, pc: Pc): Sys
    requires pid in s.procs && s.procs[pid].Worker?
  {
    s.(procs := s.procs[pid := s.procs[pid].(pc := pc)])
  }

  function Drop(s: Sys, pid: nat): Sys {
    s.(procs := s.procs - {pid})
  }

  /** A report-only request: its load and save are one step. */
  function DoEditNow(s: Sys, tx: Tx): Option<Sys> {
    if !(tx.ConfirmTx? || (tx.UpdateTx? && s.tables.run.state != ManualInputRequired)) then None
    else match Attempt(s.tables, tx, Cur(s), s.clock)
         case Committed(t) => Some(Commit(s, tx, Cur(s), s.clock, t))
         case _ => Some(s)
  }

  function DoHttpBegin(s: Sys, pid: nat, tx: Tx): Option<Sys> {
    if pid in s.procs || !ByPerson(tx) || !Validated(tx) || tx.ConfirmTx?
       || (tx.UpdateTx? && s.tables.run.state != ManualInputRequired) then None
    else Some(s.(procs := s.procs[pid := Http(tx, Cur(s))]))
  }

  function DoHttpEnd(s: Sys, pid: nat, now: Time): Option<Sys> {
    if pid !in s.procs || !s.procs[pid].Http? || !(s.procs[pid].snap.at <= now <= s.clock) then None
    else
      var p := s.procs[pid];
      match Attempt(s.tables, p.tx, p.snap, now)
      case Committed(t) => Some(Drop(Commit(s, p.tx, p.snap, now, t), pid))
      case _ => Some(Drop(s, pid))
  }

  /** The publisher's query returns unstamped rows only. */
  function DoSelect(s: Sys, pid: nat, event: nat): Option<Sys> {
    if pid in s.procs || event !in s.tables.outbox || s.tables.outbox[event].published then None
    else Some(s.(procs := s.procs[pid := Publisher(event, false)]))
  }

  function DoPublish(s: Sys, pid: nat, entry: nat): Option<Sys> {
    if || pid !in s.procs || !s.procs[pid].Publisher? || s.procs[pid].sent
       || entry in s.stream || s.procs[pid].id !in s.tables.outbox then None
    else
      var id := s.procs[pid].id;
      Some(s.(stream := s.stream[entry := Entry(id, StreamFor(s.tables.outbox[id].event), false)],
              procs := s.procs[pid := Publisher(id, true)]))
  }

  /** A publisher stamps the row it has just sent. */
  function DoStamp(s: Sys, pid: nat): Option<Sys> {
    if pid !in s.procs || !s.procs[pid].Publisher? || !s.procs[pid].sent || s.procs[pid].id !in s.tables.outbox then None
    else
      var id := s.procs[pid].id;
      Some(Drop(s, pid).(tables := s.tables.(outbox := s.tables.outbox[id := s.tables.outbox[id].(published := true)])))
  }

  /** New reads and reclaimed pending entries alike: any entry not yet acknowledged. */
  function DoDeliver(s: Sys, pid: nat, entry: nat): Option<Sys> {
    if pid in s.procs || entry !in s.stream || s.stream[entry].acked || s.stream[entry].event !in s.tables.outbox then None
    else Some(s.(procs := s.procs[pid := Worker(entry, s.tables.outbox[s.stream[entry].event].event, Received)]))
  }

  function DoCheckInbox(s: Sys, pid: nat): Option<Sys> {
    if pid !in s.procs || !s.procs[pid].Worker? || !s.procs[pid].pc.Received? then None
    else Some(Move(s, pid, if s.procs[pid].event.id in s.inbox then Recorded else Calling(0)))
  }

  /**
   Enter the dispatcher. Drafting and PDF events are skipped when the run is not in their
   state; a transcription event sleeps until it is due.
   */
  function DoCallHandler(s: Sys, pid: nat): Option<Sys> {
    if pid !in s.procs || !s.procs[pid].Worker? || !s.procs[pid].pc.Calling? then None
    else
      var p := s.procs[pid];
      if p.event.state == TranscriptionPending then
        if !Due(p.event, s.clock) then None else Some(Move(s, pid, Active(p.pc.attempt, s.clock)))
      else if s.tables.run.state != p.event.state then Some(Move(s, pid, Handled))
      else Some(Move(s, pid, Active(p.pc.attempt, s.clock)))
  }

  /** Which transaction an activity may start at which point. */
  predicate MayBegin(p: Proc, tx: Tx, clock: Time)
    requires p.Worker?
  {
    match p.pc
    case Active(_, startedAt) =>
      (match p.event.state
       case DraftingPending => tx.ClaimDraftTx?
       case PdfPending => tx.GenerateTx?
       case TranscriptionPending => tx == ClaimAudioTx(startedAt)
       case _ => false)
    case Holding(_, _, result) => result.Some? && tx == PersistTx(result.value)
    case Parking(_) => tx.ParkTx? && tx.startedAt <= clock
    case Transcribing(_) => (tx.HeartbeatTx? && tx.now <= clock) || tx.CompleteAudioTx?
    case Failing(_, code) => tx.FailAudioTx? && tx.code == code && tx.finishedAt <= clock
    case _ => false
  }

  function DoBegin(s: Sys, pid: nat, tx: Tx): Option<Sys> {
    if pid !in s.procs || !s.procs[pid].Worker? || !MayBegin(s.procs[pid], tx, s.clock) || !Validated(tx) then None
    else Some(Move(s, pid, InTx(s.procs[pid].pc.attempt, tx, Cur(s))))
  }

  /** Where the activity continues after its transaction ended one way or the other. */
  function Continue(tx: Tx, attempt: nat, result: TxResult): Pc {
    match tx
    case ClaimDraftTx =>
      (match result
       case Committed(t) => Holding(attempt, t.run.stateVersion, None)
       case Lost => Handled
       case Refused(Declined) => Handled
       case Refused(Raised(_)) => Raising(attempt))
    case GenerateTx(_) => if result.Committed? then Handled else Parking(attempt)
    case ClaimAudioTx(_) =>
      (match result
       case Committed(_) => Transcribing(attempt)
       case Lost => Handled
       case Refused(Declined) => Handled
       case Refused(Raised(_)) => Failing(attempt, Failover.AUDIO_INVALID))
    case HeartbeatTx(_) => Transcribing(attempt)
    case CompleteAudioTx(_) =>
      (match result
       case Committed(_) => Handled
       case Refused(Raised(AudioInvalid)) => Failing(attempt, Failover.AUDIO_INVALID)
       case _ => Failing(attempt, Failover.TRANSCRIPTION_UNAVAILABLE))
    case _ => if result.Committed? || result == Refused(Declined) then Handled else Raising(attempt)
  }

  function DoEnd(s: Sys, pid: nat, now: Time): Option<Sys> {
    if pid !in s.procs || !s.procs[pid].Worker? || !s.procs[pid].pc.InTx? then None
    else
      var InTx(attempt, tx, snap) := s.procs[pid].pc;
      if !(snap.at <= now <= s.clock) then None
      else
        var result := Attempt(s.tables, tx, snap, now);
        var s' := if result.Committed? then Commit(s, tx, snap, now, result.tables) else s;
        Some(Move(s', pid, Continue(tx, attempt, result)))
  }

  /** An external failure: missing rows, storage, rendering, a provider, the database itself. */
  function Aborted(pc: Pc, code: string, audioInvalid: bool): Option<Pc> {
    match pc
    case InTx(attempt, GenerateTx(_), _) => Some(Parking(attempt))
    case InTx(attempt, ClaimAudioTx(_), _) =>
      Some(if audioInvalid then Failing(attempt, Failover.AUDIO_INVALID) else Raising(attempt))
    case InTx(attempt, CompleteAudioTx(_), _) => Some(Failing(attempt, code))
    case InTx(attempt, HeartbeatTx(_), _) => Some(Failing(attempt, code))
    case Transcribing(attempt) => Some(Failing(attempt, code))
    case InTx(attempt, _, _) => Some(Raising(attempt))
    case Calling(attempt) => Some(Raising(attempt))
    case Active(attempt, _) => Some(Raising(attempt))
    case Holding(attempt, _, _) => Some(Raising(attempt))
    case Parking(attempt) => Some(Raising(attempt))
    case Failing(attempt, _) => Some(Raising(attempt))
    case _ => None
  }

  /** The recording is looked at only after the claim was saved; a bad one rolls the claim back. */
  predicate RecordingChecked(s: Sys, pc: Pc) {
    pc.InTx? && pc.tx.ClaimAudioTx? && Attempt(s.tables, pc.tx, pc.snap, s.clock).Committed?
  }

  function DoAbort(s: Sys, pid: nat, code: string, audioInvalid: bool): Option<Sys> {
    if || pid !in s.procs || !s.procs[pid].Worker? || Aborted(s.procs[pid].pc, code, audioInvalid).None?
       || (audioInvalid && !RecordingChecked(s, s.procs[pid].pc)) then None
    else Some(Move(s, pid, Aborted(s.procs[pid].pc, code, audioInvalid).value))
  }

  /** The commit takes effect, but its worker sees the connection fail. */
  function DoEndUnseen(s: Sys, pid: nat, now: Time, code: string): Option<Sys> {
    if pid !in s.procs || !s.procs[pid].Worker? || !s.procs[pid].pc.InTx? then None
    else
      var InTx(_, tx, snap) := s.procs[pid].pc;
      if !(snap.at <= now <= s.clock) || !Attempt(s.tables, tx, snap, now).Committed? then None
      else
        Some(Move(Commit(s, tx, snap, now, Attempt(s.tables, tx, snap, now).tables), pid,
                  Aborted(s.procs[pid].pc, code, false).value))
  }

  /** The paid AI calls, made by whoever holds the claim. */
  function DoRunAi(s: Sys, pid: nat, analysis: Analysis): Option<Sys> {
    if pid !in s.procs || !s.procs[pid].Worker? || !s.procs[pid].pc.Holding? || s.procs[pid].pc.result.Some? then None
    else
      var Holding(attempt, claim, _) := s.procs[pid].pc;
      Some(Move(s, pid, Holding(attempt, claim, Some(analysis))).(aiRuns := s.aiRuns + [claim]))
  }

  /** After an exception: call again, or give up and leave the entry pending. */
  function DoRerun(s: Sys, pid: nat): Option<Sys> {
    if pid !in s.procs || !s.procs[pid].Worker? || !s.procs[pid].pc.Raising? then None
    else
      var attempt := s.procs[pid].pc.attempt + 1;
      if attempt >= MaxAttempts(s.procs[pid].event) then Some(Drop(s, pid))
      else Some(Move(s, pid, Calling(attempt)))
  }

  function DoRecordInbox(s: Sys, pid: nat): Option<Sys> {
    if pid !in s.procs || !s.procs[pid].Worker? || !s.procs[pid].pc.Handled? then None
    else Some(Move(s, pid, Recorded).(inbox := s.inbox + {s.procs[pid].event.id}))
  }

  function DoAck(s: Sys, pid: nat): Option<Sys> {
    if pid !in s.procs || !s.procs[pid].Worker? || !s.procs[pid].pc.Recorded? || s.procs[pid].entry !in s.stream then None
    else
      var e := s.procs[pid].entry;
      Some(Drop(s, pid).(stream := s.stream[e := s.stream[e].(acked := true)]))
  }

  function Apply(s: Sys, step: Step): Option<Sys> {
    match step
    case Tick(elapsed) => Some(s.(clock := s.clock + elapsed))
    case EditNow(tx) => DoEditNow(s, tx)
    case HttpBegin(pid, tx) => DoHttpBegin(s, pid, tx)
    case HttpEnd(pid, now) => DoHttpEnd(s, pid, now)
    case Select(pid, event) => DoSelect(s, pid, event)
    case Publish(pid, entry) => DoPublish(s, pid, entry)
    case Stamp(pid) => DoStamp(s, pid)
    case Deliver(pid, entry) => DoDeliver(s, pid, entry)
    case CheckInbox(pid) => DoCheckInbox(s, pid)
    case CallHandler(pid) => DoCallHandler(s, pid)
    case Begin(pid, tx) => DoBegin(s, pid, tx)
    case End(pid, now) => DoEnd(s, pid, now)
    case EndUnseen(pid, now, code) => DoEndUnseen(s, pid, now, code)
    case Abort(pid, code, audioInvalid) => DoAbort(s, pid, code, audioInvalid)
    case RunAi(pid, analysis) => DoRunAi(s, pid, analysis)
    case Rerun(pid) => DoRerun(s, pid)
    case RecordInbox(pid) => DoRecordInbox(s, pid)
    case Ack(pid) => DoAck(s, pid)
    case Crash(pid) => if pid in s.procs then Some(Drop(s, pid)) else None
  }

  /** A run of the system: an initial state and the steps taken. */
  ghost predicate Execution(trace: seq<Sys>, steps: seq<Step>) {
    && |trace| == |steps| + 1
    && Init(trace[0])
    && forall i :: 0 <= i < |steps| ==> Apply(trace[i], steps[i]) == Some(trace[i + 1])
  }
}
