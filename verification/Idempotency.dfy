/**
 The Idempotency-Key protocol: any number of concurrent requests claim, run, complete,
 release or poll the one row of their (key, organization).
 */
module Idempotency {
  import opened Wrappers

  /** Organization zero stands for requests without a principal. */
  datatype Scope = Scope(key: string, organization: nat)

  datatype Json = Null | Value(text: string)

  datatype Body = Empty | JsonBody(json: Json) | NotJson(bytes: string)

  /** A stored body of `None` is both "no body" and the JSON literal null. */
  datatype Row = Row(hash: string, status: Option<int>, body: Option<Json>)

  datatype Reply = Conflict | InProgress | Answer(status: int, body: Body)

  type Rows = map<Scope, Row>

  const REPLAY_WAIT: int := 10_000_000

  /** What is stored for a response body; nothing when it cannot be decoded. */
  function Parse(body: Body): Option<Option<Json>> {
    match body
    case Empty => Some(None)
    case JsonBody(Null) => Some(None)
    case JsonBody(value) => Some(Some(value))
    case NotJson(_) => None
  }

  function ReplayBody(stored: Option<Json>): Body {
    if stored.None? then Empty else JsonBody(stored.value)
  }

  function ReplayOrConflict(existing: Row, hash: string): Reply {
    if existing.hash != hash then Conflict
    else if existing.status.None? then InProgress
    else Answer(existing.status.value, ReplayBody(existing.body))
  }

  // ----- The four statements on the table -----

  function Claimed(rows: Rows, scope: Scope, hash: string): Rows {
    if scope in rows then rows else rows[scope := Row(hash, None, None)]
  }

  function Completed(rows: Rows, scope: Scope, hash: string, status: int, body: Option<Json>): Rows {
    if scope in rows && rows[scope].hash == hash then rows[scope := Row(hash, Some(status), body)] else rows
  }

  function Released(rows: Rows, scope: Scope, hash: string): Rows {
    if scope in rows && rows[scope].hash == hash && rows[scope].status.None? then rows - {scope} else rows
  }

  /** What a waiting request concludes from one look at the row, if anything. */
  function Concluded(existing: Option<Row>, hash: string): Option<Reply> {
    if existing.None? then Some(InProgress)
    else if existing.value.hash != hash || existing.value.status.Some? then Some(ReplayOrConflict(existing.value, hash))
    else None
  }

  // ----- The interleaved system -----

  datatype Ending = Direct(status: int, body: Body) | Failed | Waited(reply: Reply)

  datatype Pc = Claiming | Running | Returned(status: int, body: Body) | Raised | Polling(deadline: int) | Done(ending: Ending)

  datatype Request = Request(scope: Scope, hash: string, pc: Pc)

  /** An execution of the route that returned a response. */
  datatype Execution = Execution(scope: Scope, hash: string, status: int, body: Body)

  /** The last three fields are history: executions started, released after an exception, and returned. */
  datatype Sys = Sys(
    rows: Rows,
    requests: map<nat, Request>,
    clock: int,
    started: multiset<Scope>,
    released: multiset<Scope>,
    returned: seq<Execution>)

  datatype Step =
    | Tick(elapsed: nat)
    | Arrive(pid: nat, scope: Scope, hash: string)
    | Claim(pid: nat)
    | Return(pid: nat, status: int, body: Body)
    | Raise(pid: nat)
    | Complete(pid: nat)
    | Release(pid: nat)
    | Poll(pid: nat)
    | TimeOut(pid: nat)
    | Crash(pid: nat)

  function Go(s: Sys, pid: nat, pc: Pc): Sys
    requires pid in s.requests
  {
    s.(requests := s.requests[pid := s.requests[pid].(pc := pc)])
  }

  function Lookup(rows: Rows, scope: Scope): Option<Row> {
    if scope in rows then Some(rows[scope]) else None
  }

  function DoClaim(s: Sys, pid: nat): Option<Sys> {
    if pid !in s.requests || !s.requests[pid].pc.Claiming? then None
    else
      var r := s.requests[pid];
      if r.scope in s.rows then Some(Go(s, pid, Polling(s.clock + REPLAY_WAIT)))
      else Some(Go(s, pid, Running).(rows := Claimed(s.rows, r.scope, r.hash), started := s.started + multiset{r.scope}))
  }

  function DoReturn(s: Sys, pid: nat, status: int, body: Body): Option<Sys> {
    if pid !in s.requests || !s.requests[pid].pc.Running? then None
    else
      var r := s.requests[pid];
      Some(Go(s, pid, Returned(status, body)).(returned := s.returned + [Execution(r.scope, r.hash, status, body)]))
  }

  function DoRaise(s: Sys, pid: nat): Option<Sys> {
    if pid !in s.requests || !s.requests[pid].pc.Running? then None else Some(Go(s, pid, Raised))
  }

  /** A response whose body cannot be decoded is returned without being stored. */
  function DoComplete(s: Sys, pid: nat): Option<Sys> {
    if pid !in s.requests || !s.requests[pid].pc.Returned? then None
    else
      var r := s.requests[pid];
      var stored := Parse(r.pc.body);
      var rows := if stored.Some? then Completed(s.rows, r.scope, r.hash, r.pc.status, stored.value) else s.rows;
      Some(Go(s, pid, Done(Direct(r.pc.status, r.pc.body))).(rows := rows))
  }

  function DoRelease(s: Sys, pid: nat): Option<Sys> {
    if pid !in s.requests || !s.requests[pid].pc.Raised? then None
    else
      var r := s.requests[pid];
      Some(Go(s, pid, Done(Failed)).(rows := Released(s.rows, r.scope, r.hash), released := s.released + multiset{r.scope}))
  }

  function DoPoll(s: Sys, pid: nat): Option<Sys> {
    if pid !in s.requests || !s.requests[pid].pc.Polling? then None
    else
      var r := s.requests[pid];
      var concluded := Concluded(Lookup(s.rows, r.scope), r.hash);
      Some(if concluded.Some? then Go(s, pid, Done(Waited(concluded.value))) else s)
  }

  function DoTimeOut(s: Sys, pid: nat): Option<Sys> {
    if pid !in s.requests || !s.requests[pid].pc.Polling? || s.clock < s.requests[pid].pc.deadline then None
    else Some(Go(s, pid, Done(Waited(InProgress))))
  }

  function Apply(s: Sys, step: Step): Option<Sys> {
    match step
    case Tick(elapsed) => Some(s.(clock := s.clock + elapsed))
    case Arrive(pid, scope, hash) =>
      if pid in s.requests then None else Some(s.(requests := s.requests[pid := Request(scope, hash, Claiming)]))
    case Claim(pid) => DoClaim(s, pid)
    case Return(pid, status, body) => DoReturn(s, pid, status, body)
    case Raise(pid) => DoRaise(s, pid)
    case Complete(pid) => DoComplete(s, pid)
    case Release(pid) => DoRelease(s, pid)
    case Poll(pid) => DoPoll(s, pid)
    case TimeOut(pid) => DoTimeOut(s, pid)
    case Crash(pid) => Some(s.(requests := s.requests - {pid}))
  }

  ghost predicate Run(trace: seq<Sys>, steps: seq<Step>) {
    && |trace| == |steps| + 1
    && trace[0].rows == map[] && trace[0].requests == map[]
    && trace[0].started == multiset{} && trace[0].released == multiset{} && trace[0].returned == []
    && forall i :: 0 <= i < |steps| ==> Apply(trace[i], steps[i]) == Some(trace[i + 1])
  }

  // ----- Invariant -----

  /** Between winning the claim and settling it. */
  predicate Executing(pc: Pc) {
    pc.Running? || pc.Returned? || pc.Raised?
  }

  predicate OneExecution(requests: map<nat, Request>) {
    forall p <- requests, q <- requests ::
      Executing(requests[p].pc) && Executing(requests[q].pc) && requests[p].scope == requests[q].scope ==> p == q
  }

  /** An execution owns its row: same hash, no response yet. */
  predicate OwnsRow(r: Request, rows: Rows) {
    r.scope in rows && rows[r.scope].hash == r.hash && rows[r.scope].status.None?
  }

  predicate Recorded(e: Execution, row: Row) {
    row.hash == e.hash && (row.status.Some? ==> row.status.value == e.status && Parse(e.body) == Some(row.body))
  }

  /** A replayed answer is the stored form of an execution in its scope with its own hash. */
  predicate ReplayOf(r: Request, e: Execution) {
    && e.scope == r.scope && e.hash == r.hash && Parse(e.body).Some?
    && r.pc == Done(Waited(Answer(e.status, ReplayBody(Parse(e.body).value))))
  }

  predicate RequestOk(r: Request, rows: Rows, returned: seq<Execution>) {
    && (Executing(r.pc) ==> OwnsRow(r, rows))
    && (r.pc.Returned? ==> Execution(r.scope, r.hash, r.pc.status, r.pc.body) in returned)
    && (r.pc.Running? || r.pc.Raised? ==> forall e <- returned :: e.scope != r.scope)
    && (r.pc.Done? && r.pc.ending.Waited? && r.pc.ending.reply.Answer? ==> exists e <- returned :: ReplayOf(r, e))
  }

  predicate RequestsOk(requests: map<nat, Request>, rows: Rows, returned: seq<Execution>) {
    forall pid <- requests :: RequestOk(requests[pid], rows, returned)
  }

  /** A completed row has the execution it was completed with. */
  predicate RowsOk(rows: Rows, returned: seq<Execution>) {
    forall scope <- rows :: rows[scope].status.Some? ==> exists e <- returned :: e.scope == scope
  }

  predicate ReturnedOk(rows: Rows, returned: seq<Execution>) {
    && (forall e <- returned :: e.scope in rows && Recorded(e, rows[e.scope]))
    && (forall i, j :: 0 <= i < j < |returned| ==> returned[i].scope != returned[j].scope)
  }

  /** Every start is either released again or still holds the scope's row. */
  ghost predicate Counted(rows: Rows, started: multiset<Scope>, released: multiset<Scope>) {
    forall scope: Scope :: started[scope] == released[scope] + if scope in rows then 1 else 0
  }

  ghost predicate Inv(s: Sys) {
    && OneExecution(s.requests)
    && RequestsOk(s.requests, s.rows, s.returned)
    && RowsOk(s.rows, s.returned)
    && ReturnedOk(s.rows, s.returned)
    && Counted(s.rows, s.started, s.released)
  }

  /** Steps that leave the table and the history alone: one request moves on. */
  lemma MoveInv(s: Sys, pid: nat, pc: Pc)
    requires Inv(s) && pid in s.requests
    requires Executing(pc) ==> Executing(s.requests[pid].pc)
    requires RequestOk(s.requests[pid].(pc := pc), s.rows, s.returned)
    ensures Inv(Go(s, pid, pc))
  {
    hide RequestOk, RowsOk, ReturnedOk, Counted;
  }

  lemma AnswerIsReplay(s: Sys, r: Request, reply: Reply)
    requires Inv(s) && Concluded(Lookup(s.rows, r.scope), r.hash) == Some(reply) && reply.Answer?
    ensures exists e <- s.returned :: ReplayOf(r.(pc := Done(Waited(reply))), e)
  {
    hide OneExecution, Counted, RequestsOk;
    var e :| e in s.returned && e.scope == r.scope;
    assert Recorded(e, s.rows[e.scope]);
    assert ReplayOf(r.(pc := Done(Waited(reply))), e);
  }

  lemma PollInv(s: Sys, s': Sys, pid: nat)
    requires Inv(s) && DoPoll(s, pid) == Some(s')
    ensures Inv(s')
  {
    hide Inv, ReplayOf;
    var r := s.requests[pid];
    var concluded := Concluded(Lookup(s.rows, r.scope), r.hash);
    if concluded.Some? {
      if concluded.value.Answer? {
        AnswerIsReplay(s, r, concluded.value);
      }
      MoveInv(s, pid, Done(Waited(concluded.value)));
    }
  }

  lemma ClaimInv(s: Sys, s': Sys, pid: nat)
    requires Inv(s) && DoClaim(s, pid) == Some(s') && s.requests[pid].scope !in s.rows
    ensures Inv(s')
  {
    hide ReplayOf, Recorded;
    forall p <- s'.requests
      ensures RequestOk(s'.requests[p], s'.rows, s'.returned)
    {
      assert RequestOk(s.requests[p], s.rows, s.returned);
    }
  }

  lemma ReturnInv(s: Sys, s': Sys, pid: nat, status: int, body: Body)
    requires Inv(s) && DoReturn(s, pid, status, body) == Some(s')
    ensures Inv(s')
  {
    hide ReplayOf, Counted;
    assert RequestOk(s.requests[pid], s.rows, s.returned);
    forall p <- s'.requests
      ensures RequestOk(s'.requests[p], s'.rows, s'.returned)
    {
      assert RequestOk(s.requests[p], s.rows, s.returned);
    }
    forall scope <- s'.rows | s'.rows[scope].status.Some?
      ensures exists e <- s'.returned :: e.scope == scope
    {
      var e :| e in s.returned && e.scope == scope;
      assert e in s'.returned;
    }
  }

  lemma CompleteInv(s: Sys, s': Sys, pid: nat)
    requires Inv(s) && DoComplete(s, pid) == Some(s')
    ensures Inv(s')
  {
    hide ReplayOf;
    assert RequestOk(s.requests[pid], s.rows, s.returned);
    forall p <- s'.requests
      ensures RequestOk(s'.requests[p], s'.rows, s'.returned)
    {
      assert RequestOk(s.requests[p], s.rows, s.returned);
    }
  }

  lemma ReleaseInv(s: Sys, s': Sys, pid: nat)
    requires Inv(s) && DoRelease(s, pid) == Some(s')
    ensures Inv(s')
  {
    hide ReplayOf, Recorded;
    assert RequestOk(s.requests[pid], s.rows, s.returned);
    forall p <- s'.requests
      ensures RequestOk(s'.requests[p], s'.rows, s'.returned)
    {
      assert RequestOk(s.requests[p], s.rows, s.returned);
    }
  }

  lemma StepInv(s: Sys, s': Sys, step: Step)
    requires Inv(s) && Apply(s, step) == Some(s')
    ensures Inv(s')
  {
    hide RowsOk, ReturnedOk, Counted, ReplayOf, Claimed, Concluded;
    match step
    case Claim(pid) =>
      if s.requests[pid].scope in s.rows {
        MoveInv(s, pid, Polling(s.clock + REPLAY_WAIT));
      } else {
        ClaimInv(s, s', pid);
      }
    case Return(pid, status, body) => ReturnInv(s, s', pid, status, body);
    case Raise(pid) =>
      assert RequestOk(s.requests[pid], s.rows, s.returned);
      MoveInv(s, pid, Raised);
    case Complete(pid) => CompleteInv(s, s', pid);
    case Release(pid) => ReleaseInv(s, s', pid);
    case Poll(pid) => PollInv(s, s', pid);
    case TimeOut(pid) => MoveInv(s, pid, Done(Waited(InProgress)));
    case _ =>
  }

  lemma {:induction false} Reachable(trace: seq<Sys>, steps: seq<Step>, i: nat)
    requires Run(trace, steps) && i < |trace|
    ensures Inv(trace[i])
  {
    hide Apply, RequestOk, Recorded;
    if i > 0 {
      Reachable(trace, steps, i - 1);
      assert Apply(trace[i - 1], steps[i - 1]) == Some(trace[i - 1 + 1]);
      hide Inv;
      StepInv(trace[i - 1], trace[i], steps[i - 1]);
    }
  }

  // ----- Main results -----

  /** Two executions under one key never overlap, and each runs with the hash its row was claimed with. */
  lemma ExecutionsNeverOverlap(trace: seq<Sys>, steps: seq<Step>, i: nat, p: nat, q: nat)
    requires Run(trace, steps) && i < |trace| && p in trace[i].requests && q in trace[i].requests
    requires Executing(trace[i].requests[p].pc) && Executing(trace[i].requests[q].pc)
    requires trace[i].requests[p].scope == trace[i].requests[q].scope
    ensures p == q
    ensures OwnsRow(trace[i].requests[p], trace[i].rows)
  {
    Reachable(trace, steps, i);
    assert RequestOk(trace[i].requests[p], trace[i].rows, trace[i].returned);
  }

  /** At most one execution under a key ever returns without raising; its row keeps its hash and is never released. */
  lemma ReturnsAtMostOnce(trace: seq<Sys>, steps: seq<Step>, i: nat, a: nat, b: nat)
    requires Run(trace, steps) && i < |trace|
    requires a < |trace[i].returned| && b < |trace[i].returned|
    requires trace[i].returned[a].scope == trace[i].returned[b].scope
    ensures a == b
    ensures var e := trace[i].returned[a];
            e.scope in trace[i].rows && trace[i].rows[e.scope].hash == e.hash
  {
    Reachable(trace, steps, i);
    assert trace[i].returned[a] in trace[i].returned;
  }

  lemma {:induction false} ReturnedGrows(trace: seq<Sys>, steps: seq<Step>, i: nat, j: nat)
    requires Run(trace, steps) && i <= j < |trace|
    ensures trace[i].returned <= trace[j].returned
    decreases j - i
  {
    if i < j {
      ReturnedGrows(trace, steps, i, j - 1);
      assert Apply(trace[j - 1], steps[j - 1]) == Some(trace[j - 1 + 1]);
    }
  }

  /** Once an execution has returned, the route is never entered again under that key, with any body. */
  lemma NeverRunsAgain(trace: seq<Sys>, steps: seq<Step>, i: nat, j: nat, e: Execution, p: nat)
    requires Run(trace, steps) && i <= j < |trace| && e in trace[i].returned
    requires p in trace[j].requests && trace[j].requests[p].scope == e.scope
    ensures !trace[j].requests[p].pc.Running? && !trace[j].requests[p].pc.Raised?
  {
    Reachable(trace, steps, j);
    ReturnedGrows(trace, steps, i, j);
    var k :| 0 <= k < |trace[i].returned| && trace[i].returned[k] == e;
    assert trace[j].returned[k] == e;
    assert RequestOk(trace[j].requests[p], trace[j].rows, trace[j].returned);
  }

  /** Every replayed answer is the one returned execution of its key, made with the same hash. */
  lemma ReplaysAreFaithful(trace: seq<Sys>, steps: seq<Step>, i: nat, p: nat) returns (e: Execution)
    requires Run(trace, steps) && i < |trace| && p in trace[i].requests
    requires var pc := trace[i].requests[p].pc; pc.Done? && pc.ending.Waited? && pc.ending.reply.Answer?
    ensures e in trace[i].returned && e.scope == trace[i].requests[p].scope && e.hash == trace[i].requests[p].hash
    ensures var answer := trace[i].requests[p].pc.ending.reply;
            && answer.status == e.status
            && Parse(e.body).Some? && answer.body == ReplayBody(Parse(e.body).value)
            && (answer.body == e.body <==> e.body != JsonBody(Null))
  {
    Reachable(trace, steps, i);
    var r := trace[i].requests[p];
    assert RequestOk(r, trace[i].rows, trace[i].returned);
    e :| e in trace[i].returned && ReplayOf(r, e);
  }

  /** Once the row is completed, every poll with its hash is answered with that execution's response. */
  lemma CompletedIsReplayed(trace: seq<Sys>, steps: seq<Step>, i: nat, p: nat, e: Execution)
    requires Run(trace, steps) && i < |trace| && e in trace[i].returned
    requires e.scope in trace[i].rows && trace[i].rows[e.scope].status.Some?
    requires p in trace[i].requests && trace[i].requests[p].pc.Polling?
    requires trace[i].requests[p].scope == e.scope && trace[i].requests[p].hash == e.hash
    ensures Apply(trace[i], Poll(p)).Some?
    ensures Apply(trace[i], Poll(p)).value.requests[p].pc
         == Done(Waited(Answer(e.status, if e.body == JsonBody(Null) then Empty else e.body)))
  {
    Reachable(trace, steps, i);
    assert Recorded(e, trace[i].rows[e.scope]);
  }

  /** A poll that finds no row gives up at once, and one that finds its own row in progress goes on waiting. */
  lemma UndecidedPolls(s: Sys, p: nat)
    requires p in s.requests && s.requests[p].pc.Polling?
    ensures s.requests[p].scope !in s.rows ==>
              Apply(s, Poll(p)).Some? && Apply(s, Poll(p)).value.requests[p].pc == Done(Waited(InProgress))
    ensures (var r := s.requests[p]; r.scope in s.rows && s.rows[r.scope].hash == r.hash && s.rows[r.scope].status.None?) ==>
              Apply(s, Poll(p)) == Some(s)
  {
  }

  /** While a key's row exists, a request with another hash does not run and is never given a stored answer. */
  lemma OtherHashNeverRuns(trace: seq<Sys>, steps: seq<Step>, i: nat, p: nat)
    requires Run(trace, steps) && i < |trace| && p in trace[i].requests
    requires var r := trace[i].requests[p]; r.scope in trace[i].rows && trace[i].rows[r.scope].hash != r.hash
    ensures !Executing(trace[i].requests[p].pc)
    ensures Apply(trace[i], Claim(p)).Some? ==> !Executing(Apply(trace[i], Claim(p)).value.requests[p].pc)
    ensures trace[i].requests[p].pc.Polling? ==>
              Apply(trace[i], Poll(p)).value.requests[p].pc == Done(Waited(Conflict))
  {
    Reachable(trace, steps, i);
    assert RequestOk(trace[i].requests[p], trace[i].rows, trace[i].returned);
  }

  /** Executions are conserved: each one started was released after an exception, except the one holding the row. */
  lemma StartsAreAccountedFor(trace: seq<Sys>, steps: seq<Step>, i: nat, scope: Scope)
    requires Run(trace, steps) && i < |trace|
    ensures trace[i].started[scope] == trace[i].released[scope] + if scope in trace[i].rows then 1 else 0
  {
    Reachable(trace, steps, i);
  }

  // ----- Where a key stays blocked -----

  /** The row says "in progress" but nobody is left to complete or release it. */
  predicate Blocked(s: Sys, scope: Scope) {
    && scope in s.rows && s.rows[scope].status.None?
    && forall pid <- s.requests :: s.requests[pid].scope == scope ==> !Executing(s.requests[pid].pc)
  }

  /** A blocked key stays blocked: no request under it ever runs or gets a stored answer. */
  lemma BlockedStep(s: Sys, s': Sys, step: Step, scope: Scope)
    requires Inv(s) && Blocked(s, scope) && Apply(s, step) == Some(s')
    ensures Blocked(s', scope) && s'.rows[scope] == s.rows[scope]
  {
    hide ReplayOf, Recorded, Counted;
    if step.Complete? || step.Release? {
      assert RequestOk(s.requests[step.pid], s.rows, s.returned);
    }
  }

  /** Along any run: once blocked, a key keeps its row in progress and no request under it executes again. */
  lemma {:induction false} BlockedForever(trace: seq<Sys>, steps: seq<Step>, i: nat, j: nat, scope: Scope)
    requires Run(trace, steps) && i <= j < |trace| && Blocked(trace[i], scope)
    ensures Blocked(trace[j], scope) && trace[j].rows[scope] == trace[i].rows[scope]
    decreases j - i
  {
    hide Inv, Apply, Blocked;
    if i < j {
      BlockedForever(trace, steps, i, j - 1, scope);
      Reachable(trace, steps, j - 1);
      assert Apply(trace[j - 1], steps[j - 1]) == Some(trace[j - 1 + 1]);
      BlockedStep(trace[j - 1], trace[j], steps[j - 1], scope);
    }
  }

  /** It happens to any key: its first request wins the claim and its process dies. */
  lemma AnyKeyCanBlock(scope: Scope, hash: string) returns (trace: seq<Sys>, steps: seq<Step>)
    ensures Run(trace, steps) && Blocked(trace[|trace| - 1], scope)
  {
    var s0 := Sys(map[], map[], 0, multiset{}, multiset{}, []);
    var s1 := s0.(requests := map[0 := Request(scope, hash, Claiming)]);
    var s2 := Sys(map[scope := Row(hash, None, None)], map[0 := Request(scope, hash, Running)], 0, multiset{scope}, multiset{}, []);
    var s3 := s2.(requests := map[]);
    trace, steps := [s0, s1, s2, s3], [Arrive(0, scope, hash), Claim(0), Crash(0)];
    assert Apply(s0, steps[0]) == Some(s1);
    assert Apply(s1, steps[1]) == Some(s2) by {
      assert Claimed(s1.rows, scope, hash) == s2.rows;
      assert s1.started + multiset{scope} == s2.started;
      assert Go(s1, 0, Running).requests == s2.requests;
    }
    assert Apply(s2, steps[2]) == Some(s3) by {
      assert s2.requests - {0} == map[];
    }
  }

  /** Finishing an execution blocks its key exactly when the response body could not be decoded. */
  lemma CompletionBlocksIffUndecodable(s: Sys, s': Sys, pid: nat)
    requires Inv(s) && Apply(s, Complete(pid)) == Some(s')
    ensures Blocked(s', s.requests[pid].scope) <==> s.requests[pid].pc.body.NotJson?
  {
    hide ReplayOf, Recorded, Counted;
    assert RequestOk(s.requests[pid], s.rows, s.returned);
  }

  /** A crash blocks the key exactly when the crashed request was executing or the key was blocked before. */
  lemma CrashBlocksIffExecuting(s: Sys, s': Sys, pid: nat)
    requires Inv(s) && pid in s.requests && Apply(s, Crash(pid)) == Some(s')
    ensures var r := s.requests[pid];
            Blocked(s', r.scope) <==> Executing(r.pc) || Blocked(s, r.scope)
  {
    hide ReplayOf, Recorded, Counted;
    var r := s.requests[pid];
    assert RequestOk(r, s.rows, s.returned);
    assert forall p <- s.requests :: p == pid || s'.requests[p] == s.requests[p];
    if Blocked(s', r.scope) && !Executing(r.pc) {
      forall p <- s.requests | s.requests[p].scope == r.scope
        ensures !Executing(s.requests[p].pc)
      {
        assert p == pid || p in s'.requests;
      }
    }
  }
}
