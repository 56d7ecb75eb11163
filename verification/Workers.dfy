/**
 The messaging processes: the publisher that drains the outbox and the consumers that
 deduplicate, retry and acknowledge what they are delivered.
 */
module Workers {
  import opened Wrappers
  import opened WorkflowRuns
  import Protocol

  datatype EventType = WorkflowStepDispatchRequested | TranscriptionDispatchRequested | OtherType

  datatype StreamName = Transcription | PerAggregate(aggregateType: string)

  datatype StoredEvent = StoredEvent(
    eventType: EventType,
    aggregateType: string,
    occurredAt: Time,
    publishedAt: Option<Time>)

  function StreamForEvent(eventType: EventType, aggregateType: string): StreamName {
    if eventType == TranscriptionDispatchRequested then Transcription else PerAggregate(aggregateType)
  }

  type Outbox = map<nat, StoredEvent>

  type Streams = map<StreamName, seq<nat>>

  /** Outbox, streams, inbox, and the stream entries acknowledged so far. */
  class Messaging {
    var outbox: Outbox
    var streams: Streams
    var inbox: set<nat>
    var acked: set<nat>

    constructor (outbox: Outbox)
      ensures this.outbox == outbox && streams == map[] && inbox == {} && acked == {}
    {
      this.outbox, streams, inbox, acked := outbox, map[], {}, {};
    }
  }

  // ----- Publisher -----

  const BATCH_SIZE: nat := 100

  function Unpublished(outbox: Outbox): set<nat> {
    set id <- outbox | outbox[id].publishedAt.None?
  }

  predicate Known(ids: seq<nat>, outbox: Outbox) {
    forall id <- ids :: id in outbox
  }

  /** What the publisher's query may return: the oldest unpublished rows, at most a batch of them. */
  ghost predicate AnswersQuery(batch: seq<nat>, outbox: Outbox) {
    && (forall i, j :: 0 <= i < j < |batch| ==> batch[i] != batch[j])
    && Known(batch, outbox)
    && (forall id <- batch :: outbox[id].publishedAt.None?)
    && (forall i, j :: 0 <= i < j < |batch| ==> outbox[batch[i]].occurredAt <= outbox[batch[j]].occurredAt)
    && (forall id <- batch, other <- Unpublished(outbox) :: other !in batch ==>
          outbox[id].occurredAt <= outbox[other].occurredAt)
    && |batch| == if |Unpublished(outbox)| < BATCH_SIZE then |Unpublished(outbox)| else BATCH_SIZE
  }

  function Entries(streams: Streams, name: StreamName): seq<nat> {
    if name in streams then streams[name] else []
  }

  function StreamOf(outbox: Outbox, id: nat): StreamName
    requires id in outbox
  {
    StreamForEvent(outbox[id].eventType, outbox[id].aggregateType)
  }

  /** The events among the first `n` that belong on stream `name`, in order. */
  function Routed(batch: seq<nat>, n: nat, outbox: Outbox, name: StreamName): seq<nat>
    requires n <= |batch| && Known(batch, outbox)
  {
    if n == 0 then []
    else Routed(batch, n - 1, outbox, name) + if StreamOf(outbox, batch[n - 1]) == name then [batch[n - 1]] else []
  }

  /** The first `n` rows are stamped and no other row has changed. */
  predicate StampedExactly(before: Outbox, after: Outbox, batch: seq<nat>, n: nat, at: Time)
    requires n <= |batch|
  {
    && after.Keys == before.Keys
    && (forall id <- before :: id !in batch[..n] ==> after[id] == before[id])
    && (forall i :: 0 <= i < n && batch[i] in before ==> after[batch[i]] == before[batch[i]].(publishedAt := Some(at)))
  }

  /** Every stream has grown by exactly the events routed to it. */
  ghost predicate AppendedExactly(before: Streams, after: Streams, outbox: Outbox, batch: seq<nat>, n: nat)
    requires n <= |batch| && Known(batch, outbox)
  {
    forall name: StreamName :: Entries(after, name) == Entries(before, name) + Routed(batch, n, outbox, name)
  }

  function Least(a: nat, b: nat): nat {
    if a < b then a else b
  }

  /**
   Publish each row, then stamp it, oldest first. The process may die after any number of
   these actions; then the rows sent are a prefix of the batch, and the rows stamped are all
   of those except possibly the last.
   */
  method PublishPending(m: Messaging, batch: seq<nat>, actions: nat, at: Time) returns (published: nat)
    requires AnswersQuery(batch, m.outbox)
    modifies m`outbox, m`streams
    ensures published == Least(|batch|, actions / 2)
    ensures StampedExactly(old(m.outbox), m.outbox, batch, published, at)
    ensures AppendedExactly(old(m.streams), m.streams, old(m.outbox), batch, Least(|batch|, (actions + 1) / 2))
  {
    hide AppendedExactly, StampedExactly, Routed;
    published := 0;
    SentNothing(m.streams, m.outbox, batch, at);
    for i := 0 to |batch|
      invariant published == i && 2 * i <= actions
      invariant StampedExactly(old(m.outbox), m.outbox, batch, i, at)
      invariant AppendedExactly(old(m.streams), m.streams, old(m.outbox), batch, i)
    {
      if actions == 2 * i {
        return;
      }
      NotYetStamped(old(m.outbox), m.outbox, batch, i, at);
      var row := m.outbox[batch[i]];
      var stream := StreamForEvent(row.eventType, row.aggregateType);
      SentOne(old(m.streams), m.streams, old(m.outbox), batch, i);
      m.streams := m.streams[stream := Entries(m.streams, stream) + [batch[i]]];
      if actions == 2 * i + 1 {
        return;
      }
      m.outbox := m.outbox[batch[i] := row.(publishedAt := Some(at))];
      published := published + 1;
    }
  }

  lemma SentNothing(streams: Streams, outbox: Outbox, batch: seq<nat>, at: Time)
    requires Known(batch, outbox)
    ensures StampedExactly(outbox, outbox, batch, 0, at) && AppendedExactly(streams, streams, outbox, batch, 0)
  {
  }

  lemma SentOne(before: Streams, after: Streams, outbox: Outbox, batch: seq<nat>, i: nat)
    requires i < |batch| && Known(batch, outbox) && AppendedExactly(before, after, outbox, batch, i)
    ensures var stream := StreamOf(outbox, batch[i]);
            AppendedExactly(before, after[stream := Entries(after, stream) + [batch[i]]], outbox, batch, i + 1)
  {
    var stream := StreamOf(outbox, batch[i]);
    var after' := after[stream := Entries(after, stream) + [batch[i]]];
    forall name: StreamName
      ensures Entries(after', name) == Entries(before, name) + Routed(batch, i + 1, outbox, name)
    {
      assert Entries(after, name) == Entries(before, name) + Routed(batch, i, outbox, name);
      if name == stream {
        assert Routed(batch, i + 1, outbox, name) == Routed(batch, i, outbox, name) + [batch[i]];
      } else {
        assert Routed(batch, i + 1, outbox, name) == Routed(batch, i, outbox, name);
      }
    }
  }

  lemma NotYetStamped(before: Outbox, after: Outbox, batch: seq<nat>, i: nat, at: Time)
    requires i < |batch| && AnswersQuery(batch, before) && StampedExactly(before, after, batch, i, at)
    ensures batch[i] in after && after[batch[i]] == before[batch[i]]
    ensures StampedExactly(before, after[batch[i] := before[batch[i]].(publishedAt := Some(at))], batch, i + 1, at)
  {
  }

  /** A drain that is cut short re-sends at most one row: only the last row sent can be unstamped. */
  lemma CrashResendsAtMostOne(before: Outbox, after: Outbox, batch: seq<nat>, actions: nat, at: Time, i: nat)
    requires AnswersQuery(batch, before)
    requires StampedExactly(before, after, batch, Least(|batch|, actions / 2), at)
    requires i < Least(|batch|, (actions + 1) / 2)
    ensures batch[i] in after
    ensures after[batch[i]].publishedAt.None? <==> i == actions / 2
  {
  }

  /** A drain that is not cut short leaves only what exceeds a full batch, and that is the youngest. */
  lemma DrainLeavesOnlyOverflow(before: Outbox, after: Outbox, batch: seq<nat>, at: Time)
    requires AnswersQuery(batch, before) && StampedExactly(before, after, batch, |batch|, at)
    ensures |Unpublished(after)| == if |Unpublished(before)| <= BATCH_SIZE then 0 else |Unpublished(before)| - BATCH_SIZE
    ensures forall id <- batch, left <- Unpublished(after) :: before[id].occurredAt <= before[left].occurredAt
  {
    Remaining(before, after, batch, at);
    Cardinality(batch);
    hide Members, StampedExactly;
    assert |Unpublished(before) - Members(batch)| == |Unpublished(before)| - |Members(batch)|;
    forall id, left | id in batch && left in Unpublished(after)
      ensures before[id].occurredAt <= before[left].occurredAt
    {
      assert left in Unpublished(before) && left !in batch;
    }
  }

  lemma Remaining(before: Outbox, after: Outbox, batch: seq<nat>, at: Time)
    requires AnswersQuery(batch, before) && StampedExactly(before, after, batch, |batch|, at)
    ensures Members(batch) <= Unpublished(before)
    ensures Unpublished(after) == Unpublished(before) - Members(batch)
    ensures forall left <- Unpublished(after) :: left !in batch
  {
    assert batch[..|batch|] == batch;
    forall id | id in before
      ensures id in Unpublished(after) <==> id in Unpublished(before) && id !in batch
    {
    }
  }

  function Members(s: seq<nat>): set<nat> {
    set x <- s
  }

  lemma {:induction false} Cardinality(s: seq<nat>)
    requires forall i, j :: 0 <= i < j < |s| ==> s[i] != s[j]
    ensures |Members(s)| == |s|
  {
    if s != [] {
      var front, last := s[..|s| - 1], s[|s| - 1];
      Cardinality(front);
      assert s == front + [last] && last !in front;
      assert Members(s) == Members(front) + {last};
    } else {
      assert Members(s) == {};
    }
  }

  /** The aggregate requests transcription under its own event type; both streams are the protocol's. */
  function TypeOf(event: DispatchEvent): EventType {
    if event.state.TranscriptionPending? then TranscriptionDispatchRequested else WorkflowStepDispatchRequested
  }

  lemma RoutingMatchesProtocol(event: DispatchEvent)
    ensures StreamForEvent(TypeOf(event), "WorkflowRun") == Transcription <==> Protocol.StreamFor(event) == Protocol.AudioStream
    ensures StreamForEvent(TypeOf(event), "WorkflowRun") == PerAggregate("WorkflowRun")
            <==> Protocol.StreamFor(event) == Protocol.StepStream
    ensures Protocol.MaxAttempts(event)
         == if Protocol.StreamFor(event) == Protocol.AudioStream then STT_MAX_ATTEMPTS else MAX_ATTEMPTS
  {
  }

  // ----- Consumers -----

  const MAX_ATTEMPTS: nat := 5
  const STT_MAX_ATTEMPTS: nat := 3

  /** A delivered entry, and whether some handler is registered for its event's type. */
  datatype Message = Message(entry: nat, event: nat, handled: bool)

  /** Whether the handler's n-th call returns without raising. */
  type Oracle = nat -> bool

  predicate FailsFirst(outcome: Oracle, n: nat) {
    forall i :: 0 <= i < n ==> !outcome(i)
  }

  /**
   One delivery on the step stream: skip what the inbox has, otherwise call the handler until
   it returns, at most five times. Recording and acknowledging happen together or not at all.
   */
  method DispatchStep(m: Messaging, message: Message, outcome: Oracle) returns (calls: nat)
    modifies m`inbox, m`acked
    ensures message.event in old(m.inbox) || !message.handled ==> calls == 0
    ensures message.event !in old(m.inbox) && message.handled ==>
              && 0 < calls <= MAX_ATTEMPTS && FailsFirst(outcome, calls - 1)
              && (outcome(calls - 1) || calls == MAX_ATTEMPTS)
    ensures var done := calls == 0 || outcome(calls - 1);
            && m.inbox == (if done then old(m.inbox) + {message.event} else old(m.inbox))
            && m.acked == (if done then old(m.acked) + {message.entry} else old(m.acked))
  {
    calls := 0;
    if message.event in m.inbox {
      m.acked := m.acked + {message.entry};
      return;
    }
    var attempt := 0;
    while true
      invariant calls == attempt < MAX_ATTEMPTS && FailsFirst(outcome, attempt)
      invariant !message.handled ==> attempt == 0
      invariant m.inbox == old(m.inbox) && m.acked == old(m.acked)
      decreases MAX_ATTEMPTS - attempt
    {
      if !message.handled {
        break;
      }
      calls := calls + 1;
      if outcome(attempt) {
        break;
      }
      attempt := attempt + 1;
      if attempt >= MAX_ATTEMPTS {
        return;
      }
    }
    m.inbox := m.inbox + {message.event};
    m.acked := m.acked + {message.entry};
  }

  /** One delivery on the transcription stream: three calls, and an unknown type is acknowledged unrecorded. */
  method DispatchTranscription(m: Messaging, message: Message, outcome: Oracle) returns (calls: nat)
    modifies m`inbox, m`acked
    ensures message.event in old(m.inbox) || !message.handled ==>
              calls == 0 && m.inbox == old(m.inbox) && m.acked == old(m.acked) + {message.entry}
    ensures message.event !in old(m.inbox) && message.handled ==>
              && 0 < calls <= STT_MAX_ATTEMPTS && FailsFirst(outcome, calls - 1)
              && (outcome(calls - 1) || calls == STT_MAX_ATTEMPTS)
              && m.inbox == (if outcome(calls - 1) then old(m.inbox) + {message.event} else old(m.inbox))
              && m.acked == (if outcome(calls - 1) then old(m.acked) + {message.entry} else old(m.acked))
  {
    calls := 0;
    if message.event in m.inbox || !message.handled {
      m.acked := m.acked + {message.entry};
      return;
    }
    for attempt := 1 to STT_MAX_ATTEMPTS + 1
      invariant calls == attempt - 1 < STT_MAX_ATTEMPTS && FailsFirst(outcome, calls)
      invariant m.inbox == old(m.inbox) && m.acked == old(m.acked)
    {
      calls := calls + 1;
      if outcome(attempt - 1) {
        break;
      }
      if attempt == STT_MAX_ATTEMPTS {
        return;
      }
    }
    m.inbox := m.inbox + {message.event};
    m.acked := m.acked + {message.entry};
  }

  /**
   A consumer working through deliveries one by one lets each event's handler finish at most
   once, however often the event was published or redelivered.
   */
  method Consume(m: Messaging, messages: seq<Message>, outcomes: nat -> Oracle) returns (finished: seq<nat>)
    modifies m`inbox, m`acked
    ensures forall i, j :: 0 <= i < j < |finished| ==> finished[i] != finished[j]
    ensures forall event <- finished :: event !in old(m.inbox) && event in m.inbox
    ensures old(m.inbox) <= m.inbox
  {
    finished := [];
    for i := 0 to |messages|
      invariant forall i, j :: 0 <= i < j < |finished| ==> finished[i] != finished[j]
      invariant forall event <- finished :: event !in old(m.inbox) && event in m.inbox
      invariant old(m.inbox) <= m.inbox
    {
      var calls := DispatchStep(m, messages[i], outcomes(i));
      if calls > 0 && outcomes(i)(calls - 1) {
        finished := finished + [messages[i].event];
      }
    }
  }
}
