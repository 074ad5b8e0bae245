/**
 * The batching-and-flush pipeline of the MQTT-to-Kafka bridge, as values.
 *
 * A `State` is what the bridge holds at one instant: the message queue, the
 * three metrics counters, whether the process is still running, and a trace
 * of every interaction with the outside world so far. Each entry point of
 * the bridge (a message arriving, a flush, the shutdown sequence) is a
 * function from the old state to the new one. A flush is one atomic step:
 * the batch is cut off the queue, sent, and either counted as sent or put
 * back at the head.
 */
module Pipeline {

  /** One queued MQTT message: its payload as text and its arrival time in milliseconds. */
  datatype Record = Record(value: string, timestamp: int)

  /** The three metrics counters, which only ever go up. */
  datatype Counters = Counters(received: nat, sent: nat, sendErrors: nat)

  /** An interaction of the bridge with the outside world. */
  datatype Action =
    | Receive(record: Record)             // an MQTT message arrived and was queued
    | Send(batch: seq<Record>, ok: bool)  // one producer send of a batch, and whether it succeeded
    | DisconnectProducer                  // the Kafka producer was closed
    | EndIngress                          // the MQTT client was ended
    | Exit                                // the process exited

  datatype State = State(queue: seq<Record>, counters: Counters, running: bool, trace: seq<Action>)

  /** What one call of the flush did. */
  datatype FlushResult =
    | Skipped                           // the queue was empty: nothing happened
    | Delivered(batch: seq<Record>)     // the batch was sent and counted
    | Requeued(batch: seq<Record>)      // the send failed and the batch went back to the head

  datatype Option<T> = None | Some(value: T)

  /** The state at start-up: nothing queued, nothing counted, nothing happened yet. */
  function Init(): State {
    State([], Counters(0, 0, 0), true, [])
  }

  function Min(a: nat, b: nat): nat {
    if a <= b then a else b
  }

  // ---------------------------------------------------------------------------
  // What the trace says happened

  /** The records of the trace's Receive actions, in arrival order. */
  function Received(t: seq<Action>): seq<Record> {
    if t == [] then [] else Received(t[..|t| - 1]) + ReceivedBy(t[|t| - 1])
  }

  function ReceivedBy(a: Action): seq<Record> {
    if a.Receive? then [a.record] else []
  }

  /** The records Kafka accepted, batch after batch, in the order they were sent. */
  function SentRecords(t: seq<Action>): seq<Record> {
    if t == [] then [] else SentRecords(t[..|t| - 1]) + SentBy(t[|t| - 1])
  }

  function SentBy(a: Action): seq<Record> {
    if a.Send? && a.ok then a.batch else []
  }

  /** The number of sends that failed (one per attempt, however large the batch). */
  function FailedSends(t: seq<Action>): nat {
    if t == [] then 0 else FailedSends(t[..|t| - 1]) + FailedBy(t[|t| - 1])
  }

  function FailedBy(a: Action): nat {
    if a.Send? && !a.ok then 1 else 0
  }

  /** No send to Kafka comes after the producer was disconnected. */
  predicate NoSendAfterDisconnect(t: seq<Action>) {
    forall i, j :: 0 <= i < j < |t| && t[i].DisconnectProducer? ==> !t[j].Send?
  }

  // ---------------------------------------------------------------------------
  // The operations

  /**
   * `queue.splice(0, n)`: the removed head and what stays behind, for a
   * non-negative count `n`.
   */
  function Splice(q: seq<Record>, n: nat): (r: (seq<Record>, seq<Record>))
    ensures r.0 + r.1 == q
    ensures |r.0| == Min(n, |q|)
  {
    var k := Min(n, |q|);
    (q[..k], q[k..])
  }

  /**
   * `flushMessages` run to completion: on an empty queue nothing happens;
   * otherwise the first `batchSize` records (or all of them, if fewer) are
   * sent as one batch; a success adds the batch length to `sent`, a failure
   * adds one to `sendErrors` and puts the batch back at the head.
   */
  function FlushStep(s: State, batchSize: nat, sendOk: bool): (r: (State, FlushResult))
    ensures s.queue == [] ==> r == (s, Skipped)
    ensures s.queue != [] ==>
      && !r.1.Skipped?
      && r.1.batch <= s.queue
      && |r.1.batch| == Min(batchSize, |s.queue|)
      && (r.1.Delivered? <==> sendOk)
      && r.0.trace == s.trace + [Send(r.1.batch, sendOk)]
    ensures r.1.Delivered? ==>
      && r.1.batch + r.0.queue == s.queue
      && r.0.counters == s.counters.(sent := s.counters.sent + |r.1.batch|)
    ensures r.1.Requeued? ==>
      && r.0.queue == s.queue
      && r.0.counters == s.counters.(sendErrors := s.counters.sendErrors + 1)
    ensures r.0.running == s.running
  {
    if |s.queue| == 0 then
      (s, Skipped)
    else
      var (batch, rest) := Splice(s.queue, batchSize);
      var trace := s.trace + [Send(batch, sendOk)];
      if sendOk then
        (s.(queue := rest, counters := s.counters.(sent := s.counters.sent + |batch|), trace := trace),
         Delivered(batch))
      else
        (s.(queue := batch + rest, counters := s.counters.(sendErrors := s.counters.sendErrors + 1), trace := trace),
         Requeued(batch))
  }

  /**
   * The two first lines of the message handler: count the message and
   * append it to the queue, leaving the earlier records where they were.
   */
  function Push(s: State, rec: Record): (r: State)
    ensures |r.queue| == |s.queue| + 1
    ensures r.queue[..|s.queue|] == s.queue && r.queue[|s.queue|] == rec
    ensures r.counters == s.counters.(received := s.counters.received + 1)
    ensures r.trace == s.trace + [Receive(rec)] && r.running == s.running
  {
    s.(queue := s.queue + [rec],
       counters := s.counters.(received := s.counters.received + 1),
       trace := s.trace + [Receive(rec)])
  }

  /**
   * The MQTT message handler: the record is counted and appended, and a
   * flush is run exactly when the queue then holds at least `batchSize`
   * records; `sendOk` is the outcome of that flush's send, if there is one.
   */
  function EnqueueStep(s: State, batchSize: nat, rec: Record, sendOk: bool): (r: (State, Option<FlushResult>))
    ensures r.1.Some? <==> |s.queue| + 1 >= batchSize
    ensures r.0.counters.received == s.counters.received + 1
    ensures r.0.counters.sent == s.counters.sent + (if r.1.Some? && r.1.value.Delivered? then |r.1.value.batch| else 0)
    ensures r.0.counters.sendErrors == s.counters.sendErrors + (if r.1.Some? && r.1.value.Requeued? then 1 else 0)
    ensures r.1.None? ==> r.0.queue == s.queue + [rec]
    ensures r.1.Some? ==>
      && !r.1.value.Skipped?
      && (r.1.value.Delivered? <==> sendOk)
      && r.1.value.batch <= s.queue + [rec]
      && |r.1.value.batch| == Min(batchSize, |s.queue| + 1)
    ensures r.1.Some? && r.1.value.Requeued? ==> r.0.queue == s.queue + [rec]
    ensures r.1.Some? && r.1.value.Delivered? ==> r.1.value.batch + r.0.queue == s.queue + [rec]
    ensures r.0.running == s.running
  {
    var pushed := Push(s, rec);
    if |pushed.queue| >= batchSize then
      var (flushed, result) := FlushStep(pushed, batchSize, sendOk);
      (flushed, Some(result))
    else
      (pushed, None)
  }

  /**
   * The shutdown sequence: one final flush, then the producer is
   * disconnected, then the MQTT client is ended, then the process exits.
   * The flush is not repeated, so a failed final send leaves its records in
   * the queue of a process that has stopped.
   */
  function ShutdownStep(s: State, batchSize: nat, sendOk: bool): (r: (State, FlushResult))
    ensures !r.0.running
    ensures !r.1.Skipped? ==>
      && r.1.batch == s.queue[..Min(batchSize, |s.queue|)]
      && (r.1.Delivered? <==> sendOk)
    ensures r.1.Delivered? ==>
      && r.1.batch + r.0.queue == s.queue
      && r.0.counters == s.counters.(sent := s.counters.sent + |r.1.batch|)
    ensures r.1.Requeued? ==> r.0.counters == s.counters.(sendErrors := s.counters.sendErrors + 1)
    ensures r.1.Skipped? ==> r.0.queue == s.queue && r.0.counters == s.counters
    ensures r.0.trace == s.trace
                         + (if r.1.Skipped? then [] else [Send(r.1.batch, sendOk)])
                         + [DisconnectProducer, EndIngress, Exit]
    ensures s.queue == [] <==> r.1.Skipped?
    ensures |r.0.queue| <= |s.queue|
    ensures |s.queue| - |r.0.queue| <= batchSize
    ensures !sendOk ==> r.0.queue == s.queue
    ensures sendOk && |s.queue| <= batchSize ==> r.0.queue == []
    ensures r.0.counters.received == s.counters.received
  {
    var (flushed, result) := FlushStep(s, batchSize, sendOk);
    (flushed.(running := false, trace := flushed.trace + [DisconnectProducer, EndIngress, Exit]), result)
  }

  // ---------------------------------------------------------------------------
  // Runs of the bridge

  /**
   * Whatever can happen to the bridge next: a message arrives, the flush
   * timer fires, or a termination signal arrives. `sendOk` is the outcome
   * of the Kafka send the event leads to, if it leads to one.
   */
  datatype Event =
    | Message(record: Record, sendOk: bool)
    | Tick(sendOk: bool)
    | Signal(sendOk: bool)

  /**
   * One event: only a signal stops the process, and what has happened
   * stays in the trace.
   */
  function Step(s: State, batchSize: nat, e: Event): (r: State)
    ensures e.Signal? ==> !r.running
    ensures !e.Signal? ==> r.running == s.running
    ensures s.trace <= r.trace
    ensures r.counters.received == s.counters.received + (if e.Message? then 1 else 0)
  {
    match e
    case Message(rec, ok) => EnqueueStep(s, batchSize, rec, ok).0
    case Tick(ok) => FlushStep(s, batchSize, ok).0
    case Signal(ok) => ShutdownStep(s, batchSize, ok).0
  }

  /** The events in order, until the process exits; after that nothing happens any more. */
  function Run(s: State, batchSize: nat, events: seq<Event>): (r: State)
    ensures !s.running ==> r == s
    ensures s.trace <= r.trace
    ensures r.counters.received <= s.counters.received + |events|
    decreases |events|
  {
    if events == [] || !s.running then s else Run(Step(s, batchSize, events[0]), batchSize, events[1..])
  }
}
