/**
 * What every run of the pipeline keeps true: nothing is lost or duplicated,
 * records reach Kafka in arrival order, the counters say what the trace says
 * and only go up, and nothing is sent once the producer has been closed.
 */
module PipelineProperties {
  import opened Pipeline

  /**
   * The pipeline invariant: the records Kafka accepted, followed by the
   * queue, are exactly the records received, in order; each counter agrees
   * with the trace; no send follows the producer's disconnect, and a
   * running process has not disconnected it.
   */
  predicate Inv(s: State) {
    && SentRecords(s.trace) + s.queue == Received(s.trace)
    && s.counters.received == |Received(s.trace)|
    && s.counters.sent == |SentRecords(s.trace)|
    && s.counters.sendErrors == FailedSends(s.trace)
    && NoSendAfterDisconnect(s.trace)
    && (s.running ==> DisconnectProducer !in s.trace)
  }

  /** Every counter is at least what it was. */
  predicate CountersGrow(before: Counters, after: Counters) {
    && before.received <= after.received
    && before.sent <= after.sent
    && before.sendErrors <= after.sendErrors
  }

  // ---------------------------------------------------------------------------
  // The trace functions on a trace grown by one action

  lemma AppendOne(t: seq<Action>, a: Action)
    ensures Received(t + [a]) == Received(t) + ReceivedBy(a)
    ensures SentRecords(t + [a]) == SentRecords(t) + SentBy(a)
    ensures FailedSends(t + [a]) == FailedSends(t) + FailedBy(a)
  {
    assert (t + [a])[..|t|] == t;
  }

  /** Appending an action other than a send keeps NoSendAfterDisconnect. */
  lemma AppendNonSend(t: seq<Action>, a: Action)
    requires NoSendAfterDisconnect(t)
    requires !a.Send?
    ensures NoSendAfterDisconnect(t + [a])
  {
    var u := t + [a];
    forall i, j | 0 <= i < j < |u| && u[i].DisconnectProducer?
      ensures !u[j].Send?
    {
      if j < |t| {
        assert u[i] == t[i] && u[j] == t[j];
      }
    }
  }

  /** A send appended before any disconnect keeps NoSendAfterDisconnect. */
  lemma AppendSend(t: seq<Action>, a: Action)
    requires DisconnectProducer !in t
    ensures NoSendAfterDisconnect(t + [a])
  {
    forall i | 0 <= i < |t|
      ensures !(t + [a])[i].DisconnectProducer?
    {
      assert (t + [a])[i] == t[i];
      assert t[i] in t;
    }
  }

  /** Actions that deliver nothing leave the sent records as they were. */
  lemma {:induction false} AppendUnsent(t: seq<Action>, u: seq<Action>)
    requires forall k :: 0 <= k < |u| ==> SentBy(u[k]) == []
    ensures SentRecords(t + u) == SentRecords(t)
    decreases |u|
  {
    if u != [] {
      var w := u[..|u| - 1];
      assert t + u == (t + w) + [u[|u| - 1]];
      AppendOne(t + w, u[|u| - 1]);
      AppendUnsent(t, w);
    } else {
      assert t + u == t;
    }
  }

  // ---------------------------------------------------------------------------
  // Each operation keeps the invariant

  lemma InitInv()
    ensures Inv(Init())
  {
  }

  lemma FlushPreservesInv(s: State, batchSize: nat, sendOk: bool)
    requires Inv(s) && s.running
    ensures Inv(FlushStep(s, batchSize, sendOk).0)
  {
    var (s', result) := FlushStep(s, batchSize, sendOk);
    if s.queue != [] {
      var a := Send(result.batch, sendOk);
      AppendOne(s.trace, a);
      AppendSend(s.trace, a);
    }
  }

  lemma PushPreservesInv(s: State, rec: Record)
    requires Inv(s) && s.running
    ensures Inv(Push(s, rec))
  {
    AppendOne(s.trace, Receive(rec));
    AppendNonSend(s.trace, Receive(rec));
    assert SentRecords(s.trace) + (s.queue + [rec]) == Received(s.trace) + [rec];
  }

  lemma EnqueuePreservesInv(s: State, batchSize: nat, rec: Record, sendOk: bool)
    requires Inv(s) && s.running
    ensures Inv(EnqueueStep(s, batchSize, rec, sendOk).0)
  {
    PushPreservesInv(s, rec);
    if |s.queue| + 1 >= batchSize {
      FlushPreservesInv(Push(s, rec), batchSize, sendOk);
    }
  }

  lemma ShutdownPreservesInv(s: State, batchSize: nat, sendOk: bool)
    requires Inv(s) && s.running
    ensures Inv(ShutdownStep(s, batchSize, sendOk).0)
  {
    var f := FlushStep(s, batchSize, sendOk).0;
    FlushPreservesInv(s, batchSize, sendOk);
    var t1 := f.trace + [DisconnectProducer];
    var t2 := t1 + [EndIngress];
    var t3 := t2 + [Exit];
    AppendOne(f.trace, DisconnectProducer);
    AppendNonSend(f.trace, DisconnectProducer);
    AppendOne(t1, EndIngress);
    AppendNonSend(t1, EndIngress);
    AppendOne(t2, Exit);
    AppendNonSend(t2, Exit);
    assert t3 == f.trace + [DisconnectProducer, EndIngress, Exit];
  }

  lemma StepPreservesInv(s: State, batchSize: nat, e: Event)
    requires Inv(s) && s.running
    ensures Inv(Step(s, batchSize, e))
  {
    match e
    case Message(rec, ok) => EnqueuePreservesInv(s, batchSize, rec, ok);
    case Tick(ok) => FlushPreservesInv(s, batchSize, ok);
    case Signal(ok) => ShutdownPreservesInv(s, batchSize, ok);
  }

  /** Every run from a state satisfying the invariant ends in one that does. */
  lemma {:induction false} RunPreservesInv(s: State, batchSize: nat, events: seq<Event>)
    requires Inv(s)
    ensures Inv(Run(s, batchSize, events))
    decreases |events|
  {
    if events != [] && s.running {
      StepPreservesInv(s, batchSize, events[0]);
      RunPreservesInv(Step(s, batchSize, events[0]), batchSize, events[1..]);
    }
  }

  // ---------------------------------------------------------------------------
  // What the invariant gives

  /**
   * Conservation and FIFO order: every received record has either been
   * accepted by Kafka or is still queued, so `received == sent + |queue|`;
   * and Kafka received the records in the order they arrived.
   */
  lemma Conservation(s: State)
    requires Inv(s)
    ensures s.counters.received == s.counters.sent + |s.queue|
    ensures SentRecords(s.trace) <= Received(s.trace)
    ensures s.queue == Received(s.trace)[s.counters.sent..]
  {
    assert |SentRecords(s.trace) + s.queue| == |SentRecords(s.trace)| + |s.queue|;
  }

  /** From start-up, whatever happens, the counters balance and delivery is in arrival order. */
  lemma RunConservation(batchSize: nat, events: seq<Event>)
    ensures var s := Run(Init(), batchSize, events);
      && s.counters.received == s.counters.sent + |s.queue|
      && SentRecords(s.trace) <= Received(s.trace)
      && NoSendAfterDisconnect(s.trace)
  {
    InitInv();
    RunPreservesInv(Init(), batchSize, events);
    Conservation(Run(Init(), batchSize, events));
  }

  // ---------------------------------------------------------------------------
  // The counters only go up

  lemma StepCountersGrow(s: State, batchSize: nat, e: Event)
    ensures CountersGrow(s.counters, Step(s, batchSize, e).counters)
  {
  }

  lemma {:induction false} RunCountersGrow(s: State, batchSize: nat, events: seq<Event>)
    ensures CountersGrow(s.counters, Run(s, batchSize, events).counters)
    decreases |events|
  {
    if events != [] && s.running {
      var s' := Step(s, batchSize, events[0]);
      StepCountersGrow(s, batchSize, events[0]);
      RunCountersGrow(s', batchSize, events[1..]);
    }
  }

  // ---------------------------------------------------------------------------
  // Retry, threshold and shutdown

  /**
   * After a failed flush the next flush sends the very same batch: the
   * failed records are retried first, before anything that came later.
   */
  lemma RetrySendsSameBatch(s: State, batchSize: nat, sendOk: bool)
    requires s.queue != []
    ensures var (failed, first) := FlushStep(s, batchSize, false);
            var (_, second) := FlushStep(failed, batchSize, sendOk);
            !second.Skipped? && second.batch == first.batch
  {
  }

  /**
   * With a positive batch size and a working Kafka, a message handler that
   * starts below the threshold leaves the queue below the threshold.
   */
  lemma EnqueueStaysBelowThreshold(s: State, batchSize: nat, rec: Record)
    requires batchSize > 0 && |s.queue| < batchSize
    ensures |EnqueueStep(s, batchSize, rec, true).0.queue| < batchSize
  {
  }

  /**
   * A failed final flush is never retried: the records stay queued and are
   * never sent, whatever events come after the shutdown. This rests on the
   * shutdown sequence being one atomic step.
   */
  lemma FailedShutdownIsFinal(s: State, batchSize: nat, events: seq<Event>)
    ensures var down := ShutdownStep(s, batchSize, false).0;
            var later := Run(down, batchSize, events);
            later == down && later.queue == s.queue
            && SentRecords(later.trace) == SentRecords(s.trace)
  {
    var (down, result) := ShutdownStep(s, batchSize, false);
    var u := (if result.Skipped? then [] else [Send(result.batch, false)])
             + [DisconnectProducer, EndIngress, Exit];
    assert down.trace == s.trace + u;
    AppendUnsent(s.trace, u);
  }

  /** One message event per record, each of whose sends (if any) would succeed. */
  function Messages(recs: seq<Record>): seq<Event> {
    if recs == [] then [] else Messages(recs[..|recs| - 1]) + [Message(recs[|recs| - 1], true)]
  }

  /** The trace of those records arriving, in order. */
  function Receives(recs: seq<Record>): seq<Action> {
    if recs == [] then [] else Receives(recs[..|recs| - 1]) + [Receive(recs[|recs| - 1])]
  }

  /**
   * Before the threshold is reached no flush is triggered: the queue holds
   * exactly the received records in arrival order, and nothing was sent.
   */
  lemma {:induction false} QueueBelowThreshold(recs: seq<Record>, batchSize: nat)
    requires |recs| < batchSize
    ensures Run(Init(), batchSize, Messages(recs))
         == State(recs, Counters(|recs|, 0, 0), true, Receives(recs))
    decreases |recs|
  {
    if recs != [] {
      var front := recs[..|recs| - 1];
      var last := recs[|recs| - 1];
      QueueBelowThreshold(front, batchSize);
      var s := State(front, Counters(|front|, 0, 0), true, Receives(front));
      RunAppend(Init(), batchSize, Messages(front), [Message(last, true)]);
      RunCons(s, batchSize, Message(last, true), []);
      assert [Message(last, true)] + [] == [Message(last, true)];
      assert front + [last] == recs;
    }
  }

  /**
   * The shutdown drain: messages that stay below the threshold, then a
   * termination signal with a working Kafka. The final flush sends all of
   * them as one batch before the producer is disconnected, and nothing is
   * left queued.
   */
  lemma ShutdownDrains(recs: seq<Record>, batchSize: nat)
    requires 0 < |recs| < batchSize
    ensures var s := Run(Init(), batchSize, Messages(recs) + [Signal(true)]);
            && s.queue == []
            && s.counters == Counters(|recs|, |recs|, 0)
            && !s.running
            && s.trace == Receives(recs) + [Send(recs, true), DisconnectProducer, EndIngress, Exit]
  {
    var queued := State(recs, Counters(|recs|, 0, 0), true, Receives(recs));
    QueueBelowThreshold(recs, batchSize);
    RunAppend(Init(), batchSize, Messages(recs), [Signal(true)]);
    RunCons(queued, batchSize, Signal(true), []);
    assert [Signal(true)] + [] == [Signal(true)];
    assert recs[..Min(batchSize, |recs|)] == recs;
  }

  // ---------------------------------------------------------------------------
  // Scenarios

  /**
   * Threshold 3, no timer: five messages A..E trigger a flush of [A, B, C]
   * at the third; a manual flush then sends [D, E]; five received, five sent.
   */
  lemma ThresholdScenario(a: Record, b: Record, c: Record, d: Record, e: Record)
    ensures var s := Run(Init(), 3, [Message(a, true), Message(b, true), Message(c, true),
                                     Message(d, true), Message(e, true)]);
            && s.queue == [d, e]
            && s.trace == [Receive(a), Receive(b), Receive(c), Send([a, b, c], true), Receive(d), Receive(e)]
            && var (s', r) := FlushStep(s, 3, true);
            && r == Delivered([d, e]) && s'.queue == []
            && s'.counters == Counters(5, 5, 0)
  {
    var first := [Message(a, true), Message(b, true), Message(c, true)];
    var s3 := State([], Counters(3, 3, 0), true, [Receive(a), Receive(b), Receive(c), Send([a, b, c], true)]);
    var s4 := State([d], Counters(4, 3, 0), true, s3.trace + [Receive(d)]);
    var s5 := State([d, e], Counters(5, 3, 0), true, s4.trace + [Receive(e)]);
    FirstBatch(a, b, c);
    assert Step(s3, 3, Message(d, true)) == s4;
    assert Step(s4, 3, Message(e, true)) == s5;
    RunCons(s4, 3, Message(e, true), []);
    RunCons(s3, 3, Message(d, true), [Message(e, true)]);
    RunAppend(Init(), 3, first, [Message(d, true), Message(e, true)]);
    assert first + [Message(d, true), Message(e, true)]
        == [Message(a, true), Message(b, true), Message(c, true), Message(d, true), Message(e, true)];
    assert [d, e][..Min(3, 2)] == [d, e];
  }

  /** The first three messages at threshold 3: the third triggers the flush of all three. */
  lemma FirstBatch(a: Record, b: Record, c: Record)
    ensures Run(Init(), 3, [Message(a, true), Message(b, true), Message(c, true)])
         == State([], Counters(3, 3, 0), true, [Receive(a), Receive(b), Receive(c), Send([a, b, c], true)])
  {
    var s1 := State([a], Counters(1, 0, 0), true, [Receive(a)]);
    var s2 := State([a, b], Counters(2, 0, 0), true, s1.trace + [Receive(b)]);
    var s3 := State([], Counters(3, 3, 0), true, s2.trace + [Receive(c), Send([a, b, c], true)]);
    assert Step(Init(), 3, Message(a, true)) == s1;
    assert Step(s1, 3, Message(b, true)) == s2;
    assert Push(s2, c).queue[..Min(3, 3)] == [a, b, c];
    assert Step(s2, 3, Message(c, true)) == s3;
    RunCons(s2, 3, Message(c, true), []);
    RunCons(s1, 3, Message(b, true), [Message(c, true)]);
    RunCons(Init(), 3, Message(a, true), [Message(b, true), Message(c, true)]);
  }

  /** Running two sequences of events one after the other is running their concatenation. */
  lemma {:induction false} RunAppend(s: State, batchSize: nat, first: seq<Event>, second: seq<Event>)
    ensures Run(s, batchSize, first + second) == Run(Run(s, batchSize, first), batchSize, second)
    decreases |first|
  {
    if first == [] {
      assert first + second == second;
    } else if s.running {
      assert (first + second)[0] == first[0];
      assert (first + second)[1..] == first[1..] + second;
      RunAppend(Step(s, batchSize, first[0]), batchSize, first[1..], second);
    }
  }

  /** One event to a running bridge, then the rest. */
  lemma RunCons(s: State, batchSize: nat, e: Event, rest: seq<Event>)
    requires s.running
    ensures Run(s, batchSize, [e] + rest) == Run(Step(s, batchSize, e), batchSize, rest)
  {
    assert ([e] + rest)[0] == e && ([e] + rest)[1..] == rest;
  }

  /** One failure, then a success: two messages, a failed flush, a retried flush. */
  lemma RetryScenario(a: Record, b: Record)
    ensures var s := Run(Init(), 500, [Message(a, true), Message(b, true), Tick(false)]);
            && s.queue == [a, b] && s.counters == Counters(2, 0, 1)
            && var s' := Run(s, 500, [Tick(true)]);
            && s'.queue == [] && s'.counters == Counters(2, 2, 1)
  {
    var s1 := State([a], Counters(1, 0, 0), true, [Receive(a)]);
    var s2 := State([a, b], Counters(2, 0, 0), true, s1.trace + [Receive(b)]);
    var s3 := State([a, b], Counters(2, 0, 1), true, s2.trace + [Send([a, b], false)]);
    var s4 := State([], Counters(2, 2, 1), true, s3.trace + [Send([a, b], true)]);
    assert [a, b][..Min(500, 2)] == [a, b];
    assert Step(Init(), 500, Message(a, true)) == s1;
    assert Step(s1, 500, Message(b, true)) == s2;
    assert Step(s2, 500, Tick(false)) == s3;
    assert Step(s3, 500, Tick(true)) == s4;
    RunCons(s2, 500, Tick(false), []);
    RunCons(s1, 500, Message(b, true), [Tick(false)]);
    RunCons(Init(), 500, Message(a, true), [Message(b, true), Tick(false)]);
    RunCons(s3, 500, Tick(true), []);
  }
}
