/**
 * The bridge process itself: one object owning the message queue and the
 * three counters, updated in place by the MQTT message handler, the flush
 * and the shutdown sequence. Each method is proved to do exactly what the
 * corresponding step function of module Pipeline says, and to keep the
 * invariant of module PipelineProperties.
 */
module Process {
  import opened Pipeline
  import opened PipelineProperties

  class Bridge {
    /** The count that triggers a size flush, and the most records one batch holds. */
    const batchSize: nat

    var queue: seq<Record>
    var received: nat
    var sent: nat
    var sendErrors: nat
    /** False once the shutdown sequence has exited the process. */
    var running: bool
    /** Every interaction with MQTT and Kafka so far, in order. */
    ghost var trace: seq<Action>

    ghost function View(): State
      reads this
    {
      State(queue, Counters(received, sent, sendErrors), running, trace)
    }

    ghost predicate Valid()
      reads this
    {
      Inv(View())
    }

    constructor (batchSize: nat)
      ensures Valid() && View() == Init() && this.batchSize == batchSize
    {
      this.batchSize := batchSize;
      queue := [];
      received, sent, sendErrors := 0, 0, 0;
      running := true;
      trace := [];
      new;
      InitInv();
    }

    /**
     * `flushMessages`: cut up to `batchSize` records off the head, send
     * them, and on failure put them back. `sendOk` is the outcome of the
     * Kafka send.
     */
    method Flush(sendOk: bool) returns (result: FlushResult)
      requires Valid() && running
      modifies this
      ensures Valid() && running
      ensures (View(), result) == FlushStep(old(View()), batchSize, sendOk)
    {
      ghost var before := View();
      ghost var expected := FlushStep(before, batchSize, sendOk);
      FlushPreservesInv(before, batchSize, sendOk);
      if |queue| == 0 {
        return Skipped;
      }
      var (batch, rest) := Splice(queue, batchSize);
      queue := rest;
      trace := trace + [Send(batch, sendOk)];
      if sendOk {
        sent := sent + |batch|;
        result := Delivered(batch);
      } else {
        sendErrors := sendErrors + 1;
        queue := batch + queue;
        assert queue == before.queue;
        result := Requeued(batch);
      }
      assert (View(), result) == expected;
    }

    /**
     * The MQTT message handler: count the message, queue it, and flush when
     * the queue has reached `batchSize`. `sendOk` is the outcome of that
     * flush's send, if it happens; the result says whether it did.
     */
    method OnMessage(value: string, timestamp: int, sendOk: bool) returns (flush: Option<FlushResult>)
      requires Valid() && running
      modifies this
      ensures Valid() && running
      ensures (View(), flush) == EnqueueStep(old(View()), batchSize, Record(value, timestamp), sendOk)
    {
      ghost var before := View();
      var rec := Record(value, timestamp);
      received := received + 1;
      queue := queue + [rec];
      trace := trace + [Receive(rec)];
      assert View() == Push(before, rec);
      PushPreservesInv(before, rec);
      if |queue| >= batchSize {
        var result := Flush(sendOk);
        flush := Some(result);
      } else {
        flush := None;
      }
    }

    /**
     * The shutdown sequence: one final flush, then the producer is
     * disconnected, then the MQTT client is ended, then the process exits.
     */
    method Shutdown(sendOk: bool) returns (result: FlushResult)
      requires Valid() && running
      modifies this
      ensures Valid() && !running
      ensures (View(), result) == ShutdownStep(old(View()), batchSize, sendOk)
    {
      ghost var before := View();
      result := Flush(sendOk);
      trace := trace + [DisconnectProducer];
      trace := trace + [EndIngress];
      trace := trace + [Exit];
      running := false;
      assert trace == FlushStep(before, batchSize, sendOk).0.trace + [DisconnectProducer, EndIngress, Exit];
      ShutdownPreservesInv(before, batchSize, sendOk);
    }
  }
}
