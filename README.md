# MQTT-to-Kafka bridge: the batching-and-flush pipeline

This project models the core of a small bridge that subscribes to an MQTT
topic and forwards the messages to a Kafka topic in batches, and proves
properties of that model in Dafny.

The bridge keeps one in-memory queue of records `{value, timestamp}` and
three Prometheus counters: messages received, messages sent, send errors.
Each MQTT message is counted and appended to the queue. When the queue
reaches `BATCH_SIZE` records, the bridge flushes it. A timer also flushes it
every `FLUSH_INTERVAL` milliseconds.

A flush works like this:
- it does nothing if the queue is empty;
- otherwise it splices up to `BATCH_SIZE` records off the head and sends them to Kafka as one batch;
- on success it adds the batch length to the sent counter;
- on failure it adds one to the error counter and puts the whole batch back at the head.

On SIGINT or SIGTERM the bridge runs one last flush, disconnects the Kafka
producer, ends the MQTT client and exits.

Files:
- `pipeline.dfy`, module `Pipeline`: the records, counters and state as datatypes. Each entry point is a step function from the old state to the new one: `EnqueueStep` (the message handler), `FlushStep` (`flushMessages`), `ShutdownStep` (`shutdown`). `Run` runs a sequence of arriving events: messages, timer ticks, a signal. The state carries a trace of every interaction with MQTT and Kafka (`Receive`, `Send(batch, ok)`, `DisconnectProducer`, `EndIngress`, `Exit`). `Received`, `SentRecords` and `FailedSends` read what happened off that trace.
- `properties.dfy`, module `PipelineProperties`: the invariant `Inv` and lemmas about the step functions and about whole runs.
- `bridge.dfy`, module `Process`: class `Bridge`. Its `queue` (a `seq`) and its counters are updated in place by `OnMessage`, `Flush` and `Shutdown`, as the source mutates its module-level array. Each method is proved equal to the step function, `(View(), result) == FlushStep(old(View()), …)`, and to keep `Valid()`, which is `Inv` of the object's state.

Environment inputs are parameters:
- the outcome of each Kafka send is a `bool` (`sendOk`);
- `message.toString()` and `Date.now()` are the `value` and `timestamp` arguments of `OnMessage`;
- `BATCH_SIZE` is the constructor argument `batchSize`.

A flush is modelled as one atomic step: the splice, the send and the success or requeue happen together.

`batchSize` is a `nat` with no precondition. With 0, every message triggers a flush, and `splice(0, 0)` takes an empty batch, which the model reproduces. The lemmas that need a positive size say so.

Three things the code does not guard against, and what the model does about them:
- `flushMessages` (index.js:63-77) has no guard against a timer flush overlapping a size-triggered flush. The model makes each flush atomic.
- The interval set at index.js:79 is never cleared at shutdown. The model's shutdown is, as in the code, flush, disconnect, end, exit.
- A second SIGINT or SIGTERM (index.js:98-99) runs `shutdown` again. In the model, events after the exit have no effect.

## Model

| member | source | states |
|---|---|---|
| `Pipeline.Splice` | index.js:66 | `splice(0, n)` splits the queue into a removed head of exactly `min(n, length)` records and the rest; the two concatenated give back the queue |
| `Pipeline.FlushStep` | index.js:63-77 | empty queue: the state is unchanged and nothing is sent. Otherwise the batch is the first `min(BATCH_SIZE, length)` records, sent once. Success: batch followed by the new queue is the old queue, and `sent` grows by the batch length while the other counters stay. Failure: the queue is exactly restored, `sendErrors` grows by 1, `sent` stays |
| `Pipeline.EnqueueStep` | index.js:56-61 | `received` grows by exactly 1, and a flush runs if and only if the queue length after the append is at least `BATCH_SIZE`. With no flush, the new queue is the old one plus the record at the tail. With a flush, the batch is a prefix of the old queue plus the record, and on failure that extended queue is kept |
| `Pipeline.ShutdownStep` | index.js:90-96 | exactly one flush happens, and at most one send, before the producer is disconnected; then the MQTT client is ended and the process exits. The final batch is the first `min(BATCH_SIZE, length)` records of the queue. Success: the batch followed by the new queue is the old queue, and `sent` grows by the batch length. Failure: the queue is kept as it was and `sendErrors` grows by 1. Empty queue: queue and counters stay. At most `BATCH_SIZE` records are removed. With a working Kafka and at most `BATCH_SIZE` records queued, the queue drains. The process is no longer running |
| `Pipeline.Push` | index.js:57-58 | the queue grows by exactly one record, at the tail, and the earlier records are untouched. `received` grows by 1 and the other counters stay. One `Receive` is added to the trace |
| `Pipeline.Step` | index.js:56-99 | one event dispatched to its entry point: the message handler (index.js:56), the timer flush (index.js:79) or the signal handler (index.js:98-99). Only a signal stops the process. The trace only grows. `received` grows by 1 exactly on a message. StepPreservesInv and StepCountersGrow are about it |
| `Pipeline.Run` | index.js:56-95 | the events in order until `process.exit`. After the exit nothing changes. The trace only grows, and `received` grows by at most one per event. RunPreservesInv and RunCountersGrow are about it |
| `PipelineProperties.InitInv` | index.js:18-43 | at start-up (empty queue, counters at zero, empty trace) the invariant holds |
| `PipelineProperties.PushPreservesInv` | index.js:57-58 | counting and appending a message keeps the invariant |
| `PipelineProperties.FlushPreservesInv` | index.js:63-77 | a flush keeps the invariant. The records Kafka accepted, followed by the queue, are still all received records in order, and the counters still match the trace |
| `PipelineProperties.EnqueuePreservesInv` | index.js:56-61 | the message handler, including the flush it may trigger, keeps the invariant |
| `PipelineProperties.ShutdownPreservesInv` | index.js:90-96 | shutdown keeps the invariant, including that no send follows the producer's disconnect |
| `PipelineProperties.StepPreservesInv` | index.js:56-99 | any event to a running bridge (message, timer tick, signal) keeps the invariant |
| `PipelineProperties.RunPreservesInv` | index.js:56-99 | any sequence of events keeps the invariant (induction on the events) |
| `PipelineProperties.Conservation` | index.js:57-75 | under the invariant, `received == sent + queue length`. The records sent are a prefix of the records received (FIFO delivery), and the queue is exactly the received records after the first `sent` |
| `PipelineProperties.RunConservation` | index.js:56-99 | from start-up, after any events: the counters balance, delivery follows arrival order, and there is no send after the disconnect |
| `PipelineProperties.StepCountersGrow` | index.js:57-74 | no event decreases any of the three counters |
| `PipelineProperties.RunCountersGrow` | index.js:18-31 | the three counters never decrease over any run (induction on the events) |
| `PipelineProperties.RetrySendsSameBatch` | index.js:66-75 | after a failed flush, the next flush sends the very same batch, so failed records are retried before newer ones |
| `PipelineProperties.EnqueueStaysBelowThreshold` | index.js:58-66 | with a positive batch size and a working Kafka, a handler call that starts below the threshold leaves the queue below it |
| `PipelineProperties.FailedShutdownIsFinal` | index.js:90-96 | if the final flush fails, the records stay queued and are never sent, whatever events follow |
| `PipelineProperties.QueueBelowThreshold` | index.js:56-60 | from start-up, messages that stay below the threshold trigger no flush. The queue holds exactly those records in arrival order, `received` is their number, and nothing is sent |
| `PipelineProperties.ShutdownDrains` | index.js:56-96 | with fewer than `BATCH_SIZE` messages queued and a working Kafka, a signal's final flush sends all of them as one batch before the disconnect. The queue is left empty, the counters are n/n/0, and the trace ends with that send, the disconnect, the MQTT end and the exit |
| `PipelineProperties.ThresholdScenario` | index.js:56-77 | threshold 3, messages A..E: the batch [A, B, C] is sent at C, [D, E] stay queued, and a manual flush sends them, leaving counters 5/5/0 |
| `PipelineProperties.RetryScenario` | index.js:63-77 | two messages, a failed flush (queue kept, counters 2/0/1), then a successful one (queue empty, counters 2/2/1) |
| `Process.Bridge.constructor` | index.js:18-45 | a new bridge has an empty queue, zero counters, the given batch size and is running |
| `Process.Bridge.Flush` | index.js:63-77 | the in-place flush (splice, send, count or unshift) produces exactly `FlushStep`'s state and result, and keeps `Valid()` |
| `Process.Bridge.OnMessage` | index.js:56-61 | the in-place handler (inc, push, size-triggered flush) produces exactly `EnqueueStep`'s state and result, and keeps `Valid()` |
| `Process.Bridge.Shutdown` | index.js:90-96 | flush, disconnect, end and exit in that order produce exactly `ShutdownStep`'s state. The bridge is no longer running, so no method can be called after it |

## Left out

- MQTT connect and subscribe (index.js:42, 49-54) are network I/O and are not modelled. `mqttClient.end()` (index.js:94) is reduced to the trace action `EndIngress`.
- The Kafka client, `producer.connect` and `producer.send` (index.js:39-40, 47, 70) are a foreign library. A send is reduced to its success or failure, the `sendOk` parameter. `producer.disconnect` (index.js:93) is reduced to the trace action `DisconnectProducer`.
- The prom-client registry, default metrics and the Express `/metrics` endpoint (index.js:13-16, 33-36, 81-88) are a library wrapper and an HTTP server. Only the three counter values are modelled.
- Configuration (`dotenv`, `process.env`, `parseInt`, index.js:1, 8-11, 44-45) is not modelled. The batch size comes in as a natural number, so a `NaN` from `parseInt` is not modelled.
- `setInterval` (index.js:79) is not modelled as a clock. A timer tick is the `Tick` event, a plain call of the flush.
- Concurrency: an in-flight `await producer.send` can interleave with further messages or a timer flush, and the source has no guard against it. That interleaving is not modelled: every flush is atomic.
- `process.exit` (index.js:95) is modelled as the process no longer running. Class methods require a running bridge, and `Run` ignores events after the exit.
- ShutdownStep: the whole shutdown sequence is one atomic step, but `shutdown` awaits twice (index.js:92-93). Meanwhile the interval (index.js:79) keeps firing, and MQTT messages keep arriving until index.js:94. So in the code a timer or size-triggered flush can run between the final flush and `process.exit`. For example, after a failed final send, a tick during `await producer.disconnect()` can splice the requeued records and call `producer.send` again. "At most one send before the disconnect" and "no send after it" hold only under this abstraction.
- FailedShutdownIsFinal: "the records stay queued and are never sent" holds only because the model's shutdown is atomic (see the ShutdownStep line above). In the code, a timer flush during the awaits of `shutdown` could still send them.
- Of the signal handlers (index.js:98-99), only the effect of one signal is modelled. A second signal arriving while the first shutdown awaits is concurrency.
- Console logging (index.js:67, 73) is not modelled.
