# Queue dispatcher: a sequential Dafny model

This project models the core of a thread-pool work-queue dispatcher
(`QueueProcess.AbstractFacilitator` and `QueueProcess.AbstractWorker`). Callers
push items into a shared FIFO queue. A single supervisory activation spawns up
to `maxThreads` workers. Each worker drains the queue one item, or one gathered
batch, at a time and hands what it took to caller-supplied processing logic.
The facilitator counts accepted and processed items, reaps finished workers,
collects their failures in an error log, and calls back once it observes
quiescence.

The model is a single-threaded interleaving model. Every public operation is
one atomic step:

- `Facilitators.Facilitator` is a class whose fields are the source's fields:
  the queue (`seq<T>`), the error log, the two counters, the outstanding worker
  handles, the activation handle and the two limits. It also has two logs that
  record the listener and callback calls.
- A `Future` is a value `Handle(done, failure)`. The executor finishing a
  worker is the explicit step `CompleteHandle`, or `RunWorker`, which runs a
  worker and then finishes its handle with the worker's outcome.
- `process` / `processBatch` are total functions that return `None` when the
  call returns and `Some(e)` when it throws `e`.
- A worker's whole `call()` is one step (`Workers.Worker.Call`). Its result is
  specified by the function `Workers.Drain`, and the properties of a run are
  proved about `Drain`.
- An `addToQueue` that would wait for capacity is a step that is not taken. It
  returns `appended == false` and changes nothing.

Between steps, `Facilitator.Valid()` holds: `processed + |queue| == totalItems`.
So at quiescence (empty queue) every accepted item has been counted as
processed, whether its processing failed or not.

Behaviour kept exactly as the code has it:

- The batch gather loops while `items.size() <= batchSize`, so a batch holds up
  to `batchSize + 1` items. A negative batch size makes a batch-mode worker take
  nothing and return at once.
- The two-argument worker constructor discards its `isBatchProcessing` argument
  and builds a single-mode worker with batch size 5.
- `isDone` reaps only when the queue is empty.
- A worker's collection whose processing throws an `Exception` is still
  counted as processed. The failure reaches the error log at the next reap of
  the worker's handle (by the activation or by `isDone`).

## Model

| member | source | states |
|---|---|---|
| `Facilitators.Pending` | src/main/java/QueueProcess/AbstractFacilitator.java:136-153 | the handles reaping keeps are all unfinished, and there are no more of them than there were handles |
| `Facilitators.Reaped` | src/main/java/QueueProcess/AbstractFacilitator.java:138-141 | the handles reaping removes are all finished |
| `Facilitators.Failures` | src/main/java/QueueProcess/AbstractFacilitator.java:142-145 | reaping logs at most one failure per removed handle: failures plus kept handles never outnumber the handles |
| `Facilitators.FailuresMembership` | src/main/java/QueueProcess/AbstractFacilitator.java:139-146 | membership both ways: every logged failure is the failure of a finished handle, and every finished handle that threw has its failure logged (one entry per handle follows from `ReapConcat`) |
| `Facilitators.ReapPartition` | src/main/java/QueueProcess/AbstractFacilitator.java:136-153 | reaping partitions the handles (as multisets): kept are exactly the unfinished ones, removed exactly the finished ones |
| `Facilitators.ReapConcat` | src/main/java/QueueProcess/AbstractFacilitator.java:139-150 | reaping goes handle by handle: reaping a concatenation keeps and logs what reaping each part does, in order |
| `Facilitators.ReapAllFinished` | src/main/java/QueueProcess/AbstractFacilitator.java:124-128 | once every handle has finished, reaping leaves none outstanding |
| `Facilitators.ReapNoFailures` | src/main/java/QueueProcess/AbstractFacilitator.java:142-145 | handles that finished without throwing add nothing to the error log |
| `Facilitators.ReapUnfinished` | src/main/java/QueueProcess/AbstractFacilitator.java:93-99 | reaping handles none of which has finished keeps them all and logs nothing, so repeated reaps in the spawn loop change nothing |
| `Facilitators.SpawnCount` | src/main/java/QueueProcess/AbstractFacilitator.java:97-99 | a spawn pass never takes the outstanding count above maxThreads, and fills it up to maxThreads when below |
| `Facilitators.Facilitator.constructor` | src/main/java/QueueProcess/AbstractFacilitator.java:17-29 | empty queue, log and handle list, zero counters, no activation, queue limit 20, maxThreads 5 |
| `Facilitators.Facilitator.Progressed` | src/main/java/QueueProcess/AbstractFacilitator.java:131-134 | the listener is told the current (processed, totalItems); nothing else changes |
| `Facilitators.Facilitator.IncrementProcessed` | src/main/java/QueueProcess/AbstractFacilitator.java:49-52 | processed grows by exactly size and the listener is told |
| `Facilitators.Facilitator.ItemsDone` | src/main/java/QueueProcess/AbstractFacilitator.java:54-56 | processed grows by exactly the number of items |
| `Facilitators.Facilitator.ItemsError` | src/main/java/QueueProcess/AbstractFacilitator.java:58-61 | processed grows by exactly the number of items, even though they failed |
| `Facilitators.Facilitator.RunFacilitator` | src/main/java/QueueProcess/AbstractFacilitator.java:79-85 | a new activation starts iff there is none or the previous one finished; an unfinished activation is never replaced |
| `Facilitators.Facilitator.AddToQueue` | src/main/java/QueueProcess/AbstractFacilitator.java:63-77 | with a positive limit the append happens only below the limit (a limit ≤ 0 never waits); then the item goes to the tail, earlier contents unchanged, totalItems grows by one, the listener is told, the single-flight guard runs, and the queue stays within a positive limit |
| `Facilitators.Facilitator.ValidateFutures` | src/main/java/QueueProcess/AbstractFacilitator.java:136-153 | the handle list becomes the unfinished handles, and the failures of the finished ones are appended to the unchanged error log |
| `Facilitators.Facilitator.IsDone` | src/main/java/QueueProcess/AbstractFacilitator.java:119-129 | true iff the queue is empty and no handle is outstanding after reaping; it reaps only when the queue is empty |
| `Facilitators.Facilitator.SpawnWorkers` | src/main/java/QueueProcess/AbstractFacilitator.java:93-100 | with a non-empty queue, reaps once and submits workers until maxThreads are outstanding; if at most maxThreads were outstanding, at most maxThreads are outstanding after |
| `Facilitators.Facilitator.ActivationPass` | src/main/java/QueueProcess/AbstractFacilitator.java:91-110 | at quiescence the callback gets the error log once and the activation finishes; otherwise it reaps and spawns; the maxThreads bound is preserved |
| `Facilitators.Facilitator.CompleteHandle` | src/main/java/QueueProcess/AbstractFacilitator.java:98 | the executor finishes one outstanding handle with or without a failure; nothing else changes |
| `Facilitators.Facilitator.SetMaxThreads` | src/main/java/QueueProcess/AbstractFacilitator.java:155-157 | sets maxThreads and changes no other field |
| `Facilitators.Facilitator.SetQueueSizeLimit` | src/main/java/QueueProcess/AbstractFacilitator.java:159-161 | sets queueSizeLimit and changes no other field |
| `Workers.Gather` | src/main/java/QueueProcess/AbstractWorker.java:39-46 | a gather never takes more items than the queue holds |
| `Workers.Drain` | src/main/java/QueueProcess/AbstractWorker.java:32-67 | FIFO: the collections handed over, concatenated, plus what is left are the initial queue; every collection is non-empty, one item in single mode and at most batchSize + 1 in batch mode; a normal return happens only on a gather that obtains nothing; a failure ends the run right after the collection that caused it |
| `Workers.DrainOutcomes` | src/main/java/QueueProcess/AbstractWorker.java:56-65 | every collection but the last was processed without failure; a run that returns normally had no failure; a failing run rethrows what its last collection threw |
| `Workers.DrainWithoutFailures` | src/main/java/QueueProcess/AbstractWorker.java:34-66 | when processing never fails and a gather on a non-empty queue takes something, a run ends normally with an empty queue, having handed over every item in order |
| `Workers.NegativeBatchSizeTakesNothing` | src/main/java/QueueProcess/AbstractWorker.java:39-54 | with a negative batch size a batch-mode worker takes nothing and returns normally |
| `Workers.FirstBatchHoldsOneExtra` | src/main/java/QueueProcess/AbstractWorker.java:39-43 | in batch mode on a queue longer than batchSize, the first batch is the first batchSize + 1 items |
| `Workers.SixItemsBatchOfThree` | src/main/java/QueueProcess/AbstractWorker.java:39-65 | six items with batch size 3 and a failure on item 4: one batch [1, 2, 3, 4] fails, and 5 and 6 stay queued |
| `Workers.Worker.constructor` | src/main/java/QueueProcess/AbstractWorker.java:14-16 | single mode, batch size 5 |
| `Workers.Worker.WithMode` | src/main/java/QueueProcess/AbstractWorker.java:18-20 | single mode, batch size 5, whatever isBatchProcessing says |
| `Workers.Worker.WithBatch` | src/main/java/QueueProcess/AbstractWorker.java:22-26 | keeps the given mode and batch size |
| `Workers.Worker.GatherItems` | src/main/java/QueueProcess/AbstractWorker.java:39-46 | removes exactly the head item (single mode), or the longest head prefix the batch guard admits (batch mode), and returns it |
| `Workers.Worker.Call` | src/main/java/QueueProcess/AbstractWorker.java:32-67 | the queue left and the failure rethrown are those of Drain; processed grows by exactly the number of items removed; the listener is told once per collection; Valid is kept |
| `Workers.RunWorker` | src/main/java/QueueProcess/AbstractFacilitator.java:98 | a submitted worker runs to completion as `Call` does (queue, processed and one listener entry per collection, appended to the old record) and its handle finishes carrying the failure it rethrew, to be logged at the next reap |
| `Scenarios.SixItemsOneFailingBatch` | src/main/java/QueueProcess/AbstractWorker.java:56-65 | six items, batch size 3, failure on item 4: at quiescence processed is 6, the log holds one failure, and the callback was called once with it |
| `Scenarios.FourthEnqueueWaits` | src/main/java/QueueProcess/AbstractFacilitator.java:65-70 | with capacity 3 and three queued items, a fourth enqueue waits and the queue is unchanged |

## Left out

- Threads, the `ExecutorService`, `synchronized` and the thread safety of `ConcurrentLinkedQueue`: every operation is one atomic step. The race between the batch guard's `isEmpty` check and `remove()`, and the `NoSuchElementException` it can raise, cannot occur.
- The 500 ms and 200 ms sleeps and the interrupt handling around them. A waiting `addToQueue` is a step not taken. The activation path that returns without calling back when interrupted is not modelled.
- `Facilitators.Facilitator.SpawnWorkers`: in the source the inner loop keeps polling while the handle list is full and the queue is non-empty, waiting for other threads. Here the pass ends at that point, and the next `ActivationPass` continues the polling.
- `Facilitators.Facilitator.IncrementProcessed`: the counters are unbounded integers. The 32-bit wrap-around of `AtomicInteger` past 2^31 - 1 is not modelled.
- `Facilitators.Facilitator.ValidateFutures`: the source first collects the finished futures in a `remove` list and then removes them one by one. Here one loop builds the kept list. The result is the same.
- The progress listener and completion callback are records of their calls (`progress`, `completions`). The null checks on them, `IProgressListener`'s free-text status overloads, and `printStackTrace` in `itemsError` are not modelled.
- `Workers.Worker.Call`: only `Exception`s thrown by `process`/`processBatch` are modelled as failures. An `Error` (any other `Throwable`) escapes the worker's `catch` without reaching `itemsError`, so its items are never counted as processed and `processed + |queue| == totalItems` no longer holds; the executor still logs it at the next reap. The model does not capture that path.
- `getDetails` (a string snapshot of the two counts) is not modelled. `getErrors` is not a separate member: the callback record reads the `errors` field by value, not the live collection.
- Failures are logged as the worker's own exception; `future.get()` in the source wraps it in an `ExecutionException`, and that wrapper is what the log holds.
- `createQueueWorker` (the subclass factory) is not modelled: the worker that runs behind a handle is passed to `RunWorker`. Handles are values, not objects with identity.
- The facilitator constructor's executor, callback and listener arguments are not modelled.
