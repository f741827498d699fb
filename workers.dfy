/** AbstractWorker: a unit of work that drains the facilitator's shared queue
    head-first, one item or one gathered batch at a time, hands each collection
    to the caller's processing logic and reports it to the facilitator, until it
    obtains nothing or the processing logic throws.

    The processing logic (process / processBatch, abstract in the original) is a
    pair of total functions that return None when the call returns and Some(e)
    when it throws e. A worker's whole run is one atomic step. */
module Workers {
  import opened Wrappers
  import opened Facilitators

  const DefaultBatchSize: int := 5

  /** A worker's configuration: its mode, its batch size and its processing logic. */
  datatype Config<!T, E> = Config(
    isBatch: bool,
    batchSize: int,
    processItem: T -> Option<E>,
    processBatch: seq<T> -> Option<E>)

  /** Hand a gathered, non-empty collection to the processing logic: the whole
      collection in batch mode, its one item in single mode. */
  function Process<T, E>(c: Config<T, E>, items: seq<T>): Option<E>
    requires |items| > 0
  {
    if c.isBatch then c.processBatch(items) else c.processItem(items[0])
  }

  /** How many items one gather takes from the head of a queue of length len.
      Single mode takes one item if there is one. Batch mode keeps taking while
      the queue is non-empty and no more than batchSize items are held, so it
      stops only once it holds batchSize + 1. */
  function Gather<T, E>(c: Config<T, E>, len: nat): (n: nat)
    ensures n <= len
  {
    if !c.isBatch then (if len == 0 then 0 else 1)
    else if c.batchSize < 0 then 0
    else if len <= c.batchSize + 1 then len
    else c.batchSize + 1
  }

  /** The collections one worker run handed to the processing logic, the
      failure it ended with (None when it returned normally) and the queue it
      left behind. */
  datatype DrainResult<T, E> = DrainResult(batches: seq<seq<T>>, failure: Option<E>, rest: seq<T>)

  function Flatten<T>(bs: seq<seq<T>>): seq<T> {
    if bs == [] then [] else bs[0] + Flatten(bs[1..])
  }

  /** A worker run on queue q: gather, process, report, repeat; stop when a
      gather obtains nothing or the processing logic throws. */
  function Drain<T, E>(q: seq<T>, c: Config<T, E>): (r: DrainResult<T, E>)
    decreases |q|
    // FIFO: the collections, in order, are exactly the prefix of q that was removed
    ensures Flatten(r.batches) + r.rest == q
    // every collection is non-empty; a batch holds at most batchSize + 1 items, a single-mode collection one
    ensures forall k :: 0 <= k < |r.batches| ==>
      0 < |r.batches[k]| <= if c.isBatch then c.batchSize + 1 else 1
    // a normal return happens only on a gather that obtains nothing
    ensures r.failure.None? ==> Gather(c, |r.rest|) == 0
    // a failure ends the run on the collection it was thrown on
    ensures r.failure.Some? ==> |r.batches| > 0
  {
    var n := Gather(c, |q|);
    if n == 0 then DrainResult([], None, q)
    else
      var items, e := q[..n], Process(c, q[..n]);
      if e.Some? then
        DrainResult([items], e, q[n..])
      else
        var r := Drain(q[n..], c);
        var bs := [items] + r.batches;
        assert bs[1..] == r.batches && bs[0] == items;
        assert Flatten(bs) + r.rest == items + (Flatten(r.batches) + r.rest);
        assert q == items + q[n..];
        assert forall k :: 1 <= k < |bs| ==> bs[k] == r.batches[k - 1];
        DrainResult(bs, r.failure, r.rest)
  }

  /** Every collection but the last was processed without failure; a run that
      returns normally saw no failure at all, and one that throws rethrows what the
      processing of its last collection threw. */
  lemma {:induction false} DrainOutcomes<T, E>(q: seq<T>, c: Config<T, E>)
    decreases |q|
    ensures var r := Drain(q, c);
      && (forall k :: 0 <= k < |r.batches| - 1 ==> Process(c, r.batches[k]).None?)
      && (r.failure.None? ==> forall k :: 0 <= k < |r.batches| ==> Process(c, r.batches[k]).None?)
      && (r.failure.Some? ==> Process(c, r.batches[|r.batches| - 1]) == r.failure)
  {
    var n := Gather(c, |q|);
    if n > 0 && Process(c, q[..n]).None? {
      var r', r := Drain(q[n..], c), Drain(q, c);
      DrainOutcomes(q[n..], c);
      assert r.batches == [q[..n]] + r'.batches;
      assert forall k :: 1 <= k < |r.batches| ==> r.batches[k] == r'.batches[k - 1];
    }
  }

  /** Drain continued after some collections that were already handed over. */
  function After<T, E>(done: seq<seq<T>>, r: DrainResult<T, E>): DrainResult<T, E> {
    DrainResult(done + r.batches, r.failure, r.rest)
  }

  lemma AfterAfter<T, E>(done: seq<seq<T>>, more: seq<seq<T>>, r: DrainResult<T, E>)
    ensures After(done, After(more, r)) == After(done + more, r)
  {
    assert done + (more + r.batches) == (done + more) + r.batches;
  }

  /** A gather that obtains nothing ends the run normally. */
  lemma DrainStop<T, E>(q: seq<T>, c: Config<T, E>)
    requires Gather(c, |q|) == 0
    ensures Drain(q, c) == DrainResult([], None, q)
  {
  }

  /** One iteration of the run: the gathered prefix is processed, and the run
      either ends on its failure or carries on with the rest of the queue. */
  lemma DrainStep<T, E>(q: seq<T>, c: Config<T, E>)
    requires Gather(c, |q|) > 0
    ensures var n := Gather(c, |q|);
      Drain(q, c) ==
        if Process(c, q[..n]).Some? then DrainResult([q[..n]], Process(c, q[..n]), q[n..])
        else After([q[..n]], Drain(q[n..], c))
  {
  }

  /** When processing never fails and every gather on a non-empty queue obtains
      something, a run empties the queue and hands over every item, in order. */
  lemma DrainWithoutFailures<T, E>(q: seq<T>, c: Config<T, E>)
    requires forall items :: |items| > 0 ==> Process(c, items).None?
    requires !c.isBatch || c.batchSize >= 0
    ensures Drain(q, c).failure.None?
    ensures Drain(q, c).rest == []
    ensures Flatten(Drain(q, c).batches) == q
  {
    DrainOutcomes(q, c);
  }

  /** With a negative batch size the batch guard never holds: a batch-mode worker
      takes nothing and returns at once, whatever the queue holds. */
  lemma NegativeBatchSizeTakesNothing<T, E>(q: seq<T>, c: Config<T, E>)
    requires c.isBatch && c.batchSize < 0
    ensures Drain(q, c) == DrainResult([], None, q)
  {
  }

  /** The first batch of a batch-mode run on a long enough queue holds
      batchSize + 1 items, one more than the configured size. */
  lemma FirstBatchHoldsOneExtra<T, E>(q: seq<T>, c: Config<T, E>)
    requires c.isBatch && 0 <= c.batchSize < |q|
    ensures |Drain(q, c).batches| > 0
    ensures Drain(q, c).batches[0] == q[..c.batchSize + 1]
  {
  }

  /** Six items, batch mode with batch size 3, and processing that throws on any
      batch holding item 4: the first batch is [1, 2, 3, 4], it fails, and 5 and 6
      stay queued for another worker. */
  lemma SixItemsBatchOfThree()
    ensures
      var c := Config(true, 3, (i: int) => None, (b: seq<int>) => if 4 in b then Some("item 4") else None);
      Drain([1, 2, 3, 4, 5, 6], c) == DrainResult([[1, 2, 3, 4]], Some("item 4"), [5, 6])
  {
    var c := Config(true, 3, (i: int) => None, (b: seq<int>) => if 4 in b then Some("item 4") else None);
    var q := [1, 2, 3, 4, 5, 6];
    assert q[..4] == [1, 2, 3, 4] && 4 in q[..4];
    assert q[4..] == [5, 6];
  }

  class Worker<T, E> {
    const facilitator: Facilitator<T, E>
    const isBatch: bool
    const batchSize: int
    const processItem: T -> Option<E>
    const processBatch: seq<T> -> Option<E>

    function Settings(): Config<T, E> {
      Config(isBatch, batchSize, processItem, processBatch)
    }

    /** The one-argument form: single mode, batch size 5. */
    constructor (facilitator: Facilitator<T, E>, processItem: T -> Option<E>, processBatch: seq<T> -> Option<E>)
      ensures this.facilitator == facilitator
      ensures !isBatch && batchSize == DefaultBatchSize
      ensures this.processItem == processItem && this.processBatch == processBatch
    {
      this.facilitator := facilitator;
      this.isBatch := false;
      this.batchSize := DefaultBatchSize;
      this.processItem := processItem;
      this.processBatch := processBatch;
    }

    /** The two-argument form discards isBatchProcessing: single mode, batch size 5. */
    constructor WithMode(facilitator: Facilitator<T, E>, isBatchProcessing: bool,
                         processItem: T -> Option<E>, processBatch: seq<T> -> Option<E>)
      ensures this.facilitator == facilitator
      ensures !isBatch && batchSize == DefaultBatchSize
      ensures this.processItem == processItem && this.processBatch == processBatch
    {
      this.facilitator := facilitator;
      this.isBatch := false;
      this.batchSize := DefaultBatchSize;
      this.processItem := processItem;
      this.processBatch := processBatch;
    }

    /** The three-argument form keeps both its mode and its batch size. */
    constructor WithBatch(facilitator: Facilitator<T, E>, isBatchProcessing: bool, batchSize: int,
                          processItem: T -> Option<E>, processBatch: seq<T> -> Option<E>)
      ensures this.facilitator == facilitator
      ensures isBatch == isBatchProcessing && this.batchSize == batchSize
      ensures this.processItem == processItem && this.processBatch == processBatch
    {
      this.facilitator := facilitator;
      this.isBatch := isBatchProcessing;
      this.batchSize := batchSize;
      this.processItem := processItem;
      this.processBatch := processBatch;
    }

    /** One gather: remove the head item (single mode), or keep removing head
        items while the queue is non-empty and at most batchSize are held (batch
        mode). */
    method GatherItems() returns (items: seq<T>)
      modifies facilitator`queue
      ensures items == old(facilitator.queue)[..Gather(Settings(), |old(facilitator.queue)|)]
      ensures facilitator.queue == old(facilitator.queue)[|items|..]
    {
      var f: Facilitator<T, E> := facilitator;
      items := [];
      if isBatch {
        while f.queue != [] && |items| <= batchSize
          invariant items + f.queue == old(f.queue)
          invariant |items| <= Gather(Settings(), |old(f.queue)|)
          decreases |f.queue|
        {
          items := items + [f.queue[0]];
          f.queue := f.queue[1..];
        }
      } else if f.queue != [] {
        items := items + [f.queue[0]];
        f.queue := f.queue[1..];
      }
      assert items + f.queue == old(f.queue);
    }

    /** The worker's run: it drains the queue as Drain describes, counts every
        collection it took as processed (failed or not), tells the listener once
        per collection, and returns the failure it rethrows, if any. */
    method Call() returns (thrown: Option<E>)
      requires facilitator.Valid()
      modifies facilitator`queue, facilitator`processed, facilitator`progress
      ensures facilitator.Valid()
      ensures thrown == Drain(old(facilitator.queue), Settings()).failure
      ensures facilitator.queue == Drain(old(facilitator.queue), Settings()).rest
      ensures facilitator.processed == old(facilitator.processed) + |old(facilitator.queue)| - |facilitator.queue|
      ensures |facilitator.progress| == |old(facilitator.progress)| + |Drain(old(facilitator.queue), Settings()).batches|
      ensures old(facilitator.progress) <= facilitator.progress
    {
      var f: Facilitator<T, E> := facilitator;
      ghost var c := Settings();
      ghost var q0, p0, g0, total := f.queue, f.processed, f.progress, f.totalItems;
      ghost var taken: seq<seq<T>> := [];
      while true
        invariant f.totalItems == total
        invariant Drain(q0, c) == After(taken, Drain(f.queue, c))
        invariant |f.queue| <= |q0| && f.processed == p0 + (|q0| - |f.queue|)
        invariant |f.progress| == |g0| + |taken| && g0 <= f.progress
        decreases |f.queue|
      {
        ghost var q := f.queue;
        var items := GatherItems();
        // the queue gave nothing (in single mode, remove() on an empty queue)
        if |items| == 0 {
          DrainStop(q, c);
          return None;
        }
        DrainStep(q, c);
        var failure := if isBatch then processBatch(items) else processItem(items[0]);
        assert failure == Process(c, items);
        if failure.Some? {
          f.ItemsError(items, failure.value);
          return failure;
        }
        f.ItemsDone(items);
        ghost var later := Drain(f.queue, c);
        AfterAfter(taken, [items], later);
        taken := taken + [items];
      }
    }
  }

  /** The executor runs the worker behind outstanding handle i to completion:
      the handle is then finished, carrying the failure the worker rethrew. */
  method RunWorker<T, E>(f: Facilitator<T, E>, i: nat, w: Worker<T, E>) returns (thrown: Option<E>)
    requires f.Valid() && w.facilitator == f
    requires i < |f.processors| && !f.processors[i].done
    modifies f`queue, f`processed, f`progress, f`processors
    ensures f.Valid()
    ensures thrown == Drain(old(f.queue), w.Settings()).failure
    ensures f.queue == Drain(old(f.queue), w.Settings()).rest
    ensures f.processed == old(f.processed) + |old(f.queue)| - |f.queue|
    ensures |f.progress| == |old(f.progress)| + |Drain(old(f.queue), w.Settings()).batches|
    ensures old(f.progress) <= f.progress
    ensures f.processors == old(f.processors)[i := Handle(true, thrown)]
  {
    thrown := w.Call();
    f.CompleteHandle(i, thrown);
  }
}
