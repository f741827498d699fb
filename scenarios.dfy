/** End-to-end runs of the dispatcher, step by step: six items drained by
    batch workers with one failing batch, and an enqueue that waits for a
    full queue. */
module Scenarios {
  import opened Wrappers
  import opened Facilitators
  import opened Workers

  function FailOnFour(b: seq<int>): Option<string> {
    if 4 in b then Some("item 4 failed") else None
  }

  /** A fresh facilitator after addToQueue(1) .. addToQueue(6). */
  method EnqueueOneToSix() returns (f: Facilitator<int, string>)
    ensures fresh(f) && f.Valid()
    ensures f.queue == [1, 2, 3, 4, 5, 6] && f.processed == 0
    ensures f.processors == [] && f.errors == [] && f.completions == []
    ensures f.maxThreads == DefaultMaxThreads && f.activation == Some(Submitted())
  {
    f := new Facilitator<int, string>();
    var i := 1;
    while i <= 6
      invariant 1 <= i <= 7
      invariant f.Valid() && f.queue == seq(i - 1, k => k + 1) && f.processors == [] && f.errors == []
      invariant f.processed == 0 && f.queueSizeLimit == DefaultQueueSizeLimit && f.maxThreads == DefaultMaxThreads
      invariant f.completions == []
      invariant i > 1 ==> f.activation == Some(Submitted())
      invariant i == 1 ==> f.activation == None
    {
      var appended := f.AddToQueue(i);
      i := i + 1;
    }
  }

  /** The activation's first pass spawns maxThreads workers. */
  method FirstPass(f: Facilitator<int, string>)
    requires f.queue == [1, 2, 3, 4, 5, 6] && f.processors == [] && f.errors == []
    requires f.maxThreads == DefaultMaxThreads && f.activation == Some(Submitted())
    modifies f`processors, f`errors, f`activation, f`completions
    ensures f.processors == Idle(5) && f.errors == [] && f.activation == Some(Submitted())
    ensures f.completions == old(f.completions)
  {
    var finished := f.ActivationPass();
    ReapUnfinished<string>([]);
  }

  /** The first worker gathers [1, 2, 3, 4] (batch size 3 plus one) and throws. */
  method FirstWorker(f: Facilitator<int, string>)
    requires f.Valid() && f.queue == [1, 2, 3, 4, 5, 6] && f.processed == 0 && f.processors == Idle(5)
    modifies f`queue, f`processed, f`progress, f`processors
    ensures f.Valid() && f.queue == [5, 6] && f.processed == 4
    ensures f.processors == [Handle(true, Some("item 4 failed"))] + Idle(4)
  {
    var w := new Worker.WithBatch(f, true, 3, (n: int) => None, FailOnFour);
    DrainStep([1, 2, 3, 4, 5, 6], w.Settings());
    assert [1, 2, 3, 4, 5, 6][..4] == [1, 2, 3, 4] && [1, 2, 3, 4, 5, 6][4..] == [5, 6];
    var thrown := RunWorker(f, 0, w);
    assert f.processors == [Handle(true, Some("item 4 failed"))] + Idle(4);
  }

  /** The second worker gathers [5, 6], processes it and finds the queue empty. */
  method SecondWorker(f: Facilitator<int, string>)
    requires f.Valid() && f.queue == [5, 6] && f.processed == 4
    requires f.processors == [Handle(true, Some("item 4 failed"))] + Idle(4)
    modifies f`queue, f`processed, f`progress, f`processors
    ensures f.Valid() && f.queue == [] && f.processed == 6
    ensures f.processors == [Handle(true, Some("item 4 failed")), Handle(true, None)] + Idle(3)
  {
    var w := new Worker.WithBatch(f, true, 3, (n: int) => None, FailOnFour);
    DrainStep([5, 6], w.Settings());
    DrainStop([], w.Settings());
    assert [5, 6][..2] == [5, 6] && [5, 6][2..] == [];
    var thrown := RunWorker(f, 1, w);
    assert f.processors == [Handle(true, Some("item 4 failed")), Handle(true, None)] + Idle(3);
  }

  /** The remaining workers find the queue empty and return at once. */
  method RemainingWorkers(f: Facilitator<int, string>)
    requires f.Valid() && f.queue == [] && f.processed == 6 && f.errors == [] && f.completions == []
    requires f.processors == [Handle(true, Some("item 4 failed")), Handle(true, None)] + Idle(3)
    modifies f`queue, f`processed, f`progress, f`processors
    ensures f.Valid() && f.queue == [] && f.processed == 6
    ensures f.processors == [Handle(true, Some("item 4 failed"))] + seq(4, _ => Handle(true, None))
  {
    var k := 2;
    while k < 5
      invariant 2 <= k <= 5
      invariant f.Valid() && f.queue == [] && f.processed == 6
      invariant |f.processors| == 5
      invariant f.processors[0] == Handle(true, Some("item 4 failed")) && f.processors[1] == Handle(true, None)
      invariant forall j :: 2 <= j < k ==> f.processors[j] == Handle(true, None)
      invariant forall j :: k <= j < 5 ==> f.processors[j] == Submitted()
    {
      var w := new Worker.WithBatch(f, true, 3, (n: int) => None, FailOnFour);
      DrainStop([], w.Settings());
      var thrown := RunWorker(f, k, w);
      k := k + 1;
    }
    assert f.processors == [Handle(true, Some("item 4 failed"))] + seq(4, _ => Handle(true, None));
  }

  /** Items 1..6, batch-mode workers with batch size 3, processing that throws on
      the batch holding item 4: once the activation observes quiescence, all six
      items are processed, the error log holds the one failure, and the
      completion callback was called once, with that log. */
  method SixItemsOneFailingBatch() returns (processed: int, errors: seq<string>, completions: seq<seq<string>>)
    ensures processed == 6
    ensures errors == ["item 4 failed"]
    ensures completions == [errors]
  {
    var f := EnqueueOneToSix();
    FirstPass(f);
    FirstWorker(f);
    SecondWorker(f);
    RemainingWorkers(f);
    // the next pass observes quiescence and calls back
    var first, others := [Handle(true, Some("item 4 failed"))], seq(4, _ => Handle(true, None));
    ReapAllFinished(first + others);
    ReapConcat(first, others);
    ReapNoFailures(others);
    assert first[..0] == [];
    var finished := f.ActivationPass();
    assert finished;
    return f.processed, f.errors, f.completions;
  }

  /** Capacity 3 and no worker running: three enqueues go through, and a fourth
      waits, leaving the queue as it was. */
  method FourthEnqueueWaits() returns (fourthAppended: bool, queued: seq<int>)
    ensures !fourthAppended
    ensures queued == [1, 2, 3]
  {
    var f := new Facilitator<int, string>();
    f.SetQueueSizeLimit(3);
    var appended := f.AddToQueue(1);
    appended := f.AddToQueue(2);
    appended := f.AddToQueue(3);
    fourthAppended := f.AddToQueue(4);
    queued := f.queue;
  }
}
