/** AbstractFacilitator: the dispatcher's bookkeeping over a FIFO queue, the
    `processed` and `totalItems` counters, the error log, the outstanding worker
    handles and the handle of the single supervisory activation.

    The model is sequential: every public operation is one atomic step, the
    executor's progress is an explicit step (CompleteHandle), and a call that
    would block (addToQueue at capacity) is a step that is not taken. */
module Facilitators {
  import opened Wrappers

  /** What the dispatcher sees of a submitted unit of work (a Future): whether it
      has finished and, when it finished by throwing, what it threw. */
  datatype Handle<E> = Handle(done: bool, failure: Option<E>)

  /** One notification of the progress listener: the pair (processed, totalItems). */
  datatype Progress = Progress(processed: int, total: int)

  const DefaultQueueSizeLimit: int := 20
  const DefaultMaxThreads: int := 5

  /** The handle of a unit of work just submitted: not finished yet. */
  function Submitted<E>(): Handle<E> {
    Handle(false, None)
  }

  /** n handles of freshly spawned workers. */
  function Idle<E>(n: nat): seq<Handle<E>> {
    seq(n, _ => Submitted())
  }

  /** The handles that reaping keeps: the unfinished ones, in their order. */
  function Pending<E>(hs: seq<Handle<E>>): (r: seq<Handle<E>>)
    ensures |r| <= |hs|
    ensures forall j :: 0 <= j < |r| ==> !r[j].done
  {
    if hs == [] then []
    else
      var last := hs[|hs| - 1];
      Pending(hs[..|hs| - 1]) + if last.done then [] else [last]
  }

  /** The handles that reaping removes: the finished ones, in their order. */
  function Reaped<E>(hs: seq<Handle<E>>): (r: seq<Handle<E>>)
    ensures forall j :: 0 <= j < |r| ==> r[j].done
  {
    if hs == [] then []
    else
      var last := hs[|hs| - 1];
      Reaped(hs[..|hs| - 1]) + if last.done then [last] else []
  }

  /** The errors that reaping appends to the log: one per finished handle whose
      result is a failure, in handle order. */
  function Failures<E>(hs: seq<Handle<E>>): (r: seq<E>)
    ensures |r| + |Pending(hs)| <= |hs|
  {
    if hs == [] then []
    else
      var last := hs[|hs| - 1];
      Failures(hs[..|hs| - 1]) + if last.done && last.failure.Some? then [last.failure.value] else []
  }

  /** Every logged failure comes from a finished handle, and every finished
      handle that threw has its failure logged. */
  lemma {:induction false} FailuresMembership<E>(hs: seq<Handle<E>>)
    ensures forall j :: 0 <= j < |Failures(hs)| ==>
      exists k :: 0 <= k < |hs| && hs[k].done && hs[k].failure == Some(Failures(hs)[j])
    ensures forall k :: 0 <= k < |hs| && hs[k].done && hs[k].failure.Some? ==>
      hs[k].failure.value in Failures(hs)
  {
    if hs != [] {
      var init, last := hs[..|hs| - 1], hs[|hs| - 1];
      FailuresMembership(init);
      var fs := Failures(hs);
      assert fs == Failures(init) + if last.done && last.failure.Some? then [last.failure.value] else [];
      forall j | 0 <= j < |fs|
        ensures exists k :: 0 <= k < |hs| && hs[k].done && hs[k].failure == Some(fs[j])
      {
        if j < |Failures(init)| {
          var k :| 0 <= k < |init| && init[k].done && init[k].failure == Some(Failures(init)[j]);
          assert hs[k] == init[k] && fs[j] == Failures(init)[j];
          assert hs[k].done && hs[k].failure == Some(fs[j]);
        } else {
          assert last.done && last.failure == Some(fs[j]);
          assert hs[|hs| - 1].done && hs[|hs| - 1].failure == Some(fs[j]);
        }
      }
      forall k | 0 <= k < |hs| && hs[k].done && hs[k].failure.Some?
        ensures hs[k].failure.value in fs
      {
        if k < |init| {
          assert hs[k] == init[k];
        }
      }
    } else {
      assert |Failures(hs)| == 0;
    }
  }

  /** Reaping partitions the handle list: every handle is either kept or
      removed, the kept ones are exactly the unfinished ones and the removed ones
      exactly the finished ones. */
  lemma {:induction false} ReapPartition<E>(hs: seq<Handle<E>>)
    ensures multiset(Pending(hs)) + multiset(Reaped(hs)) == multiset(hs)
    ensures |Pending(hs)| + |Reaped(hs)| == |hs|
    ensures forall h :: h in Pending(hs) <==> h in hs && !h.done
    ensures forall h :: h in Reaped(hs) <==> h in hs && h.done
  {
    if hs != [] {
      var init, last := hs[..|hs| - 1], hs[|hs| - 1];
      ReapPartition(init);
      assert hs == init + [last];
    }
  }

  /** Reaping one handle more: it is kept if unfinished, and its failure is
      logged if it finished by throwing. */
  lemma ReapStep<E>(hs: seq<Handle<E>>, i: nat)
    requires i < |hs|
    ensures Pending(hs[..i + 1]) == Pending(hs[..i]) + if hs[i].done then [] else [hs[i]]
    ensures Failures(hs[..i + 1]) ==
      Failures(hs[..i]) + if hs[i].done && hs[i].failure.Some? then [hs[i].failure.value] else []
  {
    assert hs[..i + 1][..i] == hs[..i];
  }

  /** Reaping works handle by handle: reaping a concatenation is reaping each part. */
  lemma {:induction false} ReapConcat<E>(a: seq<Handle<E>>, b: seq<Handle<E>>)
    decreases |b|
    ensures Pending(a + b) == Pending(a) + Pending(b)
    ensures Failures(a + b) == Failures(a) + Failures(b)
  {
    if b == [] {
      assert a + b == a;
    } else {
      var init, last := b[..|b| - 1], b[|b| - 1];
      ReapConcat(a, init);
      assert (a + b)[..|a + b| - 1] == a + init && (a + b)[|a + b| - 1] == last;
      var kept := if last.done then [] else [last];
      var logged := if last.done && last.failure.Some? then [last.failure.value] else [];
      calc {
        Pending(a + b);
        Pending(a + init) + kept;
        Pending(a) + Pending(init) + kept;
        Pending(a) + (Pending(init) + kept);
        Pending(a) + Pending(b);
      }
      calc {
        Failures(a + b);
        Failures(a + init) + logged;
        Failures(a) + Failures(init) + logged;
        Failures(a) + (Failures(init) + logged);
        Failures(a) + Failures(b);
      }
    }
  }

  /** Once every handle has finished, reaping leaves none outstanding. */
  lemma {:induction false} ReapAllFinished<E>(hs: seq<Handle<E>>)
    requires forall k :: 0 <= k < |hs| ==> hs[k].done
    ensures Pending(hs) == []
    ensures |Reaped(hs)| == |hs|
  {
    if hs != [] {
      ReapAllFinished(hs[..|hs| - 1]);
    }
  }

  /** Handles that finished without a failure add nothing to the error log. */
  lemma {:induction false} ReapNoFailures<E>(hs: seq<Handle<E>>)
    requires forall k :: 0 <= k < |hs| ==> hs[k].failure.None?
    ensures Failures(hs) == []
  {
    if hs != [] {
      ReapNoFailures(hs[..|hs| - 1]);
    }
  }

  /** Reaping a list of handles none of which has finished changes nothing and
      logs nothing. */
  lemma {:induction false} ReapUnfinished<E>(hs: seq<Handle<E>>)
    requires forall k :: 0 <= k < |hs| ==> !hs[k].done
    ensures Pending(hs) == hs && Failures(hs) == []
  {
    if hs != [] {
      var init := hs[..|hs| - 1];
      ReapUnfinished(init);
      assert hs == init + [hs[|hs| - 1]];
    }
  }

  /** Submitting one more worker adds one more idle handle. */
  lemma IdleGrows<E>(n: nat)
    ensures Idle<E>(n) + [Submitted()] == Idle(n + 1)
  {
  }

  /** How many workers one spawn pass submits when `pending` handles are
      outstanding after reaping and the limit is `maxThreads`. */
  function SpawnCount(pending: nat, maxThreads: int): (n: nat)
    ensures pending + n <= maxThreads || n == 0
    ensures pending < maxThreads ==> pending + n == maxThreads
  {
    if pending < maxThreads then maxThreads - pending else 0
  }

  /** Whether runFacilitator may submit a new activation: there is none yet or
      the previous one has finished. */
  predicate MayStart<E>(activation: Option<Handle<E>>) {
    activation.None? || activation.value.done
  }

  class Facilitator<T, E> {
    var queue: seq<T>
    var errors: seq<E>
    var processed: int
    var totalItems: int
    var activation: Option<Handle<E>>
    var processors: seq<Handle<E>>
    var queueSizeLimit: int
    var maxThreads: int
    /** Every (processed, totalItems) pair handed to the progress listener. */
    var progress: seq<Progress>
    /** The error log as handed to the completion callback, once per finished activation. */
    var completions: seq<seq<E>>

    /** Between atomic steps no item is in flight: every accepted item is either
        still queued or already counted as processed. */
    ghost predicate Valid()
      reads this
    {
      0 <= processed && processed + |queue| == totalItems
    }

    constructor ()
      ensures Valid()
      ensures queue == [] && errors == [] && processed == 0 && totalItems == 0
      ensures activation == None && processors == []
      ensures queueSizeLimit == DefaultQueueSizeLimit && maxThreads == DefaultMaxThreads
      ensures progress == [] && completions == []
    {
      queue, errors, processed, totalItems := [], [], 0, 0;
      activation, processors := None, [];
      queueSizeLimit, maxThreads := DefaultQueueSizeLimit, DefaultMaxThreads;
      progress, completions := [], [];
    }

    /** The progress listener is told the current counters. */
    method Progressed()
      modifies this`progress
      ensures progress == old(progress) + [Progress(processed, totalItems)]
    {
      progress := progress + [Progress(processed, totalItems)];
    }

    method IncrementProcessed(size: nat)
      modifies this`processed, this`progress
      ensures processed == old(processed) + size
      ensures progress == old(progress) + [Progress(processed, totalItems)]
    {
      processed := processed + size;
      Progressed();
    }

    /** A worker reports a collection it processed successfully. */
    method ItemsDone(items: seq<T>)
      modifies this`processed, this`progress
      ensures processed == old(processed) + |items|
      ensures progress == old(progress) + [Progress(processed, totalItems)]
    {
      IncrementProcessed(|items|);
    }

    /** A worker reports a collection whose processing threw `err`: it counts as
        processed all the same. */
    method ItemsError(items: seq<T>, err: E)
      modifies this`processed, this`progress
      ensures processed == old(processed) + |items|
      ensures progress == old(progress) + [Progress(processed, totalItems)]
    {
      IncrementProcessed(|items|);
    }

    /** The single-flight guard: a new activation is submitted only when there is
        none or the previous one has finished; an unfinished one is never replaced. */
    method RunFacilitator() returns (started: bool)
      modifies this`activation
      ensures started <==> old(activation).None? || old(activation).value.done
      ensures started ==> activation == Some(Submitted())
      ensures !started ==> activation == old(activation)
      ensures activation.Some?
    {
      if activation.Some? && !activation.value.done {
        return false;
      }
      activation := Some(Submitted());
      started := true;
    }

    /** Enqueue with backpressure. With a positive limit and the queue at or above
        it, the call waits; here that is a step not taken (`appended` is false and
        nothing changes). Otherwise the item goes to the tail, the total grows by
        one, the listener is told and the single-flight guard runs. */
    method AddToQueue(item: T) returns (appended: bool)
      requires Valid()
      modifies this`queue, this`totalItems, this`progress, this`activation
      ensures Valid()
      ensures appended <==> queueSizeLimit <= 0 || |old(queue)| < queueSizeLimit
      ensures appended ==> queue == old(queue) + [item] && totalItems == old(totalItems) + 1
      ensures appended ==> progress == old(progress) + [Progress(processed, totalItems)]
      ensures appended ==> activation == if MayStart(old(activation)) then Some(Submitted()) else old(activation)
      ensures appended && queueSizeLimit > 0 ==> |queue| <= queueSizeLimit
      ensures !appended ==> queue == old(queue) && totalItems == old(totalItems)
      ensures !appended ==> progress == old(progress) && activation == old(activation)
    {
      if queueSizeLimit > 0 && |queue| >= queueSizeLimit {
        return false;
      }
      queue := queue + [item];
      totalItems := totalItems + 1;
      Progressed();
      var _ := RunFacilitator();
      appended := true;
    }

    /** Reaping: finished handles leave the list, the failure of each one that
        threw is appended to the error log, unfinished handles stay. */
    method ValidateFutures()
      modifies this`processors, this`errors
      ensures processors == Pending(old(processors))
      ensures errors == old(errors) + Failures(old(processors))
    {
      var hs, kept: seq<Handle<E>> := processors, [];
      var i := 0;
      while i < |hs|
        invariant 0 <= i <= |hs|
        invariant kept == Pending(hs[..i])
        invariant errors == old(errors) + Failures(hs[..i])
      {
        var h := hs[i];
        ReapStep(hs, i);
        if h.done {
          if h.failure.Some? {
            errors := errors + [h.failure.value];
          }
        } else {
          kept := kept + [h];
        }
        i := i + 1;
      }
      assert hs[..i] == hs;
      processors := kept;
    }

    /** Quiescence: the queue is empty and, after reaping, no handle is
        outstanding. Reaping happens only when the queue is empty. */
    method IsDone() returns (done: bool)
      modifies this`processors, this`errors
      ensures done <==> queue == [] && Pending(old(processors)) == []
      ensures queue != [] ==> processors == old(processors) && errors == old(errors)
      ensures queue == [] ==> processors == Pending(old(processors))
      ensures queue == [] ==> errors == old(errors) + Failures(old(processors))
    {
      if queue != [] {
        return false;
      }
      ValidateFutures();
      done := processors == [];
    }

    /** The activation's inner loop: while the queue is non-empty, reap and submit
        a worker if fewer than maxThreads are outstanding. In one atomic step no
        handle finishes after the first reap, so the pass ends when the list is
        full (where the threaded original keeps polling). */
    method SpawnWorkers()
      modifies this`processors, this`errors
      ensures queue == [] ==> processors == old(processors) && errors == old(errors)
      ensures queue != [] ==> errors == old(errors) + Failures(old(processors))
      ensures queue != [] ==>
        processors == Pending(old(processors)) + Idle(SpawnCount(|Pending(old(processors))|, maxThreads))
      ensures |old(processors)| <= maxThreads ==> |processors| <= maxThreads
    {
      ghost var p0 := processors;
      var reaped := false;
      while queue != []
        invariant queue == [] ==> !reaped
        invariant !reaped ==> processors == p0 && errors == old(errors)
        invariant reaped ==> errors == old(errors) + Failures(p0)
        invariant reaped ==> |Pending(p0)| < |processors| <= maxThreads
        invariant reaped ==> processors == Pending(p0) + Idle(|processors| - |Pending(p0)|)
        invariant reaped ==> forall k :: 0 <= k < |processors| ==> !processors[k].done
        decreases if reaped then 0 else 1, maxThreads - |processors|
      {
        if reaped {
          ReapUnfinished(processors);
        }
        ValidateFutures();
        ghost var before := processors;
        if |processors| < maxThreads {
          processors := processors + [Submitted()];
          IdleGrows<E>(|before| - |Pending(p0)|);
        } else {
          break;
        }
        reaped := true;
      }
    }

    /** One pass of the activation loop: if quiescent, the completion callback gets
        the error log and the activation finishes; otherwise workers are reaped
        and spawned. The 200 ms sleep between passes is not modelled. */
    method ActivationPass() returns (finished: bool)
      requires activation.Some? && !activation.value.done
      modifies this`processors, this`errors, this`activation, this`completions
      ensures finished <==> queue == [] && Pending(old(processors)) == []
      ensures errors == old(errors) + Failures(old(processors))
      ensures processors ==
        Pending(old(processors)) + Idle(if queue == [] then 0 else SpawnCount(|Pending(old(processors))|, maxThreads))
      ensures finished ==> activation == Some(Handle(true, None)) && completions == old(completions) + [errors]
      ensures !finished ==> activation == old(activation) && completions == old(completions)
      ensures |old(processors)| <= maxThreads ==> |processors| <= maxThreads
    {
      finished := IsDone();
      if finished {
        completions := completions + [errors];
        activation := Some(Handle(true, None));
        return;
      }
      SpawnWorkers();
    }

    /** The executor finishes the unit of work behind handle i, with or without a
        failure. */
    method CompleteHandle(i: nat, failure: Option<E>)
      requires i < |processors| && !processors[i].done
      modifies this`processors
      ensures processors == old(processors)[i := Handle(true, failure)]
    {
      processors := processors[i := Handle(true, failure)];
    }

    method SetMaxThreads(i: int)
      modifies this`maxThreads
      ensures maxThreads == i
    {
      maxThreads := i;
    }

    method SetQueueSizeLimit(i: int)
      modifies this`queueSizeLimit
      ensures queueSizeLimit == i
    {
      queueSizeLimit := i;
    }
  }
}
