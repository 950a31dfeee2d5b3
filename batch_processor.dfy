/** The priority batch write processor (`EnterpriseBatchProcessor`,
    `BatchOperation`, `BatchOperationType`, Utils/timekeeper.py).

    Operations wait in a priority queue ordered only by the numeric value of
    their `BatchOperationType`. The source keeps the queue as a binary heap
    (`heapq`); a heap does not keep insertion order among equal priorities,
    so the model keeps the queue as a sequence and takes SOME operation of
    the smallest priority value at each pop. Every contract below holds
    whichever of the tied operations is taken. */
module BatchProcessor {
  import opened Wrappers
  import Text
  import TokenBuckets

  /** `BatchOperationType`; `auto()` numbers the members from 1. */
  datatype Priority = HighPriority | NormalPriority | LowPriority | Background {
    function Value(): (v: nat)
      ensures 1 <= v <= 4
    {
      match this
      case HighPriority => 1
      case NormalPriority => 2
      case LowPriority => 3
      case Background => 4
    }
  }

  /** `BatchOperation`; the payload and the Redis command are opaque here. */
  datatype BatchOperation = BatchOperation(
    operationType: string,
    key: string,
    value: string,
    expiry: Option<int>,
    priority: Priority,
    createdAt: int,
    retryCount: nat,
    maxRetries: nat)

  /** A `BatchOperation` as the dataclass defaults build it. */
  function NewOperation(operationType: string, key: string, value: string, expiry: Option<int>,
                        priority: Priority, now: int): (op: BatchOperation)
    ensures op.retryCount == 0 && op.maxRetries == 3 && op.createdAt == now
  {
    BatchOperation(operationType, key, value, expiry, priority, now, 0, 3)
  }

  /** One entry of the dead-letter queue. */
  datatype DeadLetter = DeadLetter(operation: BatchOperation, finalError: string, timestamp: int)

  /** `deque(maxlen=1000)`. */
  const DeadLetterCapacity: nat := 1000

  /** The ordering `__lt__` gives the heap. */
  function Rank(op: BatchOperation): nat {
    op.priority.Value()
  }

  /** The batch comes out in priority order. */
  ghost predicate RankSorted(s: seq<BatchOperation>) {
    forall i, j :: 0 <= i < j < |s| ==> Rank(s[i]) <= Rank(s[j])
  }

  /** Nothing left behind outranks anything taken. */
  ghost predicate RankedBefore(taken: seq<BatchOperation>, rest: seq<BatchOperation>) {
    forall i, j :: 0 <= i < |taken| && 0 <= j < |rest| ==> Rank(taken[i]) <= Rank(rest[j])
  }

  function Pow2(n: nat): (r: nat)
    ensures r >= 1
  {
    if n == 0 then 1 else 2 * Pow2(n - 1)
  }

  lemma {:induction false} Pow2Monotone(m: nat, n: nat)
    requires m <= n
    ensures Pow2(m) <= Pow2(n)
    decreases n - m
  {
    if m < n {
      Pow2Monotone(m, n - 1);
    }
  }

  /** `min(2 ** retry_count, 60)`. */
  function RetryDelay(retryCount: nat): nat {
    var p := Pow2(retryCount);
    if p < 60 then p else 60
  }

  /** The back-off doubles with every retry up to five retries and is held at
      one minute from the sixth on; it never decreases. */
  lemma RetryDelaySchedule(retryCount: nat)
    ensures 1 <= RetryDelay(retryCount) <= 60
    ensures retryCount <= 5 ==> RetryDelay(retryCount) == Pow2(retryCount)
    ensures retryCount >= 6 ==> RetryDelay(retryCount) == 60
    ensures RetryDelay(retryCount) <= RetryDelay(retryCount + 1)
  {
    assert Pow2(5) == 32;
    assert Pow2(6) == 64;
    if retryCount <= 5 {
      Pow2Monotone(retryCount, 5);
    } else {
      Pow2Monotone(6, retryCount);
    }
    Pow2Monotone(retryCount, retryCount + 1);
  }

  /** What `_handle_failed_operation` does with one failed operation: either
      the operation to put back on the queue, or the dead-letter entry. */
  datatype FailureFate = Requeue(op: BatchOperation) | DeadLettered(entry: DeadLetter)

  function FailedFate(op: BatchOperation, now: int): (f: FailureFate)
    ensures f.Requeue? <==> op.retryCount + 1 <= op.maxRetries
    ensures f.Requeue? ==> f.op == op.(retryCount := op.retryCount + 1, createdAt := now + RetryDelay(op.retryCount + 1))
    ensures f.DeadLettered? ==> f.entry.operation == op.(retryCount := op.retryCount + 1) && f.entry.timestamp == now
  {
    var counted := op.(retryCount := op.retryCount + 1);
    if counted.retryCount <= counted.maxRetries then
      Requeue(counted.(createdAt := now + RetryDelay(counted.retryCount)))
    else
      DeadLettered(DeadLetter(counted, "Max retries exceeded (" + Text.NatToString(counted.maxRetries) + ")", now))
  }

  /** An operation that keeps failing is retried exactly `max_retries`
      times and then dead-lettered: it never loops for ever. */
  lemma {:induction false} RetriesEndInDeadLetter(op: BatchOperation, now: int)
    requires op.retryCount <= op.maxRetries
    ensures FinalFate(op, now).DeadLettered?
    ensures FinalFate(op, now).entry.operation.retryCount == op.maxRetries + 1
    decreases op.maxRetries - op.retryCount
  {
    var f := FailedFate(op, now);
    if f.Requeue? {
      RetriesEndInDeadLetter(f.op, now);
    }
  }

  /** The fate of an operation that fails on every attempt. */
  function FinalFate(op: BatchOperation, now: int): FailureFate
    decreases op.maxRetries + 1 - op.retryCount
  {
    var f := FailedFate(op, now);
    if f.Requeue? then FinalFate(f.op, now) else f
  }

  /** `deque.append` on a deque with `maxlen`: the oldest entry falls off
      the front once the bound is exceeded. */
  function AppendBounded<T>(q: seq<T>, x: T, bound: nat): (r: seq<T>)
    requires bound > 0 && |q| <= bound
    ensures |r| <= bound
    ensures |r| == if |q| < bound then |q| + 1 else bound
    ensures r[|r| - 1] == x
    ensures |q| < bound ==> r == q + [x]
    ensures |q| == bound ==> r == q[1..] + [x]
  {
    if |q| < bound then q + [x] else q[1..] + [x]
  }

  /** The index `heappop` would take: an operation of the smallest rank. */
  method MinRankIndex(q: seq<BatchOperation>) returns (k: nat)
    requires |q| > 0
    ensures k < |q|
    ensures forall j :: 0 <= j < |q| ==> Rank(q[k]) <= Rank(q[j])
  {
    k := 0;
    var i := 1;
    while i < |q|
      invariant 0 <= k < i <= |q|
      invariant forall j :: 0 <= j < i ==> Rank(q[k]) <= Rank(q[j])
    {
      if Rank(q[i]) < Rank(q[k]) {
        k := i;
      }
      i := i + 1;
    }
  }

  function RemoveAt<T>(q: seq<T>, k: nat): seq<T>
    requires k < |q|
  {
    q[..k] + q[k + 1..]
  }

  lemma RemoveAtMultiset<T>(q: seq<T>, k: nat)
    requires k < |q|
    ensures multiset(RemoveAt(q, k)) + multiset{q[k]} == multiset(q)
    ensures |RemoveAt(q, k)| == |q| - 1
    ensures forall j :: 0 <= j < |RemoveAt(q, k)| ==> RemoveAt(q, k)[j] in q
  {
    assert q == q[..k] + [q[k]] + q[k + 1..];
  }

  /** Moving a smallest-rank operation from the queue to the end of the
      batch keeps the batch sorted, keeps it ahead of the queue, and loses
      nothing. */
  lemma PopKeepsOrder(batch: seq<BatchOperation>, rest: seq<BatchOperation>, k: nat)
    requires k < |rest|
    requires forall j :: 0 <= j < |rest| ==> Rank(rest[k]) <= Rank(rest[j])
    requires RankSorted(batch) && RankedBefore(batch, rest)
    ensures RankSorted(batch + [rest[k]])
    ensures RankedBefore(batch + [rest[k]], RemoveAt(rest, k))
    ensures multiset(batch + [rest[k]]) + multiset(RemoveAt(rest, k)) == multiset(batch) + multiset(rest)
    ensures |RemoveAt(rest, k)| == |rest| - 1
  {
    RemoveAtMultiset(rest, k);
    var b := batch + [rest[k]];
    var r := RemoveAt(rest, k);
    forall i, j | 0 <= i < |b| && 0 <= j < |r| ensures Rank(b[i]) <= Rank(r[j]) {
      var jj := if j < k then j else j + 1;
      assert r[j] == rest[jj];
    }
  }

  class EnterpriseBatchProcessor {
    const batchSize: nat
    const flushInterval: int
    const maxQueueSize: nat
    const rateLimiter: TokenBuckets.TokenBucket
    var running: bool
    var queue: seq<BatchOperation>
    var deadLetterQueue: seq<DeadLetter>
    var lastFlush: int
    var retriedOperations: nat
    var deadLetterOperations: nat

    ghost predicate Valid()
      reads this, rateLimiter
    {
      rateLimiter.Valid() && |deadLetterQueue| <= DeadLetterCapacity
    }

    /** `__init__`: an idle processor with an empty queue and a bucket of
        1000 tokens refilled at 100 per second. */
    constructor (batchSize: nat, flushInterval: int, maxQueueSize: nat, now: int)
      ensures Valid() && fresh(rateLimiter)
      ensures this.batchSize == batchSize && this.flushInterval == flushInterval
      ensures this.maxQueueSize == maxQueueSize
      ensures !running && queue == [] && deadLetterQueue == [] && lastFlush == now
      ensures rateLimiter.capacity == 1000 && rateLimiter.refillRate == 100
      ensures rateLimiter.tokens == 1000 && rateLimiter.lastRefill == now
      ensures retriedOperations == 0 && deadLetterOperations == 0
    {
      this.batchSize := batchSize;
      this.flushInterval := flushInterval;
      this.maxQueueSize := maxQueueSize;
      rateLimiter := new TokenBuckets.TokenBucket(1000, 100, now);
      running := false;
      queue := [];
      deadLetterQueue := [];
      lastFlush := now;
      retriedOperations, deadLetterOperations := 0, 0;
    }

    /** `start` (the worker tasks themselves are not modelled). */
    method Start()
      requires Valid()
      modifies this
      ensures Valid() && running
      ensures queue == old(queue) && deadLetterQueue == old(deadLetterQueue) && lastFlush == old(lastFlush)
      ensures retriedOperations == old(retriedOperations) && deadLetterOperations == old(deadLetterOperations)
    {
      running := true;
    }

    /** `stop` up to its final flush, which calls `_flush_queue`, a method
        the source does not define. */
    method Stop()
      requires Valid()
      modifies this
      ensures Valid() && !running
      ensures queue == old(queue) && deadLetterQueue == old(deadLetterQueue) && lastFlush == old(lastFlush)
      ensures retriedOperations == old(retriedOperations) && deadLetterOperations == old(deadLetterOperations)
    {
      running := false;
    }

    /** `add_operation`: refused when the processor is stopped, when the rate
        limiter refuses (a token is spent only if the processor is running),
        or when the queue already holds `max_queue_size` operations;
        otherwise the queue gains exactly this operation. */
    method AddOperation(op: BatchOperation, now: int) returns (added: bool)
      requires Valid() && now >= rateLimiter.lastRefill
      modifies this, rateLimiter
      ensures Valid()
      ensures !old(running) ==> !added && unchanged(rateLimiter)
      ensures old(running) ==>
        (rateLimiter.tokens, rateLimiter.lastRefill) ==
        (TokenBuckets.Consumed(old(rateLimiter.tokens), rateLimiter.capacity, rateLimiter.refillRate,
                               now - old(rateLimiter.lastRefill), 1).0, now)
      ensures added <==>
        old(running)
        && TokenBuckets.Consumed(old(rateLimiter.tokens), rateLimiter.capacity, rateLimiter.refillRate,
                                 now - old(rateLimiter.lastRefill), 1).1
        && |old(queue)| < maxQueueSize
      ensures queue == if added then old(queue) + [op] else old(queue)
      ensures running == old(running) && deadLetterQueue == old(deadLetterQueue) && lastFlush == old(lastFlush)
    {
      if !running {
        return false;
      }
      var granted := rateLimiter.Consume(now, 1);
      if !granted {
        return false;
      }
      if |queue| >= maxQueueSize {
        return false;
      }
      queue := queue + [op];
      return true;
    }

    /** `_should_process_batch`: a full batch is waiting, or something is
        waiting and `flush_interval` has passed since the last flush. */
    predicate ShouldProcessBatch(now: int)
      reads this
      ensures ShouldProcessBatch(now) && batchSize > 0 ==> |queue| > 0
    {
      |queue| >= batchSize || (|queue| > 0 && now - lastFlush >= flushInterval)
    }

    /** `_extract_batch`: pops up to `batch_size` operations, smallest
        priority value first, and restarts the flush clock. */
    method ExtractBatch(now: int) returns (batch: seq<BatchOperation>)
      requires Valid()
      modifies this
      ensures Valid()
      ensures |batch| == if batchSize < |old(queue)| then batchSize else |old(queue)|
      ensures multiset(batch) + multiset(queue) == multiset(old(queue))
      ensures RankSorted(batch)
      ensures RankedBefore(batch, queue)
      ensures lastFlush == now
      ensures flushInterval > 0 ==> (ShouldProcessBatch(now) <==> |queue| >= batchSize)
      ensures running == old(running) && deadLetterQueue == old(deadLetterQueue)
      ensures retriedOperations == old(retriedOperations) && deadLetterOperations == old(deadLetterOperations)
    {
      batch := [];
      var pending := queue;
      var rest := pending;
      while |batch| < batchSize && |rest| > 0
        invariant |batch| <= batchSize
        invariant |batch| + |rest| == |pending|
        invariant multiset(batch) + multiset(rest) == multiset(pending)
        invariant RankSorted(batch)
        invariant RankedBefore(batch, rest)
        invariant running == old(running) && deadLetterQueue == old(deadLetterQueue)
        invariant retriedOperations == old(retriedOperations) && deadLetterOperations == old(deadLetterOperations)
        decreases |rest|
      {
        var k := MinRankIndex(rest);
        PopKeepsOrder(batch, rest, k);
        batch := batch + [rest[k]];
        rest := RemoveAt(rest, k);
      }
      queue := rest;
      lastFlush := now;
    }

    /** `_handle_failed_operation`: count the attempt, then either put the
        operation back with its back-off recorded in `created_at`, or, past
        `max_retries`, append it to the bounded dead-letter queue. */
    method HandleFailedOperation(op: BatchOperation, now: int)
      requires Valid()
      modifies this
      ensures Valid()
      ensures FailedFate(op, now).Requeue? ==>
        queue == old(queue) + [FailedFate(op, now).op] && deadLetterQueue == old(deadLetterQueue)
        && retriedOperations == old(retriedOperations) + 1 && deadLetterOperations == old(deadLetterOperations)
      ensures FailedFate(op, now).DeadLettered? ==>
        queue == old(queue)
        && deadLetterQueue == AppendBounded(old(deadLetterQueue), FailedFate(op, now).entry, DeadLetterCapacity)
        && deadLetterOperations == old(deadLetterOperations) + 1 && retriedOperations == old(retriedOperations)
      ensures running == old(running) && lastFlush == old(lastFlush)
    {
      var counted := op.(retryCount := op.retryCount + 1);
      if counted.retryCount <= counted.maxRetries {
        var delay := RetryDelay(counted.retryCount);
        queue := queue + [counted.(createdAt := now + delay)];
        retriedOperations := retriedOperations + 1;
      } else {
        var entry := DeadLetter(counted, "Max retries exceeded (" + Text.NatToString(counted.maxRetries) + ")", now);
        deadLetterQueue := AppendBounded(deadLetterQueue, entry, DeadLetterCapacity);
        deadLetterOperations := deadLetterOperations + 1;
      }
    }

    /** `clear_dead_letter_queue`. */
    method ClearDeadLetterQueue()
      requires Valid()
      modifies this
      ensures Valid()
      ensures deadLetterQueue == [] && deadLetterOperations == 0
      ensures queue == old(queue) && running == old(running) && lastFlush == old(lastFlush)
      ensures retriedOperations == old(retriedOperations)
    {
      deadLetterQueue := [];
      deadLetterOperations := 0;
    }
  }
}
