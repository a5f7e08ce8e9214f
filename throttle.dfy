/**
 * The throttle of the Telegram client: a request counter and a FIFO queue
 * of deferred tasks. `Can` admits a task while the counter is below
 * `limit` and the queue is shorter than `maxSize`; the periodic drain
 * resets the counter and runs queued tasks while `Can` holds.
 *
 * Tasks are opaque values of type `T`. The timer that calls the drain every
 * `interval` milliseconds is not modelled: `ProcessQueue` is called
 * explicitly, and the tasks it hands back are the ones it ran, in order.
 */
module Throttle {
  import opened Wrappers

  class TelegramClientThrottle<T> {
    const limit: int
    const maxSize: int
    const interval: int
    var queue: seq<T>
    /** Not a `nat`: `DecrementRequestCount` has no floor. */
    var requestCount: int

    constructor (limit: int, maxSize: int, interval: int)
      ensures this.limit == limit && this.maxSize == maxSize && this.interval == interval
      ensures queue == [] && requestCount == 0
    {
      this.limit := limit;
      this.maxSize := maxSize;
      this.interval := interval;
      queue := [];
      requestCount := 0;
    }

    method IncrementRequestCount()
      modifies this
      ensures requestCount == old(requestCount) + 1 && queue == old(queue)
    {
      requestCount := requestCount + 1;
    }

    method DecrementRequestCount()
      modifies this
      ensures requestCount == old(requestCount) - 1 && queue == old(queue)
    {
      requestCount := requestCount - 1;
    }

    method ClearRequestCount()
      modifies this
      ensures requestCount == 0 && queue == old(queue)
    {
      requestCount := 0;
    }

    function QueueSize(): (n: nat)
      reads this
      ensures n == |queue|
    {
      |queue|
    }

    /** Room in the rate window and in the backlog. */
    predicate Can()
      reads this
    {
      requestCount < limit && QueueSize() < maxSize
    }

    /** Appends at the tail; `maxSize` is not enforced here. */
    method Enqueue(task: T)
      modifies this
      ensures queue == old(queue) + [task] && requestCount == old(requestCount)
    {
      queue := queue + [task];
    }

    /** Removes and returns the head, or `None` on an empty queue. */
    method Dequeue() returns (task: Option<T>)
      modifies this
      ensures old(queue) == [] ==> task == None && queue == []
      ensures old(queue) != [] ==> task == Some(old(queue)[0]) && queue == old(queue)[1..]
      ensures requestCount == old(requestCount)
    {
      if queue == [] {
        task := None;
      } else {
        task := Some(queue[0]);
        queue := queue[1..];
      }
    }

    /**
     * One drain tick: resets the counter, then dequeues and runs tasks while
     * `Can` holds and the queue is not empty, counting each task it runs.
     * The tasks run are a prefix of the old queue, the rest stays queued, the
     * counter ends at the number run, and the drain stops only when `Can`
     * fails or the queue is empty.
     */
    method ProcessQueue() returns (ran: seq<T>)
      modifies this
      ensures old(queue) == ran + queue
      ensures requestCount == |ran|
      ensures ran != [] ==> |ran| <= limit && |old(queue)| < maxSize
      ensures !Can() || queue == []
    {
      ClearRequestCount();
      ran := [];
      while Can() && QueueSize() > 0
        invariant old(queue) == ran + queue
        invariant requestCount == |ran|
        invariant ran != [] ==> |ran| <= limit && |old(queue)| < maxSize
        decreases |queue|
      {
        var task := Dequeue();
        if task.Some? {
          IncrementRequestCount();
          ran := ran + [task.value];
        }
      }
    }
  }
}
