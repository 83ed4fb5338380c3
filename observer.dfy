/**
 * The observer package: an unbounded FIFO queue of events and the handler
 * step that drains it, hands the drained events to an injected delivery
 * function and puts the events that function returns back into the queue.
 * The mutex, the ticker, the command channel and the worker semaphore are
 * not modelled: every method below is one atomic, single-threaded step.
 */
module Observer {

  /** Default ticker period of a handler: one second, in nanoseconds. */
  const DefaultTickerPeriod: int := 1_000_000_000

  /** Maximum number of concurrent handle workers of one handler. */
  const MaxHandleGoroutines: nat := 5

  /**
   * The queue left after putting `res` back, one item at a time, into a
   * queue holding `q`: each item is appended at the tail when `admit`
   * accepts it given the queue at that moment, and is dropped otherwise.
   */
  function Requeue<T>(admit: (seq<T>, T) -> bool, q: seq<T>, res: seq<T>): (r: seq<T>)
    ensures q <= r && |r| <= |q| + |res|
    decreases |res|
  {
    if res == [] then q
    else Requeue(admit, if admit(q, res[0]) then q + [res[0]] else q, res[1..])
  }

  /** The items of `s` whose flag in `mask` is set, in the order of `s`. */
  function Select<T>(s: seq<T>, mask: seq<bool>): (r: seq<T>)
    requires |mask| == |s|
    ensures |r| <= |s|
    ensures multiset(r) <= multiset(s)
  {
    if s == [] then []
    else
      assert s == [s[0]] + s[1..];
      (if mask[0] then [s[0]] else []) + Select(s[1..], mask[1..])
  }

  /** The admission decision taken for each item of `res` while putting it back into `q`. */
  function Admissions<T>(admit: (seq<T>, T) -> bool, q: seq<T>, res: seq<T>): (mask: seq<bool>)
    ensures |mask| == |res|
    decreases |res|
  {
    if res == [] then []
    else
      var a := admit(q, res[0]);
      [a] + Admissions(admit, if a then q + [res[0]] else q, res[1..])
  }

  /**
   * Putting items back never reorders or duplicates them: the old contents
   * stay in front, followed by exactly the admitted items of `res`, in order.
   */
  lemma {:induction false} RequeueKeepsSubsequence<T>(admit: (seq<T>, T) -> bool, q: seq<T>, res: seq<T>)
    ensures Requeue(admit, q, res) == q + Select(res, Admissions(admit, q, res))
    decreases |res|
  {
    if res != [] {
      var a := admit(q, res[0]);
      var q' := if a then q + [res[0]] else q;
      RequeueKeepsSubsequence(admit, q', res[1..]);
      var mask := Admissions(admit, q, res);
      assert mask[1..] == Admissions(admit, q', res[1..]);
      var rest := Select(res[1..], mask[1..]);
      assert Requeue(admit, q, res) == q' + rest;
      if a {
        assert Select(res, mask) == [res[0]] + rest;
        assert q' + rest == q + ([res[0]] + rest);
      } else {
        assert Select(res, mask) == [] + rest == rest;
      }
    }
  }

  /** When every item is admitted, all of `res` is appended, in order. */
  lemma {:induction false} RequeueAllAdmitted<T>(admit: (seq<T>, T) -> bool, q: seq<T>, res: seq<T>)
    requires forall s, x :: admit(s, x)
    ensures Requeue(admit, q, res) == q + res
    decreases |res|
  {
    if res != [] {
      RequeueAllAdmitted(admit, q + [res[0]], res[1..]);
      assert q + [res[0]] + res[1..] == q + res;
    }
  }

  /**
   * queue[T]: an unbounded FIFO over a slice. `zero` stands for the zero
   * value of T that Dequeue returns on an empty queue; `admit` is the
   * admission test of TryEnqueue given the queue contents and the item.
   */
  class Queue<T> {
    var items: seq<T>
    const zero: T
    const admit: (seq<T>, T) -> bool

    /** newQueue: an empty queue. */
    constructor (zero: T, admit: (seq<T>, T) -> bool)
      ensures items == []
      ensures this.zero == zero && this.admit == admit
    {
      items := [];
      this.zero := zero;
      this.admit := admit;
    }

    /** Appends `item` at the tail; earlier items are unchanged. */
    method Enqueue(item: T)
      modifies this
      ensures items == old(items) + [item]
    {
      items := items + [item];
    }

    /**
     * Non-blocking insertion: appends `item` at the tail when the admission
     * test accepts it, and otherwise leaves the queue unchanged.
     */
    method TryEnqueue(item: T) returns (ok: bool)
      modifies this
      ensures ok == admit(old(items), item)
      ensures items == if ok then old(items) + [item] else old(items)
    {
      ok := admit(items, item);
      if ok {
        items := items + [item];
      }
    }

    /**
     * Removes and returns the head; on an empty queue returns the zero
     * value and changes nothing.
     */
    method Dequeue() returns (x: T)
      modifies this
      ensures old(items) == [] ==> x == zero && items == []
      ensures old(items) != [] ==> x == old(items)[0] && items == old(items)[1..]
    {
      if |items| == 0 {
        return zero;
      }
      x := items[0];
      items := items[1..];
    }

    /** The number of queued items. */
    method Len() returns (n: nat)
      ensures n == |items|
    {
      n := |items|;
    }

    /** Empties the queue. */
    method Clear()
      modifies this
      ensures items == []
    {
      items := [];
    }

    /** Drain-all: returns every queued item in order and empties the queue. */
    method All() returns (drained: seq<T>)
      modifies this
      ensures drained == old(items)
      ensures items == []
    {
      drained := items;
      items := [];
    }
  }

  /**
   * FIFO order: enqueuing `xs` into a new queue and then dequeuing as many
   * times as there are items yields `xs` in the same order.
   */
  method FifoOrder<T>(xs: seq<T>, zero: T) returns (ys: seq<T>)
    ensures ys == xs
  {
    var q := new Queue(zero, (s: seq<T>, x: T) => true);
    for i := 0 to |xs|
      invariant q.items == xs[..i]
    {
      q.Enqueue(xs[i]);
    }
    ys := [];
    for i := 0 to |xs|
      invariant ys == xs[..i]
      invariant q.items == xs[i..]
    {
      var x := q.Dequeue();
      ys := ys + [x];
    }
  }

  /** A drain-all right after another drain-all returns nothing. */
  method DrainTwice<T>(q: Queue<T>) returns (first: seq<T>, second: seq<T>)
    modifies q
    ensures first == old(q.items)
    ensures second == [] && q.items == []
  {
    first := q.All();
    second := q.All();
  }

  /**
   * handler[T]: owns a queue and a delivery function `fn`, which receives
   * the drained events and returns the events to put back. `delivered`
   * records, in call order, every sequence of events handed to `fn`.
   */
  class Handler<T> {
    const queue: Queue<T>
    const fn: seq<T> -> seq<T>
    var tickerPeriod: int
    const semaphoreCapacity: nat
    var closed: bool
    ghost var delivered: seq<seq<T>>

    /** The queue contents after one handle step that found `items`. */
    function AfterHandle(items: seq<T>): seq<T> {
      if items == [] then [] else Requeue(queue.admit, [], fn(items))
    }

    /** The calls to `fn` made by one handle step that found `items`. */
    function CallsFor(items: seq<T>): seq<seq<T>> {
      if items == [] then [] else [items]
    }

    /** newHandler: one-second ticker, five worker slots, open. */
    constructor (queue: Queue<T>, fn: seq<T> -> seq<T>)
      ensures this.queue == queue && this.fn == fn
      ensures tickerPeriod == DefaultTickerPeriod
      ensures semaphoreCapacity == MaxHandleGoroutines
      ensures !closed && delivered == []
    {
      this.queue := queue;
      this.fn := fn;
      tickerPeriod := DefaultTickerPeriod;
      semaphoreCapacity := MaxHandleGoroutines;
      closed := false;
      delivered := [];
    }

    /** Sets the ticker period only and returns the same handler. */
    method WithTick(period: int) returns (h: Handler<T>)
      modifies this`tickerPeriod
      ensures h == this && tickerPeriod == period
    {
      tickerPeriod := period;
      h := this;
    }

    /** The only writer of `closed`: it only ever sets it. */
    method MarkClosed()
      modifies this`closed
      ensures closed
    {
      closed := true;
    }

    /**
     * One handle step: drain the queue; if nothing was drained, stop without
     * calling `fn`; otherwise hand `fn` the drained events and try to put
     * each event it returns back, in order.
     */
    method Handle()
      modifies queue, this`delivered
      ensures delivered == old(delivered) + CallsFor(old(queue.items))
      ensures queue.items == AfterHandle(old(queue.items))
    {
      var events := queue.All();
      if |events| == 0 {
        return;
      }
      var res := fn(events);
      delivered := delivered + [events];
      if |res| != 0 {
        for i := 0 to |res|
          invariant Requeue(queue.admit, queue.items, res[i..]) == Requeue(queue.admit, [], res)
          invariant delivered == old(delivered) + [events]
        {
          var _ := queue.TryEnqueue(res[i]);
        }
      }
    }

    /**
     * flush: a no-op once closed. Otherwise the command is offered without
     * blocking; `accepted` says whether the listen loop took it, in which
     * case the loop runs one handle step.
     */
    method Flush(accepted: bool)
      modifies queue, this`delivered
      ensures old(closed) || !accepted ==> queue.items == old(queue.items) && delivered == old(delivered)
      ensures !old(closed) && accepted ==>
        queue.items == AfterHandle(old(queue.items)) && delivered == old(delivered) + CallsFor(old(queue.items))
    {
      if closed {
        return;
      }
      if accepted {
        Handle();
      }
    }

    /**
     * flushAndWait: a no-op once closed. Otherwise the listen loop runs a
     * last handle step, closes its command channel and exits, which marks
     * the handler closed.
     */
    method FlushAndWait()
      modifies queue, this`delivered, this`closed
      ensures closed
      ensures old(closed) ==> queue.items == old(queue.items) && delivered == old(delivered)
      ensures !old(closed) ==>
        queue.items == AfterHandle(old(queue.items)) && delivered == old(delivered) + CallsFor(old(queue.items))
    {
      if closed {
        return;
      }
      Handle();
      MarkClosed();
    }
  }

  /** A handle step whose delivery function returns nothing leaves the queue empty. */
  lemma NoRetriesLeaveQueueEmpty<T>(h: Handler<T>, items: seq<T>)
    requires items != [] ==> h.fn(items) == []
    ensures h.AfterHandle(items) == []
  {
  }
}
