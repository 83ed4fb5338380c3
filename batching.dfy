/**
 * Batch formation by the push functions of the ingestion client. Starting at
 * an index, events are taken in order while the running serialized size
 * stays within the budget. When the next event would overflow the budget,
 * the scan stops; the code then compares the scan position with an `index`
 * that it has been advancing in step with that position, so the comparison
 * always holds and the overflowing event is always added to the batch being
 * closed. Every batch but the last therefore exceeds the budget.
 *
 * The split the code's own comment describes ("a single event over the
 * size", i.e. only an event that alone is too large goes over the budget,
 * as a batch of its own) is defined beside it as `IntendedBatches`, with its
 * size bound and greediness proved.
 *
 * `size` stands for the byte length of an event's serialized form.
 */
module Batching {

  /** The summed size of the items of `s`. */
  function Cost<T>(s: seq<T>, size: T -> nat): nat {
    if s == [] then 0 else Cost(s[..|s| - 1], size) + size(s[|s| - 1])
  }

  /** The items of all the batches of `bs`, in order. */
  function Concat<T>(bs: seq<seq<T>>): seq<T> {
    if bs == [] then [] else bs[0] + Concat(bs[1..])
  }

  /**
   * The scan of one batch: resuming at index `i` with `cur` bytes already
   * taken, the index at which the scan stops because the input is exhausted
   * or the next event would push the batch past `budget`.
   */
  function Fill<T>(events: seq<T>, size: T -> nat, budget: nat, i: nat, cur: nat): (j: nat)
    requires i <= |events|
    ensures i <= j <= |events|
    decreases |events| - i
  {
    if i == |events| || cur + size(events[i]) > budget then i
    else Fill(events, size, budget, i + 1, cur + size(events[i]))
  }

  lemma CostAppend<T>(s: seq<T>, x: T, size: T -> nat)
    ensures Cost(s + [x], size) == Cost(s, size) + size(x)
  {
    assert (s + [x])[..|s|] == s;
  }

  /**
   * The scan keeps the batch within budget, and it stops before the end of
   * the input only because the next event does not fit.
   */
  lemma FillWithinBudget<T>(events: seq<T>, size: T -> nat, budget: nat, index: nat, i: nat)
    requires index <= i <= |events|
    requires Cost(events[index..i], size) <= budget
    ensures var j := Fill(events, size, budget, i, Cost(events[index..i], size));
      && Cost(events[index..j], size) <= budget
      && (j < |events| ==> Cost(events[index..j], size) + size(events[j]) > budget)
  {
    FillFits(events, size, budget, index, i);
    FillStopsAtOverflow(events, size, budget, index, i);
  }

  lemma {:induction false} FillFits<T>(events: seq<T>, size: T -> nat, budget: nat, index: nat, i: nat)
    requires index <= i <= |events|
    requires Cost(events[index..i], size) <= budget
    ensures Cost(events[index..Fill(events, size, budget, i, Cost(events[index..i], size))], size) <= budget
    decreases |events| - i
  {
    var cur := Cost(events[index..i], size);
    if i < |events| && cur + size(events[i]) <= budget {
      var more := cur + size(events[i]);
      assert Cost(events[index..i + 1], size) == more by {
        assert events[index..i + 1] == events[index..i] + [events[i]];
        CostAppend(events[index..i], events[i], size);
      }
      FillFits(events, size, budget, index, i + 1);
    }
  }

  lemma {:induction false} FillStopsAtOverflow<T>(events: seq<T>, size: T -> nat, budget: nat, index: nat, i: nat)
    requires index <= i <= |events|
    ensures var j := Fill(events, size, budget, i, Cost(events[index..i], size));
      j < |events| ==> Cost(events[index..j], size) + size(events[j]) > budget
    decreases |events| - i
  {
    var cur := Cost(events[index..i], size);
    if i < |events| && cur + size(events[i]) <= budget {
      var more := cur + size(events[i]);
      assert Cost(events[index..i + 1], size) == more by {
        assert events[index..i + 1] == events[index..i] + [events[i]];
        CostAppend(events[index..i], events[i], size);
      }
      FillStopsAtOverflow(events, size, budget, index, i + 1);
    }
  }

  /** Every batch holds at least one event. */
  ghost predicate AllNonEmpty<T>(bs: seq<seq<T>>) {
    forall k :: 0 <= k < |bs| ==> bs[k] != []
  }

  // ---------------------------------------------------------------------
  // The split as the code performs it

  /**
   * The end (exclusive) of the batch that starts at `index`, as the code
   * computes it: where the scan stops, plus the overflowing event when the
   * scan stopped before the end of the input.
   */
  function BatchEnd<T>(events: seq<T>, size: T -> nat, budget: nat, index: nat): (end: nat)
    requires index < |events|
    ensures index < end <= |events|
  {
    var j := Fill(events, size, budget, index, 0);
    if j < |events| then j + 1 else j
  }

  /**
   * The batches formed from `events[index..]`: one batch, then the batches
   * formed from where it ends, until the input is exhausted.
   */
  function Batches<T>(events: seq<T>, size: T -> nat, budget: nat, index: nat): (bs: seq<seq<T>>)
    ensures index < |events| ==> 1 <= |bs| <= |events| - index
    ensures index >= |events| ==> bs == []
    decreases |events| - index
  {
    if index >= |events| then []
    else
      var end := BatchEnd(events, size, budget, index);
      [events[index..end]] + Batches(events, size, budget, end)
  }

  /**
   * The shape of the batches the code forms: each batch without its last
   * event fits the budget, and every batch followed by another exceeds it.
   */
  ghost predicate OverflowShape<T>(bs: seq<seq<T>>, size: T -> nat, budget: nat) {
    && (forall k :: 0 <= k < |bs| ==> bs[k] != [] && Cost(bs[k][..|bs[k]| - 1], size) <= budget)
    && (forall k :: 0 <= k < |bs| - 1 ==> Cost(bs[k], size) > budget)
  }

  /**
   * One batch of the code: without its last event it fits the budget, and
   * if it does not reach the end of the input it exceeds the budget.
   */
  lemma BatchEndShape<T>(events: seq<T>, size: T -> nat, budget: nat, index: nat)
    requires index < |events|
    ensures var end := BatchEnd(events, size, budget, index);
      && Cost(events[index..end - 1], size) <= budget
      && (end < |events| ==> Cost(events[index..end], size) > budget)
  {
    assert events[index..index] == [];
    FillWithinBudget(events, size, budget, index, index);
    var j := Fill(events, size, budget, index, 0);
    if j < |events| {
      assert events[index..j + 1] == events[index..j] + [events[j]];
      CostAppend(events[index..j], events[j], size);
    } else {
      assert events[index..j] == events[index..j - 1] + [events[j - 1]];
      CostAppend(events[index..j - 1], events[j - 1], size);
    }
  }

  /** Partition and order: the batches, concatenated, are exactly `events[index..]`. */
  lemma {:induction false} BatchesConcat<T>(events: seq<T>, size: T -> nat, budget: nat, index: nat)
    requires index <= |events|
    ensures Concat(Batches(events, size, budget, index)) == events[index..]
    decreases |events| - index
  {
    if index < |events| {
      var end := BatchEnd(events, size, budget, index);
      BatchesConcat(events, size, budget, end);
      assert events[index..] == events[index..end] + events[end..];
    }
  }

  /** No batch is empty. */
  lemma {:induction false} BatchesNonEmpty<T>(events: seq<T>, size: T -> nat, budget: nat, index: nat)
    ensures AllNonEmpty(Batches(events, size, budget, index))
    decreases |events| - index
  {
    if index < |events| {
      var end := BatchEnd(events, size, budget, index);
      BatchesNonEmpty(events, size, budget, end);
      var bs, rest := Batches(events, size, budget, index), Batches(events, size, budget, end);
      assert forall k :: 1 <= k < |bs| ==> bs[k] == rest[k - 1];
    }
  }

  /** Every batch the code forms has the overflow shape. */
  lemma {:induction false} BatchesOverflowShape<T>(events: seq<T>, size: T -> nat, budget: nat, index: nat)
    ensures OverflowShape(Batches(events, size, budget, index), size, budget)
    decreases |events| - index
  {
    if index < |events| {
      var end := BatchEnd(events, size, budget, index);
      BatchEndShape(events, size, budget, index);
      BatchesOverflowShape(events, size, budget, end);
      var bs, rest := Batches(events, size, budget, index), Batches(events, size, budget, end);
      assert forall k :: 1 <= k < |bs| ==> bs[k] == rest[k - 1];
      assert bs[0] == events[index..end];
      assert bs[0][..|bs[0]| - 1] == events[index..end - 1];
      if |bs| > 1 {
        assert end < |events|;
      }
    }
  }

  /**
   * The inner scan of both push functions, as written: collects the batch
   * that starts at `index` and returns it with `next`, the value the code's
   * `index` has reached. `next` advances with every event taken, so it
   * equals the scan position when the overflow test compares the two.
   */
  method FormBatch<T>(events: seq<T>, index: nat, size: T -> nat, budget: nat) returns (batch: seq<T>, next: nat)
    requires index < |events|
    ensures next == BatchEnd(events, size, budget, index)
    ensures batch == events[index..next]
  {
    batch := [];
    var currentSize := 0;
    next := index;
    var i := index;
    while i < |events|
      invariant index <= i <= |events|
      invariant next == i
      invariant batch == events[index..i]
      invariant currentSize == Cost(events[index..i], size)
      invariant Fill(events, size, budget, i, currentSize) == Fill(events, size, budget, index, 0)
    {
      var n := size(events[i]);
      assert events[index..i + 1] == events[index..i] + [events[i]];
      if currentSize + n > budget {
        assert Fill(events, size, budget, index, 0) == i;
        if i == next {
          batch := batch + [events[i]];
          next := next + 1;
        }
        assert next == BatchEnd(events, size, budget, index);
        break;
      }
      assert Cost(events[index..i + 1], size) == currentSize + n by {
        CostAppend(events[index..i], events[i], size);
      }
      currentSize := currentSize + n;
      batch := batch + [events[i]];
      next := next + 1;
      i := i + 1;
    }
  }

  // ---------------------------------------------------------------------
  // The intended split

  /**
   * The end (exclusive) of the batch that starts at `index` when the
   * overflow test compares with the start of the batch: where the scan
   * stops, or just past `index` when the first event alone is too large.
   */
  function IntendedEnd<T>(events: seq<T>, size: T -> nat, budget: nat, index: nat): (end: nat)
    requires index < |events|
    ensures index < end <= |events|
  {
    var j := Fill(events, size, budget, index, 0);
    if j == index then index + 1 else j
  }

  /** The batches of the intended split of `events[index..]`. */
  function IntendedBatches<T>(events: seq<T>, size: T -> nat, budget: nat, index: nat): seq<seq<T>>
    decreases |events| - index
  {
    if index >= |events| then []
    else
      var end := IntendedEnd(events, size, budget, index);
      [events[index..end]] + IntendedBatches(events, size, budget, end)
  }

  /**
   * Every batch is within budget, except a batch holding one event whose own
   * size exceeds the budget.
   */
  ghost predicate WithinBudget<T>(bs: seq<seq<T>>, size: T -> nat, budget: nat) {
    forall k :: 0 <= k < |bs| ==>
      Cost(bs[k], size) <= budget || (|bs[k]| == 1 && size(bs[k][0]) > budget)
  }

  /**
   * Every batch followed by another was closed only because adding the next
   * batch's first event would push it past the budget.
   */
  ghost predicate Greedy<T>(bs: seq<seq<T>>, size: T -> nat, budget: nat) {
    forall k :: 1 <= k < |bs| ==>
      bs[k] != [] && Cost(bs[k - 1], size) + size(bs[k][0]) > budget
  }

  /**
   * One intended batch is within budget unless it is a single event that
   * alone exceeds the budget; and a batch that does not reach the end of the
   * input would exceed the budget if the next event were added.
   */
  lemma IntendedEndProperties<T>(events: seq<T>, size: T -> nat, budget: nat, index: nat)
    requires index < |events|
    ensures var end := IntendedEnd(events, size, budget, index);
      && (Cost(events[index..end], size) <= budget
          || (end == index + 1 && size(events[index]) > budget))
      && (end < |events| ==> Cost(events[index..end], size) + size(events[end]) > budget)
  {
    assert events[index..index] == [];
    FillWithinBudget(events, size, budget, index, index);
    var j := Fill(events, size, budget, index, 0);
    if j == index {
      assert events[index..index + 1] == [] + [events[index]];
      CostAppend([], events[index], size);
    }
  }

  /** The intended batches also partition `events[index..]` in order. */
  lemma {:induction false} IntendedBatchesConcat<T>(events: seq<T>, size: T -> nat, budget: nat, index: nat)
    requires index <= |events|
    ensures Concat(IntendedBatches(events, size, budget, index)) == events[index..]
    decreases |events| - index
  {
    if index < |events| {
      var end := IntendedEnd(events, size, budget, index);
      IntendedBatchesConcat(events, size, budget, end);
      assert events[index..] == events[index..end] + events[end..];
    }
  }

  /** Size bound: the intended batches from `index` on respect the budget. */
  lemma {:induction false} IntendedBatchesWithinBudget<T>(events: seq<T>, size: T -> nat, budget: nat, index: nat)
    ensures WithinBudget(IntendedBatches(events, size, budget, index), size, budget)
    decreases |events| - index
  {
    if index < |events| {
      var end := IntendedEnd(events, size, budget, index);
      IntendedEndProperties(events, size, budget, index);
      IntendedBatchesWithinBudget(events, size, budget, end);
      var bs, rest := IntendedBatches(events, size, budget, index), IntendedBatches(events, size, budget, end);
      assert forall k :: 1 <= k < |bs| ==> bs[k] == rest[k - 1];
    }
  }

  /** Greediness: the intended batches from `index` on are each as long as the budget allows. */
  lemma {:induction false} IntendedBatchesGreedy<T>(events: seq<T>, size: T -> nat, budget: nat, index: nat)
    ensures Greedy(IntendedBatches(events, size, budget, index), size, budget)
    decreases |events| - index
  {
    if index < |events| {
      var end := IntendedEnd(events, size, budget, index);
      IntendedEndProperties(events, size, budget, index);
      IntendedBatchesGreedy(events, size, budget, end);
      var bs, rest := IntendedBatches(events, size, budget, index), IntendedBatches(events, size, budget, end);
      assert forall k :: 1 <= k < |bs| ==> bs[k] == rest[k - 1];
      if end < |events| {
        assert bs[1] == events[end..IntendedEnd(events, size, budget, end)];
        assert bs[1][0] == events[end];
        if Cost(events[index..end], size) > budget {
          assert Cost(bs[0], size) + size(bs[1][0]) > budget;
        }
      }
    }
  }

  /**
   * The intended scan: the overflow test compares the scan position with the
   * start of the batch, so only an event that alone exceeds the budget is
   * taken past it.
   */
  method FormIntendedBatch<T>(events: seq<T>, index: nat, size: T -> nat, budget: nat) returns (batch: seq<T>, next: nat)
    requires index < |events|
    ensures next == IntendedEnd(events, size, budget, index)
    ensures batch == events[index..next]
  {
    batch := [];
    var currentSize := 0;
    next := index;
    var i := index;
    while i < |events|
      invariant index <= i <= |events|
      invariant next == i
      invariant batch == events[index..i]
      invariant currentSize == Cost(events[index..i], size)
      invariant Fill(events, size, budget, i, currentSize) == Fill(events, size, budget, index, 0)
    {
      var n := size(events[i]);
      assert events[index..i + 1] == events[index..i] + [events[i]];
      if currentSize + n > budget {
        assert Fill(events, size, budget, index, 0) == i;
        if i == index {
          batch := batch + [events[i]];
          next := next + 1;
        }
        assert next == IntendedEnd(events, size, budget, index);
        break;
      }
      assert Cost(events[index..i + 1], size) == currentSize + n by {
        CostAppend(events[index..i], events[i], size);
      }
      currentSize := currentSize + n;
      batch := batch + [events[i]];
      next := next + 1;
      i := i + 1;
    }
  }

  // ---------------------------------------------------------------------
  // Where the two splits differ

  /** Every event costs one byte. */
  function UnitSize(x: int): nat {
    1
  }

  /** An event costs its own value in bytes; a negative value costs nothing. */
  function OwnSize(x: int): nat {
    if x < 0 then 0 else x
  }

  /**
   * Four one-byte events under a three-byte budget: the code sends them as
   * one batch of four bytes, the intended split as three bytes and one.
   */
  lemma OverflowJoinsBatch()
    ensures Batches([1, 1, 1, 1], UnitSize, 3, 0) == [[1, 1, 1, 1]]
    ensures Cost([1, 1, 1, 1], UnitSize) == 4
    ensures IntendedBatches([1, 1, 1, 1], UnitSize, 3, 0) == [[1, 1, 1], [1]]
  {
    var events: seq<int> := [1, 1, 1, 1];
    assert Fill(events, UnitSize, 3, 3, 3) == 3;
    assert Fill(events, UnitSize, 3, 0, 0) == 3;
    assert Fill(events, UnitSize, 3, 3, 0) == 4;
    assert events[0..4] == events;
    assert events[..3] == [1, 1, 1];
    assert [1, 1, 1][..2] == [1, 1];
    assert [1, 1][..1] == [1];
    assert [1][..0] == [];
    assert Cost([1, 1, 1], UnitSize) == 3;
  }

  /**
   * A one-byte event followed by a ten-byte event under a three-byte budget:
   * the code sends both as one batch of eleven bytes, the intended split
   * sends the oversized event alone.
   */
  lemma OversizedEventJoinsBatch()
    ensures Batches([1, 10], OwnSize, 3, 0) == [[1, 10]]
    ensures Cost([1, 10], OwnSize) == 11
    ensures IntendedBatches([1, 10], OwnSize, 3, 0) == [[1], [10]]
  {
    var events: seq<int> := [1, 10];
    assert Fill(events, OwnSize, 3, 1, 1) == 1;
    assert Fill(events, OwnSize, 3, 0, 0) == 1;
    assert Fill(events, OwnSize, 3, 1, 0) == 1;
    assert events[0..2] == events;
    assert events[..1] == [1];
    assert [1][..0] == [];
  }
}
