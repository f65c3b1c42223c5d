/** A bounded FIFO queue that is offered items without waiting (`xQueueSend(q, &x, 0)` on a
    FreeRTOS queue): an item offered to a full queue is dropped and the queue stays as it was. */
module Fifo {

  /** Offer one item: appended at the back when there is room, dropped when the queue is full. */
  function Push<T>(q: seq<T>, x: T, capacity: nat): seq<T>
  {
    if |q| < capacity then q + [x] else q
  }

  /** Offer several items one after another, each as `Push` does. */
  function Offer<T>(q: seq<T>, xs: seq<T>, capacity: nat): seq<T>
    decreases |xs|
  {
    if xs == [] then q else Offer(Push(q, xs[0], capacity), xs[1..], capacity)
  }

  function Min(a: int, b: int): int { if a <= b then a else b }

  /** Offering keeps what was queued, adds the longest prefix of the offered items that fits, and
      drops everything after it: once the queue is full, it stays full. */
  lemma {:induction false} OfferKeepsPrefix<T>(q: seq<T>, xs: seq<T>, capacity: nat)
    requires |q| <= capacity
    ensures Offer(q, xs, capacity) == q + xs[..Min(|xs|, capacity - |q|)]
    ensures |Offer(q, xs, capacity)| <= capacity
    decreases |xs|
  {
    if xs != [] {
      var q' := Push(q, xs[0], capacity);
      OfferKeepsPrefix(q', xs[1..], capacity);
      if |q| < capacity {
        assert q' == q + [xs[0]];
        assert xs[..Min(|xs|, capacity - |q|)] == [xs[0]] + xs[1..][..Min(|xs| - 1, capacity - |q'|)];
      } else {
        assert xs[..Min(|xs|, capacity - |q|)] == [];
      }
    }
  }

  /** With room for everything, offering is plain appending. */
  lemma OfferWithRoom<T>(q: seq<T>, xs: seq<T>, capacity: nat)
    requires |q| + |xs| <= capacity
    ensures Offer(q, xs, capacity) == q + xs
  {
    OfferKeepsPrefix(q, xs, capacity);
    assert xs[..|xs|] == xs;
  }

  /** Offering two batches in turn is offering their concatenation. */
  lemma {:induction false} OfferConcat<T>(q: seq<T>, xs: seq<T>, ys: seq<T>, capacity: nat)
    ensures Offer(Offer(q, xs, capacity), ys, capacity) == Offer(q, xs + ys, capacity)
    decreases |xs|
  {
    if xs != [] {
      assert (xs + ys)[0] == xs[0];
      assert (xs + ys)[1..] == xs[1..] + ys;
      OfferConcat(Push(q, xs[0], capacity), xs[1..], ys, capacity);
    } else {
      assert xs + ys == ys;
    }
  }

  /** A single offer is a single push. */
  lemma OfferOne<T>(q: seq<T>, x: T, capacity: nat)
    ensures Offer(q, [x], capacity) == Push(q, x, capacity)
  {
    assert [x][1..] == [];
  }
}
