/** The persistent double-ended queue the message board stores its messages in.

    Only its abstract behaviour is modelled: a deque is the sequence of its
    elements, front first (index 0 is the front, the last index the back).
    The store keys, the first/last index counters and the serialisation of
    the elements are not part of this model.
 */
module Deque {

  /** A deque of strings, front first. */
  type Deque = seq<string>

  /** The deque holds no element. */
  predicate IsEmpty(d: Deque) {
    |d| == 0
  }

  /** Adds `x` in front of every element already there. */
  function PushFront(d: Deque, x: string): Deque {
    [x] + d
  }

  /** Removes the element at the back and returns it with what is left.
      Popping an empty deque is a fatal error of the library; the message
      board never does it, so it is a precondition here. */
  function PopBack(d: Deque): (Deque, string)
    requires !IsEmpty(d)
  {
    (d[..|d| - 1], d[|d| - 1])
  }

  /** The elements in the order repeated `PopBack` calls return them until
      the deque is empty. Every element comes out exactly once. */
  function DrainOrder(d: Deque): (r: seq<string>)
    ensures |r| == |d|
    decreases |d|
  {
    if IsEmpty(d) then []
    else
      var (rest, x) := PopBack(d);
      [x] + DrainOrder(rest)
  }

  /** Pushes every element of `xs` to the front, first element first, so the
      last element of `xs` ends up at the front. */
  function PushAllFront(d: Deque, xs: seq<string>): Deque
    decreases |xs|
  {
    if xs == [] then d
    else PushFront(PushAllFront(d, xs[..|xs| - 1]), xs[|xs| - 1])
  }

  /** Draining from the back yields the deque's contents reversed: the
      k-th element drained is the k-th from the back. */
  lemma {:induction false} DrainOrderAt(d: Deque, k: nat)
    requires k < |d|
    ensures DrainOrder(d)[k] == d[|d| - 1 - k]
    decreases |d|
  {
    if k > 0 {
      var (rest, x) := PopBack(d);
      DrainOrderAt(rest, k - 1);
    }
  }

  /** An element pushed to the front comes out of the back last: after
      everything that was already in the deque. */
  lemma {:induction false} DrainAfterPushFront(d: Deque, x: string)
    ensures DrainOrder(PushFront(d, x)) == DrainOrder(d) + [x]
    decreases |d|
  {
    if IsEmpty(d) {
      assert PushFront(d, x) == [x];
      assert PopBack([x]) == ([], x);
    } else {
      var (rest, y) := PopBack(d);
      assert PushFront(d, x)[..|d|] == PushFront(rest, x);
      assert PopBack(PushFront(d, x)) == (PushFront(rest, x), y);
      DrainAfterPushFront(rest, x);
    }
  }

  /** Pushing to the front and draining from the back is first in, first
      out: the pushed elements come out in the order they were pushed,
      after the elements that were there before. */
  lemma {:induction false} FifoDrain(d: Deque, xs: seq<string>)
    ensures DrainOrder(PushAllFront(d, xs)) == DrainOrder(d) + xs
    decreases |xs|
  {
    if xs != [] {
      var init, last := xs[..|xs| - 1], xs[|xs| - 1];
      FifoDrain(d, init);
      DrainAfterPushFront(PushAllFront(d, init), last);
      assert init + [last] == xs;
    }
  }
}
