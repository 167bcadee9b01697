/** Circular arrays addressed modulo their length.  The two ring implementations of the
    repository (the task queues of lab5 and the frame buffers of lab6) keep an index of the
    oldest element, an index of the next free slot and an element count; what such a ring
    holds is the window of `n` slots that starts at the oldest one and wraps around. */
module Rings {

  /** The slot `i` places after slot `front` in a ring of `size` slots, for `i <= size`. */
  function Slot(front: int, i: int, size: int): int {
    if front + i < size then front + i else front + i - size
  }

  /** The step `(index + 1) % size` of the sources is a move to the next slot. */
  lemma NextSlot(index: int, size: int)
    requires 0 <= index < size
    ensures (index + 1) % size == Slot(index, 1, size)
    ensures 0 <= (index + 1) % size < size
  {
    if index + 1 < size {
      assert index + 1 == 0 * size + (index + 1);
    } else {
      assert index + 1 == size;
    }
  }

  /** The next free slot is `distance` places past the oldest element. */
  predicate Linked<T>(slots: seq<T>, head: int, tail: int, distance: int) {
    && 0 <= head < |slots|
    && 0 <= distance <= |slots|
    && tail == Slot(head, distance, |slots|)
  }

  /** The `n` elements that start at slot `front`, in order, wrapping past the last slot. */
  function Window<T>(slots: seq<T>, front: int, n: int): (w: seq<T>)
    requires 0 <= front < |slots| && n <= |slots|
    ensures |w| == if n < 0 then 0 else n
  {
    if n < 0 then [] else seq(n, i requires 0 <= i < n => slots[Slot(front, i, |slots|)])
  }

  /** Writing the first slot past a window that leaves room for it does not disturb the
      window, and extends it by the written element. */
  lemma WritePast<T>(slots: seq<T>, front: int, n: int, x: T)
    requires 0 <= front < |slots| && 0 <= n < |slots|
    ensures 0 <= Slot(front, n, |slots|) < |slots|
    ensures Window(slots[Slot(front, n, |slots|) := x], front, n) == Window(slots, front, n)
    ensures Window(slots[Slot(front, n, |slots|) := x], front, n + 1) == Window(slots, front, n) + [x]
  {
    ExtendWindow(slots[Slot(front, n, |slots|) := x], front, n);
  }

  /** One slot more is one element more. */
  lemma ExtendWindow<T>(slots: seq<T>, front: int, n: int)
    requires 0 <= front < |slots| && 0 <= n < |slots|
    ensures Window(slots, front, n + 1) == Window(slots, front, n) + [slots[Slot(front, n, |slots|)]]
  {
    var longer := Window(slots, front, n + 1);
    assert longer[..n] == Window(slots, front, n);
    assert longer == longer[..n] + [longer[n]];
  }

  /** Moving the start one slot forward drops exactly the oldest element. */
  lemma DropOldest<T>(slots: seq<T>, front: int, n: int)
    requires 0 <= front < |slots| && 0 < n <= |slots|
    ensures Window(slots, front, n)[0] == slots[front]
    ensures Window(slots, Slot(front, 1, |slots|), n - 1) == Window(slots, front, n)[1..]
  {
    var all, rest := Window(slots, front, n), Window(slots, Slot(front, 1, |slots|), n - 1);
    forall i | 0 <= i < n - 1
      ensures rest[i] == all[1..][i]
    {
      assert Slot(Slot(front, 1, |slots|), i, |slots|) == Slot(front, i + 1, |slots|);
    }
  }
}
