/** The earlier draft of a single-producer/single-consumer queue: a power-of-two test and a
    fixed array with two `int` cursors that are advanced but never wrapped. */
module SpscDraft {
  import opened Bits
  import opened CppInt

  /** `is_power_of_2`: false for every non-positive n, otherwise the one-bit test `(n & (n - 1)) == 0`. */
  function IsPowerOf2(n: int32): (r: bool)
    ensures n <= 0 ==> !r
    ensures r <==> IsPowerOfTwo(n as int)
  {
    if n <= 0 then
      false
    else
      PowerOfTwoBitTest(n as int);
      BitAnd(n as int, n as int - 1) == 0
  }

  /** `SPSC_Queue<T, size>`: the cursors are plain `int` fields (their atomicity is left out).
      `length` is declared by the source and never read or written, so it is not modelled. */
  class SpscQueue<T(0)> {
    const size: int
    const ring: array<T>
    var head: int
    var tail: int

    /** Nothing wraps the cursors, so they only grow; the draft stays well defined only while
        `head` has not gone past the end of the array. */
    ghost predicate Valid()
      reads this, ring
    {
      0 < size <= INT_MAX && IsPowerOfTwo(size) && ring.Length == size &&
      0 <= tail <= head <= size
    }

    /** The items held, oldest first: the slots from `tail` up to, not including, `head`. */
    ghost function Contents(): seq<T>
      reads this, ring
      requires Valid()
    {
      ring[tail..head]
    }

    /** The `static_assert` admits only sizes for which `is_power_of_2` holds; both cursors start at 0. */
    constructor (size: int32)
      requires IsPowerOf2(size)
      ensures Valid() && fresh(ring) && this.size == size as int
      ensures head == 0 && tail == 0 && Contents() == []
    {
      this.size := size as int;
      ring := new T[size as int];
      head, tail := 0, 0;
    }

    /** `push` as written: the queue counts as full when `head == tail + 1`, that is when it holds
        exactly one item; otherwise the item goes to `ring_buffer_[head]`, unmasked, so the
        caller must keep that index inside the array. */
    method Push(item: T) returns (ok: bool)
      requires Valid()
      requires head != tail + 1 ==> head < size
      modifies this, ring
      ensures Valid()
      ensures ok <==> old(head) != old(tail) + 1
      ensures ok <==> |old(Contents())| != 1
      ensures tail == old(tail)
      ensures head == if ok then old(head) + 1 else old(head)
      ensures ring[..] == if ok then old(ring[..])[old(head) := item] else old(ring[..])
      ensures Contents() == if ok then old(Contents()) + [item] else old(Contents())
    {
      if head != tail + 1 {
        ring[head] := item;
        head := head + 1;
        return true;
      }
      return false;
    }

    /** `pop` on a non-empty queue: the oldest item, and `tail` moves on by one, unmasked. */
    method Pop() returns (item: T)
      requires Valid() && head != tail
      modifies this
      ensures Valid() && head == old(head) && tail == old(tail) + 1
      ensures item == old(Contents())[0]
      ensures Contents() == old(Contents())[1..]
    {
      item := ring[tail];
      tail := tail + 1;
    }

    /** `top` on a non-empty queue: the oldest item, with both cursors left where they are. */
    function Top(): (r: T)
      reads this, ring
      requires Valid() && head != tail
      ensures r == Contents()[0]
    {
      ring[tail]
    }
  }

  /** The full test as written: a four-slot queue holding a single item refuses a second one. */
  method SecondPushRefused() returns (first: bool, second: bool, held: int)
    ensures first && !second && held == 1
  {
    var q := new SpscQueue<char>(4);
    first := q.Push('A');
    second := q.Push('B');
    held := q.head - q.tail;
  }

  /** The unmasked cursors as written: in a one-slot queue, one push and one pop leave `head`
      at the array's end while the guard `head != tail + 1` would admit the next push,
      whose write `ring_buffer_[head]` is out of bounds. */
  method CursorRunsOffTheEnd() returns (pushed: bool, popped: char, admitted: bool, head: int, size: int)
    ensures pushed && popped == 'A'
    ensures admitted && head == size
  {
    var q := new SpscQueue<char>(1);
    assert Pow2(0) == 1;
    pushed := q.Push('A');
    popped := q.Pop();
    admitted := q.head != q.tail + 1;
    head, size := q.head, q.size;
  }
}
