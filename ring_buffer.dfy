/** The lock-free single-producer/single-consumer ring buffer of the strategy engine,
    with its two cursors as plain fields (one thread of control). */
module RingBuffers {
  import opened Bits
  import opened Wrappers
  import opened CppInt

  /** The compile-time capacity test as written: `(C & (C - 1)) == 0` in `std::size_t`
      arithmetic, where `C - 1` wraps around to 2^64 - 1 when C is 0. */
  function CapacityAssert(c: nat): bool
    requires c < SIZE_T_MOD
  {
    BitAnd(c, (c - 1) % SIZE_T_MOD) == 0
  }

  /** The test as written lets a zero capacity through, although 0 is no power of two. */
  lemma CapacityAssertAdmitsZero()
    ensures CapacityAssert(0)
    ensures !IsPowerOfTwo(0)
  {
  }

  /** The test with the missing positivity guard: exactly the powers of two pass. */
  function ValidCapacity(c: nat): (r: bool)
    requires c < SIZE_T_MOD
    ensures r <==> IsPowerOfTwo(c)
  {
    if c == 0 then
      false
    else
      PowerOfTwoBitTest(c);
      CapacityAssert(c)
  }

  /** Advancing a cursor and masking it with `capacity - 1` wraps it modulo the capacity. */
  lemma MaskedIncrement(i: nat, capacity: nat)
    requires IsPowerOfTwo(capacity) && i < capacity
    ensures BitAnd(i + 1, capacity - 1) == (i + 1) % capacity
    ensures (i + 1) % capacity == if i + 1 == capacity then 0 else i + 1
  {
    var k: nat :| Pow2(k) == capacity;
    MaskIsMod(i + 1, k);
    if i + 1 == capacity {
      DivModUnique(i + 1, capacity, 1, 0);
    } else {
      DivModUnique(i + 1, capacity, 0, i + 1);
    }
  }

  class SpscRingBuffer<T(0)> {
    const capacity: nat
    const mask: nat
    const buffer: array<T>
    var head: nat
    var tail: nat
    /** The items held, oldest first: the slots from `tail` up to, not including, `head`. */
    ghost var Contents: seq<T>

    /** The buffer index of the i-th oldest item. */
    function Slot(i: nat): nat
      reads this
    {
      if tail + i < capacity then tail + i else tail + i - capacity
    }

    ghost predicate Valid()
      reads this, buffer
    {
      IsPowerOfTwo(capacity) && mask == capacity - 1 && buffer.Length == capacity &&
      head < capacity && tail < capacity &&
      |Contents| == (if tail <= head then head - tail else head + capacity - tail) &&
      forall i :: 0 <= i < |Contents| ==> Slot(i) < capacity && Contents[i] == buffer[Slot(i)]
    }

    /** The buffer never holds more than `capacity - 1` items: one slot always stays free. */
    lemma AtMostCapacityMinusOne()
      requires Valid()
      ensures |Contents| <= capacity - 1
    {
    }

    /** The number of items held, computed from the two cursors. */
    function Size(): (n: nat)
      reads this, buffer
      requires Valid()
      ensures n == |Contents| && n < capacity
    {
      if tail <= head then head - tail else head + capacity - tail
    }

    constructor (capacity: nat)
      requires capacity < SIZE_T_MOD && ValidCapacity(capacity)
      ensures Valid() && fresh(buffer)
      ensures this.capacity == capacity && head == 0 && tail == 0 && Contents == []
    {
      this.capacity := capacity;
      mask := capacity - 1;
      buffer := new T[capacity];
      head, tail := 0, 0;
      Contents := [];
    }

    /** Producer side: store `v` at `head` and publish the advanced head, or drop `v` when full. */
    method Push(v: T) returns (ok: bool)
      requires Valid()
      modifies this, buffer
      ensures Valid()
      ensures ok <==> |old(Contents)| < capacity - 1
      ensures Contents == if ok then old(Contents) + [v] else old(Contents)
      ensures tail == old(tail)
      ensures head == if ok then (old(head) + 1) % capacity else old(head)
      ensures buffer[..] == if ok then old(buffer[..])[old(head) := v] else old(buffer[..])
    {
      MaskedIncrement(head, capacity);
      var nextHead := BitAnd(head + 1, mask);
      if nextHead == tail {
        return false;
      }
      ghost var oldSlots := buffer[..];
      buffer[head] := v;
      head := nextHead;
      Contents := Contents + [v];
      assert forall i :: 0 <= i < |Contents| - 1 ==> Slot(i) != old(head) && buffer[Slot(i)] == oldSlots[Slot(i)];
      ok := true;
    }

    /** Consumer side: take the item at `tail` and release its slot, or report empty.
        `out0` is the value the caller's `out` reference held beforehand. */
    method Pop(out0: T) returns (ok: bool, out: T)
      requires Valid()
      modifies this
      ensures Valid()
      ensures ok <==> old(Contents) != []
      ensures ok ==> out == old(Contents)[0] && out == buffer[old(tail)]
      ensures !ok ==> out == out0
      ensures Contents == if ok then old(Contents)[1..] else old(Contents)
      ensures head == old(head)
      ensures tail == if ok then (old(tail) + 1) % capacity else old(tail)
    {
      if tail == head {
        return false, out0;
      }
      out := buffer[tail];
      MaskedIncrement(tail, capacity);
      tail := BitAnd(tail + 1, mask);
      Contents := Contents[1..];
      ok := true;
    }
  }

  /** The scenario of a capacity-4 channel: three pushes succeed, the fourth is dropped
      because one slot always stays free, and the three items come back in order. */
  method CapacityFourScenario() returns (pushed: seq<bool>, popped: seq<Option<char>>)
    ensures pushed == [true, true, true, false]
    ensures popped == [Some('A'), Some('B'), Some('C'), None]
  {
    assert Pow2(2) == 4;
    var b := new SpscRingBuffer<char>(4);
    var a1 := b.Push('A');
    var a2 := b.Push('B');
    var a3 := b.Push('C');
    assert a1 && a2 && a3 && b.Contents == ['A', 'B', 'C'];
    var a4 := b.Push('D');
    pushed := [a1, a2, a3, a4];
    var ok1, x1 := b.Pop('?');
    assert b.Contents == ['B', 'C'];
    var ok2, x2 := b.Pop('?');
    assert b.Contents == ['C'];
    var ok3, x3 := b.Pop('?');
    var ok4, x4 := b.Pop('?');
    popped := [if ok1 then Some(x1) else None, if ok2 then Some(x2) else None,
               if ok3 then Some(x3) else None, if ok4 then Some(x4) else None];
  }
}
