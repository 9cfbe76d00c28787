/** `My::Vector<T>`: a growable array. The three pointers `data_start_`, `data_end_` and
    `capacity_end_` become the allocated array (its length is the capacity) and the number of
    elements in use; a null `data_start_` becomes an array of length 0. */
module Vectors {
  import opened Bits
  import opened Wrappers

  /** The capacity `reallocate` moves to: 1 from an empty allocation, otherwise twice as much. */
  function GrownCapacity(c: nat): (r: nat)
    ensures r > c && (c == 0 ==> r == 1) && (c > 0 ==> r == 2 * c)
  {
    if c == 0 then 1 else 2 * c
  }

  /** Growth keeps the capacity a power of two, once it is one (or 0, before the first allocation). */
  lemma GrowthKeepsPowerOfTwo(c: nat)
    requires c == 0 || IsPowerOfTwo(c)
    ensures IsPowerOfTwo(GrownCapacity(c))
  {
    if c == 0 {
      assert Pow2(0) == 1;
    } else {
      var k: nat :| Pow2(k) == c;
      assert Pow2(k + 1) == 2 * c;
    }
  }

  class Vector<T(0)> {
    var data: array<T>
    var size: nat

    ghost predicate Valid()
      reads this
    {
      size <= data.Length
    }

    /** The elements in use: the first `size` slots of the allocation. */
    ghost function Elements(): seq<T>
      reads this, data
      requires Valid()
    {
      data[..size]
    }

    /** `Vector()`: no allocation, no elements. */
    constructor Empty()
      ensures Valid() && fresh(data) && Elements() == [] && Capacity() == 0
    {
      data := new T[0];
      size := 0;
    }

    /** `Vector(size, default_data)`: `size` copies of the value, with exactly that capacity. */
    constructor Fill(n: nat, d: T)
      ensures Valid() && fresh(data)
      ensures Elements() == seq(n, _ => d) && Capacity() == n
    {
      var a := new T[n];
      var i := 0;
      while i < n
        invariant 0 <= i <= n
        invariant forall k :: 0 <= k < i ==> a[k] == d
      {
        a[i] := d;
        i := i + 1;
      }
      data := a;
      size := n;
    }

    /** `Vector(const Vector&)`: a fresh allocation of the same capacity holding the same elements. */
    constructor Copy(other: Vector<T>)
      requires other.Valid()
      ensures Valid() && fresh(data)
      ensures Elements() == other.Elements() && Capacity() == other.Capacity()
    {
      var a := new T[other.data.Length];
      var i := 0;
      while i < other.size
        invariant 0 <= i <= other.size
        invariant forall k :: 0 <= k < i ==> a[k] == other.data[k]
      {
        a[i] := other.data[i];
        i := i + 1;
      }
      data := a;
      size := other.size;
    }

    /** `Vector(Vector&&)`: takes over the other vector's allocation, which is left empty. */
    constructor Move(other: Vector<T>)
      requires other.Valid()
      modifies other
      ensures Valid() && other.Valid()
      ensures data == old(other.data) && Elements() == old(other.Elements())
      ensures Capacity() == old(other.Capacity())
      ensures fresh(other.data) && other.Elements() == [] && other.Capacity() == 0
    {
      data := other.data;
      size := other.size;
      new;
      other.data := new T[0];
      other.size := 0;
    }

    /** `operator=(Vector&&)`: unless it is the same object, take over the other's allocation
        (the old one is released) and leave the other empty. */
    method MoveAssign(other: Vector<T>)
      requires Valid() && other.Valid()
      modifies this, other
      ensures Valid() && other.Valid()
      ensures other == this ==> data == old(data) && size == old(size)
      ensures other != this ==> data == old(other.data) && Elements() == old(other.Elements())
      ensures other != this ==> fresh(other.data) && other.Elements() == [] && other.Capacity() == 0
    {
      if other != this {
        data := other.data;
        size := other.size;
        other.data := new T[0];
        other.size := 0;
      }
    }

    /** `swap(a, b)`: the two vectors exchange their allocations and sizes. */
    static method Swap(a: Vector<T>, b: Vector<T>)
      modifies a, b
      ensures a.data == old(b.data) && a.size == old(b.size)
      ensures b.data == old(a.data) && b.size == old(a.size)
    {
      a.data, b.data := b.data, a.data;
      a.size, b.size := b.size, a.size;
    }

    /** `operator=(Vector other)`: copy-and-swap. The parameter is a copy of the right-hand side;
        swapping with it gives this vector that copy, and the old allocation leaves with the copy. */
    method CopyAssign(other: Vector<T>)
      requires Valid() && other.Valid()
      modifies this
      ensures Valid() && fresh(data)
      ensures Elements() == old(other.Elements()) && Capacity() == old(other.Capacity())
    {
      var copy := new Vector<T>.Copy(other);
      Swap(this, copy);
    }

    /** `operator[]`: unchecked access, so the index must be in range. */
    function Get(i: nat): (r: T)
      reads this, data
      requires Valid() && i < size
      ensures r == Elements()[i]
    {
      data[i]
    }

    /** `at`: `std::out_of_range` (here `None`) for a negative index or one at or past the size. */
    function At(index: int): (r: Option<T>)
      reads this, data
      requires Valid()
      ensures r.None? <==> index < 0 || index >= |Elements()|
      ensures r.Some? ==> r.value == Elements()[index]
    {
      if index < 0 || index >= size then None else Some(data[index])
    }

    /** `back`: the last element; the vector must not be empty. */
    function Back(): (r: T)
      reads this, data
      requires Valid() && size > 0
      ensures r == Elements()[|Elements()| - 1]
    {
      data[size - 1]
    }

    function Size(): (n: nat)
      reads this, data
      requires Valid()
      ensures n == |Elements()| && n <= Capacity()
    {
      size
    }

    /** `capacity()`: the length of the allocation, not the number of elements in use. */
    function Capacity(): (n: nat)
      reads this
      ensures n == data.Length
    {
      data.Length
    }

    function IsEmpty(): (r: bool)
      reads this, data
      requires Valid()
      ensures r <==> Elements() == []
    {
      size == 0
    }

    /** `reallocate`: move the elements into a fresh allocation of the grown capacity. */
    method Reallocate()
      requires Valid()
      modifies this
      ensures Valid() && fresh(data)
      ensures Elements() == old(Elements()) && Capacity() == GrownCapacity(old(Capacity()))
    {
      var a := new T[GrownCapacity(data.Length)];
      var i := 0;
      while i < size
        invariant 0 <= i <= size && data == old(data) && size == old(size)
        invariant forall k :: 0 <= k < i ==> a[k] == data[k]
      {
        a[i] := data[i];
        i := i + 1;
      }
      data := a;
    }

    /** `push_back`: grow only when full, then store the item after the last element. */
    method PushBack(item: T)
      requires Valid()
      modifies this, data
      ensures Valid()
      ensures Elements() == old(Elements()) + [item]
      ensures Capacity() == if old(size) == old(Capacity()) then GrownCapacity(old(Capacity())) else old(Capacity())
      ensures old(size) == old(Capacity()) ==> fresh(data)
      ensures old(size) < old(Capacity()) ==> data == old(data)
    {
      if size == data.Length {
        Reallocate();
      }
      data[size] := item;
      size := size + 1;
    }

    /** `insert(pos, e)` with pos the offset of the iterator from `begin()`: grow if full, shift
        the elements from pos on one slot right, store e at pos, and return the offset. */
    method Insert(pos: nat, e: T) returns (r: nat)
      requires Valid() && pos <= size
      modifies this, data
      ensures Valid() && r == pos
      ensures Elements() == old(Elements())[..pos] + [e] + old(Elements())[pos..]
      ensures Capacity() == if old(size) == old(Capacity()) then GrownCapacity(old(Capacity())) else old(Capacity())
      ensures old(size) == old(Capacity()) ==> fresh(data)
      ensures old(size) < old(Capacity()) ==> data == old(data)
    {
      ghost var before := Elements();
      if size == data.Length {
        Reallocate();
      }
      ShiftRight(pos);
      ghost var shifted := data[..];
      data[pos] := e;
      assert data[..pos] == shifted[..pos] == before[..pos];
      assert data[pos + 1..size + 1] == shifted[pos + 1..size + 1] == before[pos..];
      assert data[..size + 1] == data[..pos] + [e] + data[pos + 1..size + 1];
      size := size + 1;
      r := pos;
    }

    /** The shift loop of `insert`: slots pos .. size-1 move to pos+1 .. size, from the back. */
    method ShiftRight(pos: nat)
      requires Valid() && pos <= size < data.Length
      modifies data
      ensures data[..pos] == old(data[..pos]) && data[pos + 1..size + 1] == old(data[pos..size])
    {
      var i := size;
      while i > pos
        invariant pos <= i <= size
        invariant data[..i] == old(data[..i])
        invariant data[i + 1..size + 1] == old(data[i..size])
      {
        data[i] := data[i - 1];
        i := i - 1;
      }
    }
  }

  /** Capacities reached by `push_back` from an empty vector are always 0 or a power of two. */
  method PushBackKeepsPowerOfTwoCapacity<T(0)>(v: Vector<T>, item: T)
    requires v.Valid() && (v.Capacity() == 0 || IsPowerOfTwo(v.Capacity()))
    modifies v, v.data
    ensures v.Valid() && IsPowerOfTwo(v.Capacity())
    ensures v.Elements() == old(v.Elements()) + [item]
  {
    GrowthKeepsPowerOfTwo(v.Capacity());
    v.PushBack(item);
  }

  /** The driver program: push 1 and 2, copy the vector; the copy has size 2, element 1 is 2,
      `back()` is 2, and the original still starts with 1. */
  method PushTwoScenario() returns (size: nat, second: int, back: int, first: int, capacity: nat)
    ensures size == 2 && second == 2 && back == 2 && first == 1 && capacity == 2
  {
    var x := new Vector<int>.Empty();
    x.PushBack(1);
    x.PushBack(2);
    var s := new Vector<int>.Copy(x);
    size := s.Size();
    second := s.Get(1);
    back := s.Back();
    first := x.Get(0);
    capacity := s.Capacity();
  }
}
