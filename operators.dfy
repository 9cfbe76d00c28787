/** `MyClass`, a wrapper around one `int`, and its overloaded operators. Signed overflow is
    undefined in C++, so every operator that could overflow requires its exact result to fit. */
module Operators {
  import opened CppInt
  import opened Bits

  // ----- The operators on the wrapped values -----

  function AddOp(x: int32, y: int32): (r: int32)
    requires InRange(x as int + y as int)
    ensures r as int == x as int + y as int
  {
    x + y
  }

  function SubOp(x: int32, y: int32): (r: int32)
    requires InRange(x as int - y as int)
    ensures r as int == x as int - y as int
  {
    x - y
  }

  function MulOp(x: int32, y: int32): (r: int32)
    requires InRange(x as int * y as int)
    ensures r as int == x as int * y as int
  {
    x * y
  }

  /** Division and remainder are undefined for a zero divisor, and for INT_MIN by -1, whose
      quotient does not fit in an `int`. */
  predicate DivisionDefined(x: int32, y: int32)
  {
    y != 0 && !(x as int == INT_MIN && y == -1)
  }

  /** `x / y`, rounded towards zero. */
  function DivOp(x: int32, y: int32): (r: int32)
    requires DivisionDefined(x, y)
    ensures r as int == Quot(x as int, y as int)
  {
    QuotFits(x as int, y as int);
    Quot(x as int, y as int) as int32
  }

  /** `x % y`, with the sign of x. */
  function ModOp(x: int32, y: int32): (r: int32)
    requires DivisionDefined(x, y)
    ensures r as int == Rem(x as int, y as int)
  {
    Rem(x as int, y as int) as int32
  }

  /** The truncated quotient of two `int`s fits in an `int`, except for INT_MIN / -1. */
  lemma QuotFits(a: int, b: int)
    requires InRange(a) && InRange(b) && b != 0 && !(a == INT_MIN && b == -1)
    ensures InRange(Quot(a, b))
  {
    if Abs(b) == 1 {
      QuotByUnit(a, b);
    } else {
      QuotByLarger(a, b);
    }
  }

  /** Dividing by 1 or -1 keeps the magnitude; INT_MIN keeps its sign because b is 1. */
  lemma QuotByUnit(a: int, b: int)
    requires InRange(a) && Abs(b) == 1 && !(a == INT_MIN && b == -1)
    ensures InRange(Quot(a, b))
  {
    var q := Quot(a, b);
    AbsMul(q, b);
    assert Abs(q) <= Abs(a);
    assert a == INT_MIN ==> b == 1 && q < 0;
  }

  /** Dividing by a divisor of magnitude at least 2 at least halves the magnitude. */
  lemma QuotByLarger(a: int, b: int)
    requires Abs(b) >= 2
    ensures 2 * Abs(Quot(a, b)) <= Abs(a)
  {
    var q := Quot(a, b);
    AbsMul(q, b);
    MulMono(2, Abs(b), Abs(q));
  }

  /** Quotient and remainder put the dividend back together, the remainder is smaller than the
      divisor and has the dividend's sign. */
  lemma DivModIdentity(x: int32, y: int32)
    requires DivisionDefined(x, y)
    ensures DivOp(x, y) as int * y as int + ModOp(x, y) as int == x as int
    ensures Abs(ModOp(x, y) as int) < Abs(y as int)
    ensures x >= 0 ==> ModOp(x, y) >= 0
    ensures x <= 0 ==> ModOp(x, y) <= 0
  {
  }

  /** Truncation, not flooring: -7 / 2 is -3 with remainder -1, and 7 / -2 is -3 with remainder 1. */
  lemma TruncatingExamples()
    ensures DivOp(-7, 2) == -3 && ModOp(-7, 2) == -1
    ensures DivOp(7, -2) == -3 && ModOp(7, -2) == 1
    ensures DivOp(-7, -2) == 3 && ModOp(-7, -2) == -1
  {
    assert Quot(-7, 2) == -3;
    assert Quot(7, -2) == -3;
    assert Quot(-7, -2) == 3;
  }

  /** The truth value of an `int`: anything but 0 is true. */
  predicate Truthy(x: int32)
  {
    x != 0
  }

  class MyClass {
    var value: int32

    /** `MyClass(int v = 0)`, with the value always passed explicitly. */
    constructor (v: int32)
      ensures value == v
    {
      value := v;
    }

    // ----- Arithmetic: a new object, both operands unchanged -----

    method Plus(other: MyClass) returns (r: MyClass)
      requires InRange(value as int + other.value as int)
      ensures fresh(r) && r.value == AddOp(value, other.value)
    {
      r := new MyClass(value + other.value);
    }

    method Minus(other: MyClass) returns (r: MyClass)
      requires InRange(value as int - other.value as int)
      ensures fresh(r) && r.value == SubOp(value, other.value)
    {
      r := new MyClass(value - other.value);
    }

    method Times(other: MyClass) returns (r: MyClass)
      requires InRange(value as int * other.value as int)
      ensures fresh(r) && r.value == MulOp(value, other.value)
    {
      r := new MyClass(value * other.value);
    }

    method Divide(other: MyClass) returns (r: MyClass)
      requires DivisionDefined(value, other.value)
      ensures fresh(r) && r.value == DivOp(value, other.value)
    {
      r := new MyClass(DivOp(value, other.value));
    }

    method Modulo(other: MyClass) returns (r: MyClass)
      requires DivisionDefined(value, other.value)
      ensures fresh(r) && r.value == ModOp(value, other.value)
    {
      r := new MyClass(ModOp(value, other.value));
    }

    // ----- Assignment: this object changes in place and is returned -----

    method Assign(other: MyClass) returns (r: MyClass)
      modifies this
      ensures r == this && value == old(other.value)
    {
      value := other.value;
      r := this;
    }

    /** `+=` and the other compound assignments read the right-hand side before writing, so
        `x += x` doubles x; the right-hand side changes only when it is this object. */
    method AddAssign(other: MyClass) returns (r: MyClass)
      requires InRange(value as int + other.value as int)
      modifies this
      ensures r == this && value == AddOp(old(value), old(other.value))
    {
      value := value + other.value;
      r := this;
    }

    method SubAssign(other: MyClass) returns (r: MyClass)
      requires InRange(value as int - other.value as int)
      modifies this
      ensures r == this && value == SubOp(old(value), old(other.value))
    {
      value := value - other.value;
      r := this;
    }

    method MulAssign(other: MyClass) returns (r: MyClass)
      requires InRange(value as int * other.value as int)
      modifies this
      ensures r == this && value == MulOp(old(value), old(other.value))
    {
      value := value * other.value;
      r := this;
    }

    method DivAssign(other: MyClass) returns (r: MyClass)
      requires DivisionDefined(value, other.value)
      modifies this
      ensures r == this && value == DivOp(old(value), old(other.value))
    {
      value := DivOp(value, other.value);
      r := this;
    }

    method ModAssign(other: MyClass) returns (r: MyClass)
      requires DivisionDefined(value, other.value)
      modifies this
      ensures r == this && value == ModOp(old(value), old(other.value))
    {
      value := ModOp(value, other.value);
      r := this;
    }

    // ----- Comparison -----

    function Eq(other: MyClass): bool
      reads this, other
    {
      value == other.value
    }

    function Ne(other: MyClass): bool
      reads this, other
    {
      value != other.value
    }

    function Lt(other: MyClass): bool
      reads this, other
    {
      value < other.value
    }

    function Le(other: MyClass): bool
      reads this, other
    {
      value <= other.value
    }

    function Gt(other: MyClass): bool
      reads this, other
    {
      value > other.value
    }

    function Ge(other: MyClass): bool
      reads this, other
    {
      value >= other.value
    }

    // ----- Logical -----

    function Not(): (r: bool)
      reads this
      ensures r <==> value == 0
    {
      !Truthy(value)
    }

    function And(other: MyClass): (r: bool)
      reads this, other
      ensures r <==> value != 0 && other.value != 0
    {
      Truthy(value) && Truthy(other.value)
    }

    function Or(other: MyClass): (r: bool)
      reads this, other
      ensures r <==> value != 0 || other.value != 0
    {
      Truthy(value) || Truthy(other.value)
    }

    // ----- Increment and decrement -----

    /** Prefix `++`: the new value, and this object itself. */
    method PreIncrement() returns (r: MyClass)
      requires value as int < INT_MAX
      modifies this
      ensures r == this && value as int == old(value) as int + 1
    {
      value := value + 1;
      r := this;
    }

    /** Postfix `++`: a copy holding the old value, while this object moves on by one. */
    method PostIncrement() returns (r: MyClass)
      requires value as int < INT_MAX
      modifies this
      ensures fresh(r) && r.value == old(value) && value as int == old(value) as int + 1
    {
      r := new MyClass(value);
      value := value + 1;
    }

    method PreDecrement() returns (r: MyClass)
      requires value as int > INT_MIN
      modifies this
      ensures r == this && value as int == old(value) as int - 1
    {
      value := value - 1;
      r := this;
    }

    method PostDecrement() returns (r: MyClass)
      requires value as int > INT_MIN
      modifies this
      ensures fresh(r) && r.value == old(value) && value as int == old(value) as int - 1
    {
      r := new MyClass(value);
      value := value - 1;
    }

    /** Unary `*`: the wrapped value. */
    function Deref(): (r: int32)
      reads this
      ensures r == value && (r == 0 <==> Not())
    {
      value
    }
  }

  /** The six comparisons agree with each other as on integers: `!=` negates `==`, `>` and `>=`
      are `<` and `<=` with the operands swapped, `<=` is `<` or `==`, `>=` negates `<`, and
      exactly one of `<`, `==`, `>` holds. */
  lemma ComparisonsConsistent(a: MyClass, b: MyClass)
    ensures a.Ne(b) == !a.Eq(b) && a.Eq(b) == b.Eq(a)
    ensures a.Gt(b) == b.Lt(a) && a.Ge(b) == b.Le(a)
    ensures a.Le(b) == (a.Lt(b) || a.Eq(b)) && a.Ge(b) == !a.Lt(b)
    ensures (a.Lt(b) && !a.Eq(b) && !a.Gt(b)) || (!a.Lt(b) && a.Eq(b) && !a.Gt(b)) || (!a.Lt(b) && !a.Eq(b) && a.Gt(b))
    ensures a.Eq(b) <==> a.Deref() == b.Deref()
  {
  }

  /** `&&` and `||` on the objects follow De Morgan's laws through `!`. */
  lemma LogicalDeMorgan(a: MyClass, b: MyClass)
    ensures a.And(b) == !(a.Not() || b.Not())
    ensures a.Or(b) == !(a.Not() && b.Not())
    ensures a.And(a) == !a.Not() && a.Or(a) == !a.Not()
  {
  }

  /** A compound assignment gives the value the binary operator returns, leaving the right-hand
      side alone when it is a different object. */
  method CompoundMatchesBinary(a: MyClass, b: MyClass) returns (sum: MyClass)
    requires a != b && InRange(a.value as int + b.value as int)
    modifies a
    ensures a.value == sum.value && b.value == old(b.value)
  {
    sum := a.Plus(b);
    var _ := a.AddAssign(b);
  }

  /** `x += x` doubles x: the right-hand side is read before it is overwritten. */
  method SelfAddDoubles(a: MyClass) returns (r: MyClass)
    requires InRange(2 * a.value as int)
    modifies a
    ensures a.value as int == 2 * old(a.value) as int && r == a
  {
    r := a.AddAssign(a);
  }

  /** Prefix `++` then prefix `--` restores the value; postfix `++` returns the value from before. */
  method IncrementScenario() returns (before: int32, after: int32, restored: int32)
    ensures before == 5 && after == 6 && restored == 5
  {
    var x := new MyClass(5);
    var copy := x.PostIncrement();
    before, after := copy.value, x.value;
    var _ := x.PreDecrement();
    restored := x.value;
  }
}
