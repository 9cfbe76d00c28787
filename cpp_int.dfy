/** C++ integer semantics: the 32-bit `int` range, the width of `std::size_t`, and `/`, `%` truncating towards zero. */
module CppInt {

  const INT_MIN: int := -0x8000_0000
  const INT_MAX: int := 0x7fff_ffff
  /** One more than the largest `std::size_t` on a 64-bit platform. */
  const SIZE_T_MOD: nat := 0x1_0000_0000_0000_0000

  /** A C++ `int` on the usual 32-bit two's-complement platforms. */
  newtype int32 = x: int | -0x8000_0000 <= x < 0x8000_0000

  /** Whether an exact integer result fits in an `int`; signed overflow is undefined in C++. */
  predicate InRange(x: int)
  {
    INT_MIN <= x <= INT_MAX
  }

  function Abs(x: int): nat
  {
    if x < 0 then -x else x
  }

  /** C++ `a / b`: the quotient rounded towards zero (Dafny's `/` is Euclidean). */
  function Quot(a: int, b: int): (q: int)
    requires b != 0
    ensures Abs(q * b) <= Abs(a)
    ensures Abs(a) - Abs(q * b) < Abs(b)
    ensures a >= 0 && b > 0 ==> q >= 0
    ensures (q < 0) == ((a < 0) != (b < 0) && Abs(a) >= Abs(b))
  {
    var m := Abs(a) / Abs(b);
    var q := if (a < 0) == (b < 0) then m else -m;
    SignedQuotient(a, b, m, q);
    q
  }

  /** The magnitude quotient m = |a| / |b|, given the sign of a * b, rounds towards zero. */
  lemma SignedQuotient(a: int, b: int, m: int, q: int)
    requires b != 0 && m == Abs(a) / Abs(b)
    requires q == if (a < 0) == (b < 0) then m else -m
    ensures Abs(q * b) <= Abs(a)
    ensures Abs(a) - Abs(q * b) < Abs(b)
    ensures a >= 0 && b > 0 ==> q >= 0
    ensures (q < 0) == ((a < 0) != (b < 0) && Abs(a) >= Abs(b))
  {
    QuotBounds(Abs(a), Abs(b));
    AbsMul(q, b);
    assert Abs(q) == m;
    assert Abs(q * b) == m * Abs(b);
  }

  /** C++ `a % b`: the remainder that goes with truncating division, with the sign of `a`. */
  function Rem(a: int, b: int): (r: int)
    requires b != 0
    ensures Quot(a, b) * b + r == a
    ensures Abs(r) < Abs(b)
    ensures a >= 0 ==> r >= 0
    ensures a < 0 ==> r <= 0
  {
    a - Quot(a, b) * b
  }

  lemma AbsMul(x: int, y: int)
    ensures Abs(x * y) == Abs(x) * Abs(y)
  {
    if x < 0 && y < 0 {
      assert x * y == (-x) * (-y);
    } else if x < 0 {
      assert -(x * y) == (-x) * y;
    } else if y < 0 {
      assert -(x * y) == x * (-y);
    }
  }

  lemma QuotBounds(x: nat, y: nat)
    requires y > 0
    ensures (x / y) * y <= x < (x / y) * y + y
    ensures x / y > 0 <==> x >= y
  {
  }
}
