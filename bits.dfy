/** Bit-level facts shared by the two ring buffers: powers of two, bitwise AND on
    non-negative integers, and the fact that masking with 2^k - 1 is reduction modulo 2^k. */
module Bits {

  /** 2 raised to the power k. */
  function Pow2(k: nat): (r: nat)
    ensures r >= 1
  {
    if k == 0 then 1 else 2 * Pow2(k - 1)
  }

  /** n is 2^k for some k. */
  ghost predicate IsPowerOfTwo(n: int)
  {
    exists k: nat :: Pow2(k) == n
  }

  /** The bitwise AND of two non-negative integers, computed one binary digit at a time.
      On non-negative operands this is C++ `&` on their binary representations. */
  function BitAnd(a: nat, b: nat): (r: nat)
    ensures r <= a && r <= b
  {
    if a == 0 || b == 0 then 0
    else 2 * BitAnd(a / 2, b / 2) + (if a % 2 == 1 && b % 2 == 1 then 1 else 0)
  }

  /** Division and remainder are determined by the equation x == q * d + r with 0 <= r < d. */
  lemma DivModUnique(x: nat, d: nat, q: nat, r: nat)
    requires 0 <= r < d && x == q * d + r
    ensures x / d == q && x % d == r
  {
    var q', r' := x / d, x % d;
    assert x == q' * d + r';
    if q' < q {
      MulMono(q' + 1, q, d);
    } else if q' > q {
      MulMono(q + 1, q', d);
    }
  }

  lemma MulMono(a: nat, b: nat, d: nat)
    requires a <= b
    ensures a * d <= b * d
  {
  }

  /** Halving a number and reducing it modulo 2^(k-1) loses exactly its lowest bit
      compared with reducing it modulo 2^k. */
  lemma ModDouble(x: nat, p: nat, d: nat)
    requires p >= 1 && d == 2 * p
    ensures 2 * ((x / 2) % p) + x % 2 == x % d
  {
    var q, t := (x / 2) / p, (x / 2) % p;
    assert x / 2 == q * p + t;
    assert x == q * d + (2 * t + x % 2);
    DivModUnique(x, d, q, 2 * t + x % 2);
  }

  /** 2j + 1 halves to j with remainder 1. */
  lemma HalveOdd(j: nat)
    ensures (2 * j + 1) / 2 == j && (2 * j + 1) % 2 == 1
  {
    DivModUnique(2 * j + 1, 2, j, 1);
  }

  /** Masking with 2^k - 1 keeps the k low bits, that is, reduces modulo 2^k. */
  lemma {:induction false} MaskIsMod(x: nat, k: nat)
    ensures BitAnd(x, Pow2(k) - 1) == x % Pow2(k)
  {
    if k == 0 {
      DivModUnique(x, 1, x, 0);
    } else {
      MaskIsMod(x / 2, k - 1);
      MaskStep(x, Pow2(k - 1), Pow2(k));
    }
  }

  /** One step of the AND with the all-ones mask d - 1 where d = 2p: the lowest bit of x is kept
      and the rest is the AND of x / 2 with p - 1, so masking x / 2 with p - 1 reduces it
      modulo p exactly when masking x with d - 1 reduces it modulo d. */
  lemma MaskStep(x: nat, p: nat, d: nat)
    requires p >= 1 && d == 2 * p
    requires BitAnd(x / 2, p - 1) == (x / 2) % p
    ensures BitAnd(x, d - 1) == x % d
  {
    if x == 0 {
      DivModUnique(0, d, 0, 0);
      return;
    }
    HalveOdd(p - 1);
    assert BitAnd(x, d - 1) == 2 * BitAnd(x / 2, p - 1) + x % 2;
    ModDouble(x, p, d);
  }

  /** A number ANDed with itself is unchanged. */
  lemma {:induction false} BitAndSelf(a: nat)
    ensures BitAnd(a, a) == a
  {
    if a > 0 {
      BitAndSelf(a / 2);
    }
  }

  /** A power of two shares no bit with its predecessor. */
  lemma {:induction false} PowerOfTwoClearsLowBits(k: nat)
    ensures BitAnd(Pow2(k), Pow2(k) - 1) == 0
  {
    if k > 1 {
      var p := Pow2(k - 1);
      assert Pow2(k) / 2 == p && Pow2(k) % 2 == 0;
      assert (Pow2(k) - 1) / 2 == p - 1;
      PowerOfTwoClearsLowBits(k - 1);
    }
  }

  /** A positive number sharing no bit with its predecessor is a power of two. */
  lemma {:induction false} ClearLowBitsIsPowerOfTwo(n: nat) returns (k: nat)
    requires n > 0 && BitAnd(n, n - 1) == 0
    ensures Pow2(k) == n
  {
    if n == 1 {
      k := 0;
    } else if n % 2 == 1 {
      BitAndSelf(n / 2);
      assert false;
    } else {
      assert (n - 1) / 2 == n / 2 - 1;
      var j := ClearLowBitsIsPowerOfTwo(n / 2);
      k := j + 1;
    }
  }

  /** The classic bit test: for n > 0, `(n & (n - 1)) == 0` holds exactly when n is a power of two. */
  lemma PowerOfTwoBitTest(n: nat)
    requires n > 0
    ensures BitAnd(n, n - 1) == 0 <==> IsPowerOfTwo(n)
  {
    if BitAnd(n, n - 1) == 0 {
      var k := ClearLowBitsIsPowerOfTwo(n);
    }
    if IsPowerOfTwo(n) {
      var k: nat :| Pow2(k) == n;
      PowerOfTwoClearsLowBits(k);
    }
  }
}
