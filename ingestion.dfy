/** The mock feed's pseudo-random generator: a 32-bit linear congruential seed update and
    the price it is mapped to. */
module Ingestion {
  import opened Bits

  /** `uint32_t` arithmetic wraps modulo 2^32. */
  const UINT32_MOD: nat := 0x1_0000_0000
  type uint32 = x: int | 0 <= x < 0x1_0000_0000

  /** The multiplier and increment of the seed update. */
  const MULTIPLIER: nat := 1664525
  const INCREMENT: nat := 1013904223
  /** The seed a thread starts from. */
  const INITIAL_SEED: uint32 := 1234567
  /** 1664525 is odd, so it is invertible modulo 2^32; this is its inverse:
      1664525 * 4276115653 == 1657219 * 2^32 + 1. */
  const MULTIPLIER_INVERSE: nat := 4276115653

  /** `s = s * 1664525u + 1013904223u` on `uint32_t`. */
  function NextSeed(s: uint32): uint32
  {
    (s * MULTIPLIER + INCREMENT) % UINT32_MOD
  }

  /** The seed that `NextSeed` maps to t: undo the increment, then the multiplier. */
  function PrevSeed(t: uint32): (s: uint32)
    ensures NextSeed(s) == t
  {
    var w := (t + (UINT32_MOD - INCREMENT)) % UINT32_MOD;
    var s := (w * MULTIPLIER_INVERSE) % UINT32_MOD;
    AffineUndo(t, w, s, MULTIPLIER, INCREMENT, MULTIPLIER_INVERSE, 1657219, UINT32_MOD);
    s
  }

  /** The predecessor of a successor is the seed itself. */
  lemma PrevNext(s: uint32)
    ensures PrevSeed(NextSeed(s)) == s
  {
    AffineRedo(s, MULTIPLIER, INCREMENT, MULTIPLIER_INVERSE, 1657219, UINT32_MOD);
  }

  // ----- Modular arithmetic behind the two directions, for any modulus m -----

  /** Undoing the increment b and then a multiplier a with inverse inv lands on a predecessor of t. */
  lemma AffineUndo(t: nat, w: nat, s: nat, a: nat, b: nat, inv: nat, k: nat, m: nat)
    requires 0 < m && b < m && t < m && a * inv == k * m + 1
    requires w == (t + (m - b)) % m && s == (w * inv) % m
    ensures (s * a + b) % m == t
  {
    InverseCancels(w, a, inv, k, m);
    ModAdd(s * a, b, m);
    ModAdd(t + (m - b), b, m);
    assert t + (m - b) + b == t + m;
    AddModulus(t, m);
  }

  /** Applying the step and then undoing it gives back any s below m. */
  lemma AffineRedo(s: nat, a: nat, b: nat, inv: nat, k: nat, m: nat)
    requires 0 < m && b < m && s < m && a * inv == k * m + 1
    ensures ((((s * a + b) % m + (m - b)) % m) * inv) % m == s
  {
    var x := s * a;
    var q, r := x / m, x % m;
    ModAdd(x, b, m);
    ModAdd(r + b, m - b, m);
    assert r + b + (m - b) == r + m;
    AddModulus(r, m);
    MultiplyThrough(s, a, inv, k, m, q, r);
    DivModUniqueInt(r * inv, m, s * k - q * inv, s);
  }

  /** Multiplying by the inverse and then by the multiplier gives back w modulo m. */
  lemma InverseCancels(w: nat, a: nat, inv: nat, k: nat, m: nat)
    requires 0 < m && w < m && a * inv == k * m + 1
    ensures ((w * inv) % m * a) % m == w
  {
    var u := w * inv;
    var q, r := u / m, u % m;
    MultiplyThrough(w, inv, a, k, m, q, r);
    DivModUniqueInt(r * a, m, w * k - q * a, w);
  }

  /** If x * y leaves r modulo m and y * z is 1 modulo m, then r * z is x plus a multiple of m. */
  lemma MultiplyThrough(x: nat, y: nat, z: nat, k: nat, m: nat, q: nat, r: nat)
    requires y * z == k * m + 1 && x * y == q * m + r
    ensures r * z == x + (x * k - q * z) * m
  {
    assert r * z == x * y * z - q * m * z;
    assert x * y * z == x * (y * z);
    assert x * (y * z) == x * k * m + x;
    assert (x * k - q * z) * m == x * k * m - q * z * m;
  }

  /** Adding c commutes with reduction modulo m. */
  lemma ModAdd(x: nat, c: nat, m: nat)
    requires 0 < m
    ensures (x + c) % m == (x % m + c) % m
  {
    ModAddStep(x, c, m, x / m, x % m, (x % m + c) / m, (x % m + c) % m);
  }

  lemma ModAddStep(x: nat, c: nat, m: nat, q: nat, r: nat, q2: nat, r2: nat)
    requires r2 < m && x == q * m + r && r + c == q2 * m + r2
    ensures (x + c) % m == r2
  {
    assert x + c == (q + q2) * m + r2;
    DivModUnique(x + c, m, q + q2, r2);
  }

  lemma AddModulus(t: nat, m: nat)
    requires t < m
    ensures (t + m) % m == t
  {
    DivModUnique(t + m, m, 1, t);
  }

  /** `DivModUnique` for a signed dividend and quotient. */
  lemma DivModUniqueInt(x: int, d: nat, q: int, r: nat)
    requires r < d && x == q * d + r
    ensures x / d == q && x % d == r
  {
    var q', r' := x / d, x % d;
    assert x == q' * d + r';
    assert (q - q') * d == r' - r;
    if q' < q {
      MulMono(1, q - q', d);
    } else if q' > q {
      MulMono(1, q' - q, d);
    }
  }

  /** The seed update is a bijection on 32-bit values: no two seeds share a successor, so
      the sequence of seeds runs through a single cycle instead of merging into a shorter one. */
  lemma NextSeedInjective(s1: uint32, s2: uint32)
    ensures NextSeed(s1) == NextSeed(s2) <==> s1 == s2
  {
    PrevNext(s1);
    PrevNext(s2);
  }

  /** `100.0 + (s % 1000) / 10.0`, taken over exact reals: a price in tenths between 100 and 199.9. */
  function PriceOf(s: uint32): (price: real)
    ensures 100.0 <= price <= 199.9
  {
    var tenths := s % 1000;
    100.0 + (tenths as real) / 10.0
  }

  /** The `static thread_local` seed of `random_price`, made into an object. */
  class PriceFeed {
    var seed: uint32

    constructor ()
      ensures seed == INITIAL_SEED
    {
      seed := INITIAL_SEED;
    }

    /** `random_price()`: advance the seed once, then map the new seed to a price. */
    method RandomPrice() returns (price: real)
      modifies this
      ensures seed == NextSeed(old(seed))
      ensures price == PriceOf(seed) && 100.0 <= price <= 199.9
    {
      seed := (seed * MULTIPLIER + INCREMENT) % UINT32_MOD;
      price := PriceOf(seed);
    }
  }

  /** A fresh feed's first two seeds are 2987172410 and 660622417, hence prices 141.0 and 141.7. */
  method FirstPricesScenario() returns (p1: real, p2: real, seed: uint32)
    ensures seed == 660622417 && p1 == 141.0 && p2 == 141.7
  {
    var feed := new PriceFeed();
    p1 := feed.RandomPrice();
    assert feed.seed == 2987172410 by {
      assert 1234567 * MULTIPLIER + INCREMENT == 2055981539898;
      DivModUnique(2055981539898, UINT32_MOD, 478, 2987172410);
    }
    p2 := feed.RandomPrice();
    assert feed.seed == 660622417 by {
      assert 2987172410 * MULTIPLIER + INCREMENT == 4972224169659473;
      DivModUnique(4972224169659473, UINT32_MOD, 1157686, 660622417);
    }
    seed := feed.seed;
  }
}
