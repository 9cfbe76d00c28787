/** `RollingMean<T>`: the mean of the last `window` values pushed, kept with a bounded queue
    and a running sum. The values are exact reals (the program instantiates it with `float`). */
module Rolling {
  import opened Wrappers
  import opened CppInt

  /** The window as a `std::size_t`, as the queue's size is compared with it: a negative
      `int` wraps around to a huge bound. */
  function Limit(window: int32): (n: nat)
    ensures window > 0 ==> n == window as int
    ensures window < 0 ==> n == window as int + SIZE_T_MOD
  {
    (window as int) % SIZE_T_MOD
  }

  function Sum(s: seq<real>): real
  {
    if s == [] then 0.0 else Sum(s[..|s| - 1]) + s[|s| - 1]
  }

  /** Adding at the back adds to the sum. */
  lemma SumSnoc(s: seq<real>, v: real)
    ensures Sum(s + [v]) == Sum(s) + v
  {
    assert (s + [v])[..|s|] == s;
  }

  /** Removing the front subtracts from the sum. */
  lemma {:induction false} SumFront(s: seq<real>)
    requires s != []
    ensures Sum(s) == s[0] + Sum(s[1..])
  {
    if |s| > 1 {
      SumFront(s[..|s| - 1]);
      assert s[..|s| - 1][1..] == s[1..][..|s| - 2];
    } else {
      assert s[1..] == [];
    }
  }

  /** The last n values of s, or all of them when there are fewer. */
  function LastN(s: seq<real>, n: nat): (r: seq<real>)
    ensures |r| == if |s| < n then |s| else n
  {
    if |s| <= n then s else s[|s| - n..]
  }

  class RollingMean {
    const window: int32
    /** `rolling_data`: the values in the window, oldest first. */
    var data: seq<real>
    /** `rolling_sum`. */
    var sum: real
    /** Every value pushed so far, oldest first. */
    ghost var Pushed: seq<real>

    /** The window holds the last min(k, window) of the k values pushed, and the running sum
        is their sum. */
    ghost predicate Valid()
      reads this
    {
      window != 0 && data == LastN(Pushed, Limit(window)) && sum == Sum(data)
    }

    /** A window of 0 would make the mean a division by zero. */
    constructor (window: int32)
      requires window != 0
      ensures Valid() && this.window == window && Pushed == [] && data == [] && sum == 0.0
    {
      this.window := window;
      data, sum := [], 0.0;
      Pushed := [];
    }

    /** `push`: append the value, drop the oldest one if the window overflowed, and report the
        mean (the sum divided by the window) exactly when the window is full. */
    method Push(v: real) returns (mean: Option<real>)
      requires Valid()
      modifies this
      ensures Valid() && Pushed == old(Pushed) + [v]
      ensures data == LastN(Pushed, Limit(window))
      ensures mean.Some? <==> |Pushed| >= Limit(window)
      ensures mean.Some? ==> mean.value == Sum(data) / (window as real)
    {
      SumSnoc(data, v);
      data := data + [v];
      sum := sum + v;
      Pushed := Pushed + [v];
      if |data| > Limit(window) {
        SumFront(data);
        sum := sum - data[0];
        data := data[1..];
      }
      if |data| == Limit(window) {
        mean := Some(sum / (window as real));
      } else {
        mean := None;
      }
    }
  }

  /** With a window of 2, pushing 1, 2, 4 gives no mean, then 1.5, then 3. */
  method WindowTwoScenario() returns (m1: Option<real>, m2: Option<real>, m3: Option<real>)
    ensures m1 == None && m2 == Some(1.5) && m3 == Some(3.0)
  {
    var rm := new RollingMean(2);
    m1 := rm.Push(1.0);
    m2 := rm.Push(2.0);
    m3 := rm.Push(4.0);
  }
}
