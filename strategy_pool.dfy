/** Strategy workers and the round-robin pool of the strategy engine. Each worker's thread
    loop becomes one sequential drain step; the pool's atomic counter becomes a plain field. */
module StrategyPool {
  import opened EngineTypes
  import opened Wrappers
  import opened Bits
  import opened RingBuffers
  import opened CppInt

  /** `SpscRingBuffer<MarketDataAction, 1 << 12>`: each worker queue has 4096 slots. */
  const WORKER_QUEUE_CAPACITY: nat := 4096

  /** The data points of a run of actions, in order. */
  function DataOf(actions: seq<MarketDataAction>): (r: seq<MarketData>)
    ensures |r| == |actions| && forall i :: 0 <= i < |actions| ==> r[i] == actions[i].data
  {
    seq(|actions|, i requires 0 <= i < |actions| => actions[i].data)
  }

  lemma DataOfSnoc(actions: seq<MarketDataAction>, n: nat)
    requires n < |actions|
    ensures DataOf(actions[..n + 1]) == DataOf(actions[..n]) + [actions[n].data]
  {
  }

  /** `std::to_string` on a non-negative integer. */
  function DecimalString(n: nat): (s: string)
    ensures |s| >= 1 && forall i :: 0 <= i < |s| ==> '0' <= s[i] <= '9'
  {
    if n < 10 then ["0123456789"[n]] else DecimalString(n / 10) + ["0123456789"[n % 10]]
  }

  // ----- The pool as a value: the counter and the contents of every worker queue -----

  datatype PoolState = PoolState(next: nat, queues: seq<seq<MarketDataAction>>)

  /** Whether the worker the counter points at has room for one more action. */
  predicate Accepts(p: PoolState)
    requires |p.queues| > 0
  {
    |p.queues[p.next % |p.queues|]| < WORKER_QUEUE_CAPACITY - 1
  }

  /** One `dispatch`: worker `next % n` gets the action unless its queue is full, and the
      counter moves on by one (a `std::size_t`, so it wraps at 2^64) either way. */
  function PoolDispatch(p: PoolState, a: MarketDataAction): (r: PoolState)
    requires |p.queues| > 0
    ensures |r.queues| == |p.queues|
  {
    var i := p.next % |p.queues|;
    PoolState((p.next + 1) % SIZE_T_MOD,
              if Accepts(p) then p.queues[i := p.queues[i] + [a]] else p.queues)
  }

  /** A run of dispatches, in order. */
  function DispatchAll(p: PoolState, msgs: seq<MarketDataAction>): (r: PoolState)
    requires |p.queues| > 0
    ensures |r.queues| == |p.queues|
    decreases |msgs|
  {
    if msgs == [] then p else PoolDispatch(DispatchAll(p, msgs[..|msgs| - 1]), msgs[|msgs| - 1])
  }

  /** How many of the counter values c, c+1, ..., c+m-1 select worker w of n. */
  function Hits(c: nat, m: nat, n: nat, w: nat): (h: nat)
    requires n > 0
    ensures h <= m
  {
    if m == 0 then 0 else Hits(c, m - 1, n, w) + (if (c + m - 1) % n == w then 1 else 0)
  }

  lemma {:induction false} HitsSplit(c: nat, a: nat, b: nat, n: nat, w: nat)
    requires n > 0
    ensures Hits(c, a + b, n, w) == Hits(c, a, n, w) + Hits(c + a, b, n, w)
  {
    if b > 0 {
      HitsSplit(c, a, b - 1, n, w);
    }
  }

  lemma ModShift(c: nat, n: nat)
    requires n > 0
    ensures (c + n) % n == c % n
  {
    DivModUnique(c + n, n, c / n + 1, c % n);
  }

  /** A window of n consecutive counter values selects every worker the same number of times. */
  lemma HitsWindowShift(c: nat, n: nat, w: nat)
    requires n > 0
    ensures Hits(c + 1, n, n, w) == Hits(c, n, n, w)
  {
    HitsSplit(c, 1, n, n, w);
    ModShift(c, n);
  }

  lemma {:induction false} HitsFromZero(m: nat, n: nat, w: nat)
    requires 0 < n && m <= n
    ensures Hits(0, m, n, w) == if w < m then 1 else 0
  {
    if m > 0 {
      HitsFromZero(m - 1, n, w);
      DivModUnique(m - 1, n, 0, m - 1);
    }
  }

  /** Any n consecutive dispatches reach each of the n workers exactly once. */
  lemma {:induction false} WindowHitsEachOnce(c: nat, n: nat, w: nat)
    requires 0 <= w < n
    ensures Hits(c, n, n, w) == 1
  {
    if c == 0 {
      HitsFromZero(n, n, w);
    } else {
      WindowHitsEachOnce(c - 1, n, w);
      HitsWindowShift(c - 1, n, w);
    }
  }

  lemma MulPred(k: nat, n: nat)
    requires k > 0
    ensures k * n == (k - 1) * n + n
  {
  }

  /** k full rounds reach each worker exactly k times. */
  lemma {:induction false} RoundsHitEach(c: nat, k: nat, n: nat, w: nat)
    requires 0 <= w < n
    ensures Hits(c, k * n, n, w) == k
  {
    if k > 0 {
      var m := (k - 1) * n;
      MulPred(k, n);
      HitsSplit(c, m, n, n, w);
      RoundsHitEach(c, k - 1, n, w);
      WindowHitsEachOnce(c + m, n, w);
    }
  }

  /** Without counter wrap-around, and with room in every worker's queue for that worker's own
      share of the run (so that no dispatch is dropped), every worker's queue grows by the number
      of counter values in the run that select it, and the counter advances by the run length. */
  lemma {:induction false} DispatchAllShares(p: PoolState, msgs: seq<MarketDataAction>)
    requires |p.queues| > 0
    requires p.next + |msgs| < SIZE_T_MOD
    requires forall w :: 0 <= w < |p.queues| ==>
      |p.queues[w]| + Hits(p.next, |msgs|, |p.queues|, w) <= WORKER_QUEUE_CAPACITY - 1
    ensures DispatchAll(p, msgs).next == p.next + |msgs|
    ensures forall w :: 0 <= w < |p.queues| ==>
      |DispatchAll(p, msgs).queues[w]| == |p.queues[w]| + Hits(p.next, |msgs|, |p.queues|, w)
  {
    if msgs != [] {
      var m := |msgs|;
      var n := |p.queues|;
      forall w | 0 <= w < n
        ensures |p.queues[w]| + Hits(p.next, m - 1, n, w) <= WORKER_QUEUE_CAPACITY - 1
      {
        assert Hits(p.next, m, n, w) >= Hits(p.next, m - 1, n, w);
      }
      DispatchAllShares(p, msgs[..m - 1]);
      var s := DispatchAll(p, msgs[..m - 1]);
      assert s.next == p.next + m - 1;
      var i := s.next % n;
      assert Hits(p.next, m, n, i) == Hits(p.next, m - 1, n, i) + 1;
      assert Accepts(s);
      PoolDispatchShares(s, msgs[m - 1]);
    }
  }

  /** One dispatch without wrap-around and without a drop: the counter advances by one and
      exactly the selected worker's queue grows by one. */
  lemma PoolDispatchShares(s: PoolState, a: MarketDataAction)
    requires |s.queues| > 0 && s.next + 1 < SIZE_T_MOD && Accepts(s)
    ensures PoolDispatch(s, a).next == s.next + 1
    ensures forall w :: 0 <= w < |s.queues| ==>
      |PoolDispatch(s, a).queues[w]| == |s.queues[w]| + (if s.next % |s.queues| == w then 1 else 0)
  {
    DivModUnique(s.next + 1, SIZE_T_MOD, 0, s.next + 1);
  }

  /** Round-robin fairness: k * n dispatches through an n-worker pool, with room for k more
      actions in every queue (so nothing is dropped) and no counter wrap-around, deliver exactly
      k actions to every worker. */
  lemma RoundRobinFairness(p: PoolState, msgs: seq<MarketDataAction>, k: nat)
    requires |p.queues| > 0 && |msgs| == k * |p.queues|
    requires p.next + |msgs| < SIZE_T_MOD
    requires forall w :: 0 <= w < |p.queues| ==> |p.queues[w]| + k <= WORKER_QUEUE_CAPACITY - 1
    ensures forall w :: 0 <= w < |p.queues| ==> |DispatchAll(p, msgs).queues[w]| == |p.queues[w]| + k
  {
    forall w | 0 <= w < |p.queues|
      ensures Hits(p.next, |msgs|, |p.queues|, w) == k
    {
      RoundsHitEach(p.next, k, |p.queues|, w);
    }
    DispatchAllShares(p, msgs);
  }

  // ----- The objects -----

  class StrategyWorker {
    const queue: SpscRingBuffer<MarketDataAction>
    var strategy: Option<StrategyId>

    ghost predicate Valid()
      reads this, queue, queue.buffer
    {
      queue.Valid() && queue.capacity == WORKER_QUEUE_CAPACITY
    }

    constructor ()
      ensures Valid() && fresh(queue) && fresh(queue.buffer)
      ensures queue.Contents == [] && strategy == None
    {
      assert Pow2(12) == WORKER_QUEUE_CAPACITY;
      queue := new SpscRingBuffer<MarketDataAction>(WORKER_QUEUE_CAPACITY);
      strategy := None;
    }

    method AttachStrategy(s: StrategyId)
      modifies this
      ensures strategy == Some(s)
    {
      strategy := Some(s);
    }

    /** Forwards to the queue's `push`; false reports a drop. */
    method Enqueue(a: MarketDataAction) returns (ok: bool)
      requires Valid()
      modifies queue, queue.buffer
      ensures Valid()
      ensures ok <==> |old(queue.Contents)| < WORKER_QUEUE_CAPACITY - 1
      ensures queue.Contents == if ok then old(queue.Contents) + [a] else old(queue.Contents)
    {
      ok := queue.Push(a);
    }

    /** One pass of the worker thread's loop: pop until empty, handing each data point, in
        arrival order, to the attached strategy (or discarding it when none is attached).
        The result is the sequence of `on_market_data` calls. */
    method Drain() returns (delivered: seq<MarketData>)
      requires Valid()
      modifies queue
      ensures Valid() && queue.Contents == []
      ensures delivered == if strategy.Some? then DataOf(old(queue.Contents)) else []
    {
      delivered := [];
      ghost var pending := queue.Contents;
      ghost var n := 0;
      var a := MarketDataAction("", MarketData(0.0, 0.0, 0));
      while true
        invariant Valid()
        invariant n <= |pending| && queue.Contents == pending[n..]
        invariant delivered == if strategy.Some? then DataOf(pending[..n]) else []
        decreases |pending| - n
      {
        var ok;
        ok, a := queue.Pop(a);
        if !ok {
          break;
        }
        assert a == pending[n];
        DataOfSnoc(pending, n);
        if strategy.Some? {
          delivered := delivered + [a.data];
        }
        n := n + 1;
      }
      assert pending[..n] == pending;
    }
  }

  /** A fresh worker with an empty queue running strategy `sid`. */
  method NewWorker(sid: StrategyId) returns (w: StrategyWorker)
    ensures fresh(w) && fresh(w.queue) && fresh(w.queue.buffer)
    ensures w.Valid() && w.queue.Contents == [] && w.strategy == Some(sid)
  {
    w := new StrategyWorker();
    w.AttachStrategy(sid);
  }

  /** The pool's workers: n fresh workers with empty queues, worker i running strategy "S<i>".
      `repr` collects the workers, their queues and the queues' buffers. */
  method NewWorkers(n: nat) returns (ws: seq<StrategyWorker>, ghost repr: set<object>)
    ensures |ws| == n && fresh(repr)
    ensures forall k :: 0 <= k < n ==>
      ws[k] in repr && ws[k].queue in repr && ws[k].queue.buffer in repr &&
      ws[k].Valid() && ws[k].queue.Contents == [] && ws[k].strategy == Some("S" + DecimalString(k))
    ensures forall k, l :: 0 <= k < n && 0 <= l < n && k != l ==>
      ws[k] != ws[l] && ws[k].queue != ws[l].queue && ws[k].queue.buffer != ws[l].queue.buffer
  {
    ws, repr := [], {};
    var i := 0;
    while i < n
      invariant 0 <= i <= n && |ws| == i && fresh(repr)
      invariant forall k :: 0 <= k < i ==>
        ws[k] in repr && ws[k].queue in repr && ws[k].queue.buffer in repr &&
        ws[k].Valid() && ws[k].queue.Contents == [] && ws[k].strategy == Some("S" + DecimalString(k))
      invariant forall k, l :: 0 <= k < i && 0 <= l < i && k != l ==>
        ws[k] != ws[l] && ws[k].queue != ws[l].queue && ws[k].queue.buffer != ws[l].queue.buffer
    {
      var w := NewWorker("S" + DecimalString(i));
      assert w !in repr && w.queue !in repr && w.queue.buffer !in repr;
      ws := ws + [w];
      repr := repr + {w, w.queue, w.queue.buffer};
      i := i + 1;
    }
  }

  class ThreadPoolOfStrategies {
    const workers: seq<StrategyWorker>
    var next: nat
    /** The contents of every worker queue, in worker order. */
    ghost var Queues: seq<seq<MarketDataAction>>
    ghost const Repr: set<object>

    ghost predicate Valid()
      reads this, Repr
    {
      |workers| > 0 && |Queues| == |workers| && next < SIZE_T_MOD &&
      (forall i :: 0 <= i < |workers| ==>
         workers[i] in Repr && workers[i].queue in Repr && workers[i].queue.buffer in Repr) &&
      (forall i, j :: 0 <= i < |workers| && 0 <= j < |workers| && i != j ==>
         workers[i] != workers[j] && workers[i].queue != workers[j].queue &&
         workers[i].queue.buffer != workers[j].queue.buffer) &&
      (forall i :: 0 <= i < |workers| ==> workers[i].Valid() && Queues[i] == workers[i].queue.Contents)
    }

    /** The pool as a value. */
    ghost function State(): (p: PoolState)
      reads this
    {
      PoolState(next, Queues)
    }

    /** n workers, worker i running strategy "S<i>", all queues empty, counter at 0. */
    constructor (n: nat)
      requires 0 < n < SIZE_T_MOD
      ensures Valid() && fresh(Repr)
      ensures |workers| == n && next == 0
      ensures forall i :: 0 <= i < n ==> workers[i].strategy == Some("S" + DecimalString(i)) && Queues[i] == []
    {
      var ws, r := NewWorkers(n);
      workers := ws;
      Repr := r;
      next := 0;
      Queues := seq(n, _ => []);
    }

    /** Round-robin `dispatch`: enqueue on worker `next % n`, bump the counter, report the push. */
    method Dispatch(a: MarketDataAction) returns (ok: bool)
      requires Valid()
      modifies this, Repr
      ensures Valid()
      ensures ok == Accepts(old(State()))
      ensures State() == PoolDispatch(old(State()), a)
      ensures forall i :: 0 <= i < |workers| ==> workers[i].strategy == old(workers[i].strategy)
    {
      var idx := next % |workers|;
      ok := workers[idx].Enqueue(a);
      next := (next + 1) % SIZE_T_MOD;
      Queues := Queues[idx := workers[idx].queue.Contents];
    }

    /** One drain pass of worker i's thread. */
    method RunWorker(i: nat) returns (delivered: seq<MarketData>)
      requires Valid() && i < |workers|
      modifies this, Repr
      ensures Valid() && next == old(next) && Queues == old(Queues)[i := []]
      ensures delivered == if workers[i].strategy.Some? then DataOf(old(Queues[i])) else []
      ensures forall j :: 0 <= j < |workers| ==> workers[j].strategy == old(workers[j].strategy)
    {
      delivered := workers[i].Drain();
      Queues := Queues[i := []];
    }
  }

  /** Three workers and nine dispatches into empty queues: each worker receives three actions. */
  method NineDispatchesScenario(a: MarketDataAction) returns (sizes: seq<nat>)
    ensures sizes == [3, 3, 3]
  {
    var pool := new ThreadPoolOfStrategies(3);
    ghost var start := pool.State();
    ghost var sent: seq<MarketDataAction> := [];
    var j := 0;
    while j < 9
      invariant 0 <= j <= 9 && pool.Valid() && |sent| == j
      invariant pool.State() == DispatchAll(start, sent)
      decreases 9 - j
    {
      var _ := pool.Dispatch(a);
      sent := sent + [a];
      assert sent[..|sent| - 1] == sent[..j];
      j := j + 1;
    }
    RoundRobinFairness(start, sent, 3);
    sizes := [pool.workers[0].queue.Size(), pool.workers[1].queue.Size(), pool.workers[2].queue.Size()];
  }
}
