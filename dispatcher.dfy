/** The dispatcher of the strategy engine: its inbound queue and one pass of its thread loop,
    which updates the store, looks the instrument up and dispatches once per subscribed strategy. */
module Dispatching {
  import opened EngineTypes
  import opened Wrappers
  import opened Bits
  import opened RingBuffers
  import opened CppInt
  import opened SharedMaps
  import opened StrategyPool

  /** `SpscRingBuffer<MarketDataAction, 1 << 16>`: the inbound queue has 65536 slots. */
  const DISPATCHER_QUEUE_CAPACITY: nat := 65536

  /** The store's map after `update` for every action, in order. */
  function ApplyUpdates(snapshots: map<InstrumentId, MarketData>, actions: seq<MarketDataAction>)
    : map<InstrumentId, MarketData>
    decreases |actions|
  {
    if actions == [] then snapshots
    else
      var last := actions[|actions| - 1];
      ApplyUpdates(snapshots, actions[..|actions| - 1])[last.instrument := last.data]
  }

  /** k copies of a. */
  function Repeat(a: MarketDataAction, k: nat): (r: seq<MarketDataAction>)
    ensures |r| == k && forall i :: 0 <= i < k ==> r[i] == a
  {
    seq(k, _ => a)
  }

  /** The dispatch calls made for a run of actions: each action once per strategy routed to its instrument. */
  function Fanout(routes: map<InstrumentId, seq<StrategyId>>, actions: seq<MarketDataAction>)
    : seq<MarketDataAction>
    decreases |actions|
  {
    if actions == [] then []
    else
      var last := actions[|actions| - 1];
      Fanout(routes, actions[..|actions| - 1]) + Repeat(last, |RoutesOf(routes, last.instrument)|)
  }

  /** Last write wins: the store holds, for an instrument, the data of the last action about it. */
  lemma {:induction false} LastWriteWins(m: map<InstrumentId, MarketData>, actions: seq<MarketDataAction>, j: nat)
    requires j < |actions|
    requires forall k :: j < k < |actions| ==> actions[k].instrument != actions[j].instrument
    ensures actions[j].instrument in ApplyUpdates(m, actions)
    ensures ApplyUpdates(m, actions)[actions[j].instrument] == actions[j].data
  {
    if j < |actions| - 1 {
      LastWriteWins(m, actions[..|actions| - 1], j);
    }
  }

  /** An instrument no action mentions keeps its stored value, or stays absent. */
  lemma {:induction false} UntouchedInstrument(m: map<InstrumentId, MarketData>, actions: seq<MarketDataAction>, inst: InstrumentId)
    requires forall k :: 0 <= k < |actions| ==> actions[k].instrument != inst
    ensures (inst in ApplyUpdates(m, actions)) == (inst in m)
    ensures inst in m ==> ApplyUpdates(m, actions)[inst] == m[inst]
  {
    if actions != [] {
      UntouchedInstrument(m, actions[..|actions| - 1], inst);
    }
  }

  /** Dispatching two runs one after the other is dispatching their concatenation. */
  lemma {:induction false} DispatchAllAppend(p: PoolState, xs: seq<MarketDataAction>, ys: seq<MarketDataAction>)
    requires |p.queues| > 0
    ensures DispatchAll(p, xs + ys) == DispatchAll(DispatchAll(p, xs), ys)
    decreases |ys|
  {
    if ys != [] {
      assert (xs + ys)[..|xs + ys| - 1] == xs + ys[..|ys| - 1];
      DispatchAllAppend(p, xs, ys[..|ys| - 1]);
    } else {
      assert xs + ys == xs;
    }
  }

  /** Processing one more pending action extends both folds by that action. */
  lemma DrainStep(snapshots: map<InstrumentId, MarketData>, routes: map<InstrumentId, seq<StrategyId>>,
                  start: PoolState, pending: seq<MarketDataAction>, n: nat)
    requires n < |pending| && |start.queues| > 0
    ensures ApplyUpdates(snapshots, pending[..n + 1])
         == ApplyUpdates(snapshots, pending[..n])[pending[n].instrument := pending[n].data]
    ensures DispatchAll(start, Fanout(routes, pending[..n + 1]))
         == DispatchAll(DispatchAll(start, Fanout(routes, pending[..n])), Repeat(pending[n], |RoutesOf(routes, pending[n].instrument)|))
  {
    assert pending[..n + 1][..n] == pending[..n];
    DispatchAllAppend(start, Fanout(routes, pending[..n]), Repeat(pending[n], |RoutesOf(routes, pending[n].instrument)|));
  }

  /** The total, over a run of actions, of the number of strategies routed to each action's instrument. */
  function RouteCount(routes: map<InstrumentId, seq<StrategyId>>, actions: seq<MarketDataAction>): nat
    decreases |actions|
  {
    if actions == [] then 0
    else RouteCount(routes, actions[..|actions| - 1]) + |RoutesOf(routes, actions[|actions| - 1].instrument)|
  }

  /** The number of dispatch calls is the total number of routes over the processed actions. */
  lemma {:induction false} FanoutTotal(routes: map<InstrumentId, seq<StrategyId>>, actions: seq<MarketDataAction>)
    ensures |Fanout(routes, actions)| == RouteCount(routes, actions)
  {
    if actions != [] {
      FanoutTotal(routes, actions[..|actions| - 1]);
    }
  }

  /** For a run of actions about one instrument, the dispatch count is the run length times its routes. */
  lemma {:induction false} FanoutLength(routes: map<InstrumentId, seq<StrategyId>>, actions: seq<MarketDataAction>, inst: InstrumentId)
    requires forall k :: 0 <= k < |actions| ==> actions[k].instrument == inst
    ensures |Fanout(routes, actions)| == |actions| * |RoutesOf(routes, inst)|
  {
    if actions != [] {
      FanoutLength(routes, actions[..|actions| - 1], inst);
      assert |actions| * |RoutesOf(routes, inst)| == (|actions| - 1) * |RoutesOf(routes, inst)| + |RoutesOf(routes, inst)|;
    }
  }

  class Dispatcher {
    const registry: InstrumentStrategyRegistry
    const store: MarketDataStore
    const pool: ThreadPoolOfStrategies
    const queue: SpscRingBuffer<MarketDataAction>

    ghost predicate Valid()
      reads this, queue, queue.buffer, pool, pool.Repr
    {
      queue.Valid() && queue.capacity == DISPATCHER_QUEUE_CAPACITY && pool.Valid() &&
      queue !in pool.Repr && queue.buffer !in pool.Repr &&
      store !in pool.Repr && registry !in pool.Repr
    }

    constructor (registry: InstrumentStrategyRegistry, store: MarketDataStore, pool: ThreadPoolOfStrategies)
      requires pool.Valid() && store !in pool.Repr && registry !in pool.Repr
      ensures Valid() && fresh(queue) && fresh(queue.buffer) && queue.Contents == []
      ensures this.registry == registry && this.store == store && this.pool == pool
    {
      assert Pow2(16) == DISPATCHER_QUEUE_CAPACITY by {
        assert Pow2(8) == 256;
      }
      this.registry := registry;
      this.store := store;
      this.pool := pool;
      queue := new SpscRingBuffer<MarketDataAction>(DISPATCHER_QUEUE_CAPACITY);
    }

    /** The producer-facing entry point: push onto the inbound queue; false reports a drop. */
    method Accept(a: MarketDataAction) returns (ok: bool)
      requires Valid()
      modifies queue, queue.buffer
      ensures Valid()
      ensures ok <==> |old(queue.Contents)| < DISPATCHER_QUEUE_CAPACITY - 1
      ensures queue.Contents == if ok then old(queue.Contents) + [a] else old(queue.Contents)
    {
      ok := queue.Push(a);
    }

    /** The inner loop of a pass: dispatch `a` once per strategy routed to its instrument
        (the pool picks the worker; the strategy id itself is not used). */
    method DispatchToSubscribers(a: MarketDataAction)
      requires Valid()
      modifies pool, pool.Repr
      ensures Valid()
      ensures pool.State() == DispatchAll(old(pool.State()), Repeat(a, |registry.Lookup(a.instrument)|))
    {
      var sids := registry.Lookup(a.instrument);
      for k := 0 to |sids|
        invariant Valid()
        invariant pool.State() == DispatchAll(old(pool.State()), Repeat(a, k))
      {
        var _ := pool.Dispatch(a);
        assert Repeat(a, k + 1)[..k] == Repeat(a, k);
      }
    }

    /** One iteration of the dispatcher loop: pop the oldest queued action, if any, update the
        store with it, then dispatch it; false when the queue was empty and nothing changed. */
    method Step() returns (ok: bool)
      requires Valid()
      modifies queue, store, pool, pool.Repr
      ensures Valid()
      ensures ok <==> old(queue.Contents) != []
      ensures !ok ==> queue.Contents == old(queue.Contents) && store.snapshots == old(store.snapshots)
                      && pool.State() == old(pool.State())
      ensures ok ==> queue.Contents == old(queue.Contents)[1..]
      ensures ok ==> var a := old(queue.Contents)[0];
                     store.snapshots == old(store.snapshots)[a.instrument := a.data] &&
                     pool.State() == DispatchAll(old(pool.State()), Repeat(a, |RoutesOf(registry.routes, a.instrument)|))
    {
      var a;
      ok, a := queue.Pop(MarketDataAction("", MarketData(0.0, 0.0, 0)));
      if ok {
        store.Update(a.instrument, a.data);
        DispatchToSubscribers(a);
      }
    }

    /** One pass of the dispatcher thread's loop: for every queued action, oldest first, update
        the store, then dispatch the action once per strategy the registry routes its instrument to. */
    method DrainOnce()
      requires Valid()
      modifies queue, store, pool, pool.Repr
      ensures Valid() && queue.Contents == []
      ensures store.snapshots == ApplyUpdates(old(store.snapshots), old(queue.Contents))
      ensures pool.State() == DispatchAll(old(pool.State()), Fanout(registry.routes, old(queue.Contents)))
    {
      ghost var pending := queue.Contents;
      ghost var n := 0;
      ghost var start := pool.State();
      while true
        invariant Valid()
        invariant n <= |pending| && queue.Contents == pending[n..]
        invariant store.snapshots == ApplyUpdates(old(store.snapshots), pending[..n])
        invariant pool.State() == DispatchAll(start, Fanout(registry.routes, pending[..n]))
        decreases |pending| - n
      {
        var ok := Step();
        if !ok {
          break;
        }
        DrainStep(old(store.snapshots), registry.routes, start, pending, n);
        n := n + 1;
      }
      assert pending[..n] == pending;
    }
  }

  /** An action whose instrument has two routes, drained into an empty three-worker pool,
      lands on workers 0 and 1. */
  lemma TwoDispatchesFromEmpty(routes: map<InstrumentId, seq<StrategyId>>, a: MarketDataAction)
    requires |RoutesOf(routes, a.instrument)| == 2
    ensures DispatchAll(PoolState(0, [[], [], []]), Fanout(routes, [a])) == PoolState(2, [[a], [a], []])
  {
    assert [a][..0] == [];
    assert Fanout(routes, [a]) == [a, a];
    var p0 := PoolState(0, [[], [], []]);
    assert Accepts(p0) && (0 + 1) % SIZE_T_MOD == 1;
    var e: seq<MarketDataAction> := [];
    assert p0.queues[0 := e + [a]] == [[a], e, e] by {
      var x := p0.queues[0 := e + [a]];
      assert |x| == 3 && x[0] == [a] && x[1] == e && x[2] == e;
    }
    var p1 := PoolDispatch(p0, a);
    assert p1 == PoolState(1, [[a], [], []]);
    assert Accepts(p1) && (1 + 1) % SIZE_T_MOD == 2 && 1 % 3 == 1;
    assert p1.queues[1 := e + [a]] == [[a], [a], e] by {
      var x := p1.queues[1 := e + [a]];
      assert |x| == 3 && x[0] == [a] && x[1] == [a] && x[2] == e;
    }
    assert [a, a][..1] == [a];
    assert DispatchAll(p0, [a]) == p1;
  }

  /** The wiring of `main`: IBM routed to S0 and S1, MSFT to S2, an empty store, three workers
      and a dispatcher over them with an empty inbound queue. */
  method NewEngine() returns (d: Dispatcher)
    ensures fresh(d) && d.Valid()
    ensures fresh(d.registry) && fresh(d.store) && fresh(d.pool) && fresh(d.pool.Repr)
    ensures fresh(d.queue) && fresh(d.queue.buffer)
    ensures d.registry.routes == map["IBM" := ["S0", "S1"], "MSFT" := ["S2"]]
    ensures d.store.snapshots == map[]
    ensures d.pool.State() == PoolState(0, [[], [], []])
    ensures d.queue.Contents == []
  {
    var registry := new InstrumentStrategyRegistry();
    registry.Add("IBM", "S0");
    assert RoutesOf(map[], "IBM") + ["S0"] == ["S0"];
    assert registry.routes == map["IBM" := ["S0"]];
    registry.Add("IBM", "S1");
    assert ["S0"] + ["S1"] == ["S0", "S1"];
    assert registry.routes == map["IBM" := ["S0", "S1"]];
    assert RoutesOf(registry.routes, "MSFT") + ["S2"] == ["S2"];
    registry.Add("MSFT", "S2");
    var store := new MarketDataStore();
    var pool := new ThreadPoolOfStrategies(3);
    assert pool.Queues == [[], [], []];
    d := new Dispatcher(registry, store, pool);
  }

  /** One IBM data point accepted by the wired engine and drained becomes IBM's snapshot and is
      dispatched twice, to workers 0 and 1; MSFT stays without a snapshot. */
  method IbmScenario(md: MarketData)
    returns (accepted: bool, ibm: Option<MarketData>, msft: Option<MarketData>, sizes: seq<nat>)
    ensures accepted && ibm == Some(md) && msft == None && sizes == [1, 1, 0]
  {
    var d := NewEngine();
    var action := MarketDataAction("IBM", md);
    assert |RoutesOf(d.registry.routes, action.instrument)| == 2;
    accepted := d.Accept(action);
    d.DrainOnce();
    TwoDispatchesFromEmpty(d.registry.routes, action);
    ibm := d.store.Latest("IBM");
    msft := d.store.Latest("MSFT");
    var w := d.pool.workers;
    sizes := [w[0].queue.Size(), w[1].queue.Size(), w[2].queue.Size()];
  }
}
