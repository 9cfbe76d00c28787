/** The two read-mostly maps of the strategy engine: the instrument-to-strategies registry
    and the last-write-wins market-data store (their locks belong to concurrency and are left out). */
module SharedMaps {
  import opened EngineTypes
  import opened Wrappers

  /** The strategy list stored for `inst`, or the empty list for an unknown instrument. */
  function RoutesOf(routes: map<InstrumentId, seq<StrategyId>>, inst: InstrumentId): seq<StrategyId>
  {
    if inst in routes then routes[inst] else []
  }

  class InstrumentStrategyRegistry {
    var routes: map<InstrumentId, seq<StrategyId>>

    constructor ()
      ensures routes == map[]
    {
      routes := map[];
    }

    /** `map_[inst].push_back(sid)`: creates the list when absent, keeps duplicates. */
    method Add(inst: InstrumentId, sid: StrategyId)
      modifies this
      ensures routes == old(routes)[inst := RoutesOf(old(routes), inst) + [sid]]
      ensures Lookup(inst) == old(Lookup(inst)) + [sid]
      ensures forall other :: other != inst ==> Lookup(other) == old(Lookup(other))
    {
      routes := routes[inst := RoutesOf(routes, inst) + [sid]];
    }

    /** A copy of the strategies subscribed to `inst`, in subscription order. */
    function Lookup(inst: InstrumentId): (r: seq<StrategyId>)
      reads this
      ensures inst in routes ==> r == routes[inst]
      ensures inst !in routes ==> r == []
    {
      RoutesOf(routes, inst)
    }
  }

  class MarketDataStore {
    var snapshots: map<InstrumentId, MarketData>

    constructor ()
      ensures snapshots == map[]
    {
      snapshots := map[];
    }

    /** `map_[inst] = md`: overwrites whatever was stored for `inst`. */
    method Update(inst: InstrumentId, md: MarketData)
      modifies this
      ensures snapshots == old(snapshots)[inst := md]
      ensures Latest(inst) == Some(md)
      ensures forall other :: other != inst ==> Latest(other) == old(Latest(other))
    {
      snapshots := snapshots[inst := md];
    }

    /** The data point last stored for `inst`, or none if it was never updated. */
    function Latest(inst: InstrumentId): (r: Option<MarketData>)
      reads this
      ensures r.Some? <==> inst in snapshots
      ensures r.Some? ==> r.value == snapshots[inst]
    {
      if inst in snapshots then Some(snapshots[inst]) else None
    }
  }

  /** Routing and snapshot behaviour of the engine's set-up: IBM gets S0 then S1, MSFT gets S2;
      after one IBM update and two successive updates of a third instrument only the last one is kept. */
  method RoutingScenario(d1: MarketData, d2: MarketData)
    returns (ibm: seq<StrategyId>, unknown: seq<StrategyId>, ibmLatest: Option<MarketData>,
             msftLatest: Option<MarketData>, aaplLatest: Option<MarketData>)
    ensures ibm == ["S0", "S1"] && unknown == []
    ensures ibmLatest == Some(d1) && msftLatest == None && aaplLatest == Some(d2)
  {
    var registry := new InstrumentStrategyRegistry();
    registry.Add("IBM", "S0");
    registry.Add("IBM", "S1");
    registry.Add("MSFT", "S2");
    ibm := registry.Lookup("IBM");
    unknown := registry.Lookup("GOOG");
    var store := new MarketDataStore();
    store.Update("IBM", d1);
    store.Update("AAPL", d1);
    store.Update("AAPL", d2);
    ibmLatest := store.Latest("IBM");
    msftLatest := store.Latest("MSFT");
    aaplLatest := store.Latest("AAPL");
  }
}
