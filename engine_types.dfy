/** The value types that travel through the strategy engine. */
module EngineTypes {

  type InstrumentId = string

  type StrategyId = string

  /** A market-data point. Price and size are doubles and the timestamp a monotonic clock
      reading in the engine; the pipeline only copies them, so exact numbers stand in. */
  datatype MarketData = MarketData(price: real, size: real, ts: nat)

  /** The unit moved through every queue: an instrument and its newest data point. */
  datatype MarketDataAction = MarketDataAction(instrument: InstrumentId, data: MarketData)
}
