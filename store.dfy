// The market data store of one symbol, seen only through the consumers
// bound to it.

module Store {

  /** A per-symbol source of completed market data points. Its candle buffer and
      its fan-out to consumers are not part of this model; `bound` records, in
      order, every consumer that has been bound to it. */
  class MarketDataStore {
    ghost var bound: seq<object>

    constructor ()
      ensures bound == []
    {
      bound := [];
    }
  }
}
