// Indicator instances as opaque handles: each carries the key it was built
// for and, for the band indicator, its deviation multiplier. The moving
// average and band arithmetic itself is not part of this model.

module Indicator {
  import opened Types
  import Store

  /** A simple moving average over `iw`. */
  class SMA {
    const iw: IntervalWindow

    constructor (iw: IntervalWindow)
      ensures this.iw == iw
    {
      this.iw := iw;
    }

    /** Registers this instance as a consumer of `store`'s updates. */
    method Bind(store: Store.MarketDataStore)
      modifies store
      ensures store.bound == old(store.bound) + [this]
    {
      store.bound := store.bound + [this];
    }
  }

  /** An exponentially weighted moving average over `iw`. */
  class EWMA {
    const iw: IntervalWindow

    constructor (iw: IntervalWindow)
      ensures this.iw == iw
    {
      this.iw := iw;
    }

    /** Registers this instance as a consumer of `store`'s updates. */
    method Bind(store: Store.MarketDataStore)
      modifies store
      ensures store.bound == old(store.bound) + [this]
    {
      store.bound := store.bound + [this];
    }
  }

  /** A Bollinger band over `iw` whose width is `k` standard deviations. */
  class BOLL {
    const iw: IntervalWindow
    const k: real

    constructor (iw: IntervalWindow, k: real)
      ensures this.iw == iw && this.k == k
    {
      this.iw := iw;
      this.k := k;
    }

    /** Registers this instance as a consumer of `store`'s updates. */
    method Bind(store: Store.MarketDataStore)
      modifies store
      ensures store.bound == old(store.bound) + [this]
    {
      store.bound := store.bound + [this];
    }
  }
}
