// Value types of the exchange-session core: the indicator cache key, the
// subscription manifest entry, and the records the session only stores.

module Types {

  /** A possibly absent value; `None` plays the part of a nil pointer. */
  datatype Option<+T> = None | Some(value: T)

  /** A time granularity of aggregated market data, such as "1m" or "1h". */
  type Interval = string

  /** The indicator cache key: an interval and a window size in periods.
      Equality is structural, so it can key a map. */
  datatype IntervalWindow = IntervalWindow(interval: Interval, window: int)

  /** The kind of live feed a subscription asks for, such as "kline" or "book". */
  type Channel = string

  /** The configuration bag of a subscription. */
  datatype SubscribeOptions = SubscribeOptions(interval: string, depth: string)

  /** One entry of the subscription manifest; two subscriptions are the same
      entry exactly when channel, symbol and options are all equal. */
  datatype Subscription = Subscription(channel: Channel, symbol: string, options: SubscribeOptions)

  /** The market configuration of a symbol, only stored and returned here. */
  datatype Market = Market(symbol: string, baseCurrency: string, quoteCurrency: string,
                           pricePrecision: int, volumePrecision: int)

  /** The zero value of `Market`, returned by a lookup that misses. */
  const ZeroMarket := Market("", "", "", 0, 0)

  /** An executed trade, only collected per symbol here. */
  datatype Trade = Trade(id: int, symbol: string, price: real, quantity: real, isBuyer: bool)

  /** The exchange account state; its contents are not part of this model. */
  class Account {
    constructor () {}
  }

  /** The connection stream of an exchange, an opaque handle here. */
  class Stream {}

  /** The exchange capability a session is opened on, an opaque handle here. */
  class Exchange {}
}
