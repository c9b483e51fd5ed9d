# bbgo exchange session registry, modelled in Dafny

This project models `pkg/bbgo/session.go` of bbgo, the session-scoped registry of a
trading bot. The file has two parts.

- **StandardIndicatorSet** is the per-symbol cache of indicator instances. It has three maps
  (`SMA`, `EWMA`, `BOLL`), each keyed by an `IntervalWindow` (interval, window size).
  - Construction pre-warms the cache. For every supported interval it builds a simple and an
    exponential moving average for each of the windows 7, 25 and 99, and one Bollinger band with
    window 21 and multiplier 2.0.
  - Every instance built is bound to the symbol's market data store.
  - `GetSMA`, `GetEWMA` and `GetBOLL` are get-or-create lookups.
- **ExchangeSession** is the state of one exchange connection. It holds the subscription
  manifest, the set of loaded symbols, and per-symbol maps of markets, prices, trades, market
  data stores and indicator sets. It offers `(value, ok)` lookups and a chainable `Subscribe`.

## Files

- `types.dfy` (module `Types`): value types.
  - `IntervalWindow`, `Subscription`, `SubscribeOptions`, `Market` and `Trade`.
  - An `Option` type.
  - Opaque `Account`, `Stream` and `Exchange` objects.
- `store.dfy` (module `Store`): the market data store. It is reduced to a ghost log, `bound`,
  that records every consumer bound to it, in order.
- `indicator.dfy` (module `Indicator`): the indicator instances `SMA`, `EWMA` and `BOLL`.
  - Each is a handle that carries its key and, for `BOLL`, its multiplier `k`.
  - `Bind` appends the handle to the store's log.
- `session.dfy` (module `Session`): the pre-warm policy, the get-or-create functions, and the
  classes `StandardIndicatorSet` and `ExchangeSession`.

How the code is modelled:
- The set of supported intervals is a parameter of the indicator set's constructor. It stands
  for the package-level table of supported intervals.
- "Bound exactly once" means the instance occurs exactly once in the store's log
  (`BoundOnce`). `StandardIndicatorSet.Valid` keeps this for every cached instance.
- The Get methods keep the code's behaviour on a miss. The miss branch declares a new `inc`
  with `:=`, which shadows the looked-up one. So the method returns the result of the failed
  lookup, which is nil and modelled as `None`, while the map gains the new instance.
- The doc comments of these methods say they return the indicator. The model follows the code,
  and the discrepancy is recorded under "## Findings".

## Model

| member | source | states |
|---|---|---|
| Session.WindowKeys | pkg/bbgo/session.go:29-45 | a key is in the pre-warm key set exactly when its interval is one of the intervals and its window one of the windows |
| Session.WindowKeysCard | pkg/bbgo/session.go:29-45 | m intervals and n windows give exactly m * n distinct keys |
| Session.PrewarmCounts | pkg/bbgo/session.go:29-45 | pre-warming I intervals gives 3 * \|I\| averages of each kind and \|I\| bands |
| Session.SmaInsert | pkg/bbgo/session.go:32-33 | caching and binding a new SMA at its own key keeps every cached instance, of all three kinds, bound exactly once and at its own key |
| Session.EwmaInsert | pkg/bbgo/session.go:35-36 | the same for a new EWMA |
| Session.BollInsert | pkg/bbgo/session.go:43-44 | the same for a new band indicator |
| Session.PrewarmKeysAdd | pkg/bbgo/session.go:29-45 | one more pre-warmed interval adds its row of windows 7, 25, 99 to the SMA and EWMA keys and its window-21 key to the BOLL keys |
| Session.PrewarmAverages | pkg/bbgo/session.go:31-37 | one inner iteration stores one newly allocated SMA and one newly allocated EWMA at the key, each carrying that key, leaves every other entry as it was, and appends exactly those two instances, SMA first, to the bind log |
| Session.PrewarmBand | pkg/bbgo/session.go:41-44 | one newly allocated band indicator with multiplier 2.0 is stored at the window-21 key, every other entry is left as it was, and exactly that instance is appended to the bind log; every cached instance stays bound once |
| Session.RowBuiltStep | pkg/bbgo/session.go:30-37 | caching and binding one more pair of averages at the next window extends the inner loop's invariant: each instance at its own key and bound once, keys grown by that window |
| Session.PrewarmRow | pkg/bbgo/session.go:30-37 | the inner loop adds exactly the keys (interval, 7), (interval, 25) and (interval, 99) to SMA and EWMA; entries at old keys are unchanged and entries at new keys are newly allocated; six instances are bound, each once |
| Session.PrewarmInterval | pkg/bbgo/session.go:29-45 | one outer iteration extends the pre-warmed intervals by one; in all three maps entries at old keys are unchanged and entries at new keys are newly allocated; seven instances are bound |
| Session.Prewarm | pkg/bbgo/session.go:29-45 | after the loops the key sets are exactly the pre-warm keys of all supported intervals, with sizes 3\|I\|, 3\|I\| and \|I\|; every instance is newly allocated, at its own key and bound once; the log grows by exactly the number of instances |
| Session.StandardIndicatorSet.constructor | pkg/bbgo/session.go:19-48 | a new set has symbol and store as given; SMA and EWMA keys are exactly {(i, w) \| i supported, w in {7, 25, 99}}; BOLL keys are exactly {(i, 21)}, each with k = 2.0; the sizes are 3\|I\|, 3\|I\| and \|I\|; every instance is newly allocated, carries its key and is bound exactly once |
| Session.StandardIndicatorSet.GetBOLL | pkg/bbgo/session.go:52-61 | on a hit: returns the cached band, binds nothing, and leaves all maps unchanged, whatever bandWidth is; on a miss: returns None and caches one fresh band at iw with k = bandWidth, bound once; other keys and maps are unchanged |
| Session.StandardIndicatorSet.GetSMA | pkg/bbgo/session.go:64-73 | the same get-or-create for SMA: a hit returns the cached instance and binds nothing; a miss returns None and adds one fresh, bound instance at iw |
| Session.StandardIndicatorSet.GetEWMA | pkg/bbgo/session.go:76-85 | the same get-or-create for EWMA |
| Session.GetOrCreate | pkg/bbgo/session.go:50-61 | intended get-or-create: the result is the instance stored at iw afterwards; the keys gain only iw; existing entries keep their values; on a miss the new instance is stored |
| Session.GetOrCreateAsWritten | pkg/bbgo/session.go:64-73 | as written: a result exists exactly when iw was cached, and it is the cached instance; the map changes exactly as intended |
| Session.AsWrittenMissReturnsNone | pkg/bbgo/session.go:65-72 | on a miss the code returns nothing while the intended operation returns the new instance; both leave the same map |
| Session.GetOrCreateStable | pkg/bbgo/session.go:53-60 | once a key is cached, every later call returns the same instance and leaves the map unchanged, in both versions |
| Session.GetSMAThreeTimes | pkg/bbgo/session.go:64-73 | three calls with a new key return None, then the stored instance, which is newly allocated, then that same instance; only SMA gains that one entry, EWMA and BOLL are unchanged, and exactly that instance is bound |
| Session.ExchangeSession.constructor | pkg/bbgo/session.go:128-151 | a new session has the given name, exchange and stream, a fresh account and every map and the loaded-symbol set empty, so every accessor answers ok = false |
| Session.ExchangeSession.StandardIndicatorSet | pkg/bbgo/session.go:153-156 | ok exactly when the symbol has an indicator set, and the value is that set (null otherwise) |
| Session.ExchangeSession.MarketDataStore | pkg/bbgo/session.go:159-162 | ok exactly when the symbol has a store, and the value is that store (null otherwise) |
| Session.ExchangeSession.StartPrice | pkg/bbgo/session.go:164-167 | ok exactly when the symbol has a start price, and the value is that price (0 otherwise) |
| Session.ExchangeSession.LastPrice | pkg/bbgo/session.go:169-172 | ok exactly when the symbol has a last price, and the value is that price (0 otherwise) |
| Session.ExchangeSession.Market | pkg/bbgo/session.go:174-177 | ok exactly when the symbol has a market, and the value is that market (the zero market otherwise) |
| Session.ExchangeSession.Subscribe | pkg/bbgo/session.go:180-191 | the symbol becomes loaded; the manifest maps sub = (channel, symbol, options) to itself; nothing changes if it was already subscribed; no other map or accessor result changes; the same session is returned |
| Session.SubscribeTwice | pkg/bbgo/session.go:180-191 | two identical calls leave the same state as one call: the symbol loaded, the manifest holding the subscription, and every other map of the session unchanged |

## Left out

- Notifiability: the session's notification routers are not part of this model. Their constructors live in code that is not modelled.
- Stream: `exchange.NewStream()` is a call into transport code. The constructor takes the resulting stream as a parameter.
- Account: its contents are not modelled. It is an opaque fresh object.
- Indicators: the SMA, EWMA and Bollinger-band arithmetic is not modelled. `Bind` is modelled only as an append to the store's ghost log.
- MarketDataStore: its candle buffer and its fan-out of updates to consumers are not modelled.
- float64: prices and the band multiplier are modelled as `real`. They are only stored and returned, never computed on.
- Market, Trade, SubscribeOptions: their fields are placeholders, because the types package is not part of this model. They are only stored and compared for equality.
- Supported intervals: the package-level table of supported intervals is a constructor parameter (any finite set).
- Iteration order: Go's iteration order over the supported intervals is unspecified. The model picks an arbitrary interval each round, and its contracts speak of key sets, not insertion order.
- Other maps: writes to trades, markets, prices, stores and indicator sets happen outside this file. So the model never states that a loaded symbol has a store or an indicator set.

## Findings

| source | as written | input that shows it | evidently intended | confidence | as-written member | corrected member |
|---|---|---|---|---|---|---|
| pkg/bbgo/session.go:53-60, :65-72, :77-84 | the miss branch writes `inc := ...`, which declares a new variable that shadows the looked-up `inc`; the function then returns the outer `inc`, nil | an empty SMA map and GetSMA(("1m", 7)): the map now holds a new SMA at ("1m", 7), but nil is returned | return the instance just created and cached, as the doc comments at :50, :63 and :75 say | high; not executed | Session.AsWrittenMissReturnsNone | Session.GetOrCreate |
