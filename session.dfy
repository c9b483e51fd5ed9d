// The session-scoped registry of pkg/bbgo/session.go: a per-symbol cache of
// indicator instances (StandardIndicatorSet) and the per-exchange aggregate of
// keyed maps (ExchangeSession).

module Session {
  import opened Types
  import opened Store
  import Indicator

  // ---------------------------------------------------------------------------
  // Pre-warming policy

  /** The windows for which a moving average of each kind is pre-built. */
  const PrewarmWindows: set<int> := {7, 25, 99}

  /** The one window for which a band indicator is pre-built. */
  const BollWindow: int := 21

  /** The deviation multiplier of every pre-built band indicator. */
  const BollK: real := 2.0

  /** Every key pairing one of `intervals` with one of `windows`. */
  function WindowKeys(intervals: set<Interval>, windows: set<int>): (r: set<IntervalWindow>)
    ensures forall iw :: iw in r <==> iw.interval in intervals && iw.window in windows
  {
    set i, w | i in intervals && w in windows :: IntervalWindow(i, w)
  }

  /** One interval with n windows gives n distinct keys. */
  lemma {:induction false} WindowKeysRowCard(i: Interval, windows: set<int>)
    ensures |WindowKeys({i}, windows)| == |windows|
    decreases windows
  {
    if windows == {} {
      assert WindowKeys({i}, windows) == {};
    } else {
      assert exists w :: w in windows by {
        if forall w :: w !in windows { assert false; }
      }
      var w :| w in windows;
      WindowKeysRowCard(i, windows - {w});
      assert WindowKeys({i}, windows) == WindowKeys({i}, windows - {w}) + {IntervalWindow(i, w)};
    }
  }

  /** m intervals with n windows give m * n distinct keys. */
  lemma {:induction false} WindowKeysCard(intervals: set<Interval>, windows: set<int>)
    ensures |WindowKeys(intervals, windows)| == |intervals| * |windows|
    decreases intervals
  {
    if intervals == {} {
      assert WindowKeys(intervals, windows) == {};
    } else {
      assert exists i :: i in intervals by {
        if forall i :: i !in intervals { assert false; }
      }
      var i :| i in intervals;
      var rest := intervals - {i};
      WindowKeysCard(rest, windows);
      WindowKeysRowCard(i, windows);
      assert WindowKeys(intervals, windows) == WindowKeys(rest, windows) + WindowKeys({i}, windows);
      assert WindowKeys(rest, windows) !! WindowKeys({i}, windows);
      calc {
        |WindowKeys(intervals, windows)|;
        |WindowKeys(rest, windows)| + |WindowKeys({i}, windows)|;
        |rest| * |windows| + |windows|;
        (|rest| + 1) * |windows|;
      }
    }
  }

  /** With |I| supported intervals, pre-warming builds 3 * |I| moving averages
      of each kind and |I| band indicators. */
  lemma PrewarmCounts(intervals: set<Interval>)
    ensures |WindowKeys(intervals, PrewarmWindows)| == 3 * |intervals|
    ensures |WindowKeys(intervals, {BollWindow})| == |intervals|
  {
    assert |PrewarmWindows| == 3 by {
      assert PrewarmWindows == {7, 25} + {99};
      assert |{7, 25}| == 2 by { assert {7, 25} == {7} + {25}; }
    }
    WindowKeysCard(intervals, PrewarmWindows);
    WindowKeysCard(intervals, {BollWindow});
  }

  // ---------------------------------------------------------------------------
  // Get-or-create on one indicator family map

  /** The intended get-or-create: the instance cached at `iw`, or `made` inserted
      there when `iw` is absent, together with the map afterwards. */
  function GetOrCreate<H>(entries: map<IntervalWindow, H>, iw: IntervalWindow, made: H): (r: (H, map<IntervalWindow, H>))
    ensures iw in r.1 && r.0 == r.1[iw]
    ensures r.1.Keys == entries.Keys + {iw}
    ensures forall k :: k in entries ==> r.1[k] == entries[k]
    ensures iw !in entries ==> r.0 == made
  {
    if iw in entries then (entries[iw], entries) else (made, entries[iw := made])
  }

  /** Get-or-create as the Get* methods are written: the map changes exactly as
      intended, but the instance inserted on a miss is not returned, because
      the miss branch declares a new variable that shadows the looked-up one. */
  function GetOrCreateAsWritten<H>(entries: map<IntervalWindow, H>, iw: IntervalWindow, made: H): (r: (Option<H>, map<IntervalWindow, H>))
    ensures r.0.Some? <==> iw in entries
    ensures iw in r.1 && r.1.Keys == entries.Keys + {iw}
    ensures r.0.Some? ==> r.0.value == entries[iw] == r.1[iw]
    ensures forall k :: k in entries ==> r.1[k] == entries[k]
    ensures iw !in entries ==> r.1[iw] == made
  {
    (if iw in entries then Some(entries[iw]) else None, GetOrCreate(entries, iw, made).1)
  }

  /** On a miss the code as written returns nothing, while the intended
      operation returns the instance it has just stored; both leave the same map. */
  lemma AsWrittenMissReturnsNone<H>(entries: map<IntervalWindow, H>, iw: IntervalWindow, made: H)
    requires iw !in entries
    ensures GetOrCreateAsWritten(entries, iw, made).0 == None
    ensures GetOrCreate(entries, iw, made).0 == made
    ensures GetOrCreateAsWritten(entries, iw, made).1 == GetOrCreate(entries, iw, made).1
  {
  }

  /** Once a key is cached, every later call returns that instance and leaves
      the map as it is, whatever instance it would have built. */
  lemma GetOrCreateStable<H>(entries: map<IntervalWindow, H>, iw: IntervalWindow, made: H, made': H)
    ensures var (h, m) := GetOrCreate(entries, iw, made);
            GetOrCreate(m, iw, made') == (h, m) && GetOrCreateAsWritten(m, iw, made') == (Some(h), m)
  {
  }

  // ---------------------------------------------------------------------------
  // StandardIndicatorSet

  /** `o` occurs exactly once in the bind log `bound`. */
  ghost predicate BoundOnce(bound: seq<object>, o: object)
  {
    multiset(bound)[o] == 1
  }

  /** Each simple moving average in `m` carries its key and is bound once in `bound`. */
  ghost predicate SmaCached(m: map<IntervalWindow, Indicator.SMA>, bound: seq<object>)
  {
    forall iw :: iw in m ==> m[iw].iw == iw && BoundOnce(bound, m[iw])
  }

  /** Each exponential moving average in `m` carries its key and is bound once in `bound`. */
  ghost predicate EwmaCached(m: map<IntervalWindow, Indicator.EWMA>, bound: seq<object>)
  {
    forall iw :: iw in m ==> m[iw].iw == iw && BoundOnce(bound, m[iw])
  }

  /** Each band indicator in `m` carries its key and is bound once in `bound`. */
  ghost predicate BollCached(m: map<IntervalWindow, Indicator.BOLL>, bound: seq<object>)
  {
    forall iw :: iw in m ==> m[iw].iw == iw && BoundOnce(bound, m[iw])
  }

  /** Binding an instance that was never bound before keeps every cached simple
      moving average bound once. */
  lemma SmaCachedBind(m: map<IntervalWindow, Indicator.SMA>, bound: seq<object>, x: object)
    requires SmaCached(m, bound) && x !in bound
    ensures SmaCached(m, bound + [x])
  {
    forall iw | iw in m
      ensures BoundOnce(bound + [x], m[iw])
    {
      assert m[iw] in multiset(bound);
    }
  }

  /** As SmaCachedBind, for exponential moving averages. */
  lemma EwmaCachedBind(m: map<IntervalWindow, Indicator.EWMA>, bound: seq<object>, x: object)
    requires EwmaCached(m, bound) && x !in bound
    ensures EwmaCached(m, bound + [x])
  {
    forall iw | iw in m
      ensures BoundOnce(bound + [x], m[iw])
    {
      assert m[iw] in multiset(bound);
    }
  }

  /** As SmaCachedBind, for band indicators. */
  lemma BollCachedBind(m: map<IntervalWindow, Indicator.BOLL>, bound: seq<object>, x: object)
    requires BollCached(m, bound) && x !in bound
    ensures BollCached(m, bound + [x])
  {
    forall iw | iw in m
      ensures BoundOnce(bound + [x], m[iw])
    {
      assert m[iw] in multiset(bound);
    }
  }

  /** Caching a new simple moving average at its own key and binding it keeps
      the map cached, and keeps the other families cached as well. */
  lemma SmaInsert(sma: map<IntervalWindow, Indicator.SMA>, ewma: map<IntervalWindow, Indicator.EWMA>,
                  boll: map<IntervalWindow, Indicator.BOLL>, bound: seq<object>, s: Indicator.SMA)
    requires SmaCached(sma, bound) && EwmaCached(ewma, bound) && BollCached(boll, bound)
    requires s !in bound
    ensures SmaCached(sma[s.iw := s], bound + [s])
    ensures EwmaCached(ewma, bound + [s]) && BollCached(boll, bound + [s])
  {
    SmaCachedBind(sma, bound, s);
    EwmaCachedBind(ewma, bound, s);
    BollCachedBind(boll, bound, s);
  }

  /** As SmaInsert, for an exponential moving average. */
  lemma EwmaInsert(sma: map<IntervalWindow, Indicator.SMA>, ewma: map<IntervalWindow, Indicator.EWMA>,
                   boll: map<IntervalWindow, Indicator.BOLL>, bound: seq<object>, e: Indicator.EWMA)
    requires SmaCached(sma, bound) && EwmaCached(ewma, bound) && BollCached(boll, bound)
    requires e !in bound
    ensures EwmaCached(ewma[e.iw := e], bound + [e])
    ensures SmaCached(sma, bound + [e]) && BollCached(boll, bound + [e])
  {
    SmaCachedBind(sma, bound, e);
    EwmaCachedBind(ewma, bound, e);
    BollCachedBind(boll, bound, e);
  }

  /** As SmaInsert, for a band indicator. */
  lemma BollInsert(sma: map<IntervalWindow, Indicator.SMA>, ewma: map<IntervalWindow, Indicator.EWMA>,
                   boll: map<IntervalWindow, Indicator.BOLL>, bound: seq<object>, b: Indicator.BOLL)
    requires SmaCached(sma, bound) && EwmaCached(ewma, bound) && BollCached(boll, bound)
    requires b !in bound
    ensures BollCached(boll[b.iw := b], bound + [b])
    ensures SmaCached(sma, bound + [b]) && EwmaCached(ewma, bound + [b])
  {
    SmaCachedBind(sma, bound, b);
    EwmaCachedBind(ewma, bound, b);
    BollCachedBind(boll, bound, b);
  }

  /** The keys with interval `i` and a window listed in `ws`. */
  function Row(i: Interval, ws: seq<int>): set<IntervalWindow>
  {
    set w | w in ws :: IntervalWindow(i, w)
  }

  /** Adding the key for the next listed window to a key set that holds the
      row so far gives the row one window further. */
  lemma RowStep(keys: set<IntervalWindow>, start: set<IntervalWindow>, i: Interval, ws: seq<int>, j: int)
    requires 0 <= j < |ws| && keys == start + Row(i, ws[..j])
    ensures keys + {IntervalWindow(i, ws[j])} == start + Row(i, ws[..j + 1])
  {
    assert ws[..j + 1] == ws[..j] + [ws[j]];
  }

  /** The key sets of the three maps once pre-warming has covered `done`. */
  ghost predicate PrewarmKeys(smaKeys: set<IntervalWindow>, ewmaKeys: set<IntervalWindow>,
                              bollKeys: set<IntervalWindow>, done: set<Interval>)
  {
    && smaKeys == WindowKeys(done, PrewarmWindows)
    && ewmaKeys == WindowKeys(done, PrewarmWindows)
    && bollKeys == WindowKeys(done, {BollWindow})
  }

  /** Pre-warming one more interval adds that interval's row of keys to each map. */
  lemma PrewarmKeysAdd(smaKeys: set<IntervalWindow>, ewmaKeys: set<IntervalWindow>, bollKeys: set<IntervalWindow>,
                       done: set<Interval>, i: Interval)
    requires PrewarmKeys(smaKeys, ewmaKeys, bollKeys, done)
    ensures PrewarmKeys(smaKeys + Row(i, [7, 25, 99]), ewmaKeys + Row(i, [7, 25, 99]),
                        bollKeys + {IntervalWindow(i, BollWindow)}, done + {i})
  {
    assert WindowKeys(done + {i}, PrewarmWindows) == WindowKeys(done, PrewarmWindows) + Row(i, [7, 25, 99]);
    assert WindowKeys(done + {i}, {BollWindow}) == WindowKeys(done, {BollWindow}) + {IntervalWindow(i, BollWindow)};
  }

  /** The maps of a set whose pre-warming has covered the intervals `done`:
      every instance is cached at its key and bound once, the key sets are the
      pre-warm keys of `done`, and every band indicator has multiplier BollK. */
  ghost predicate Prewarmed(sma: map<IntervalWindow, Indicator.SMA>, ewma: map<IntervalWindow, Indicator.EWMA>,
                            boll: map<IntervalWindow, Indicator.BOLL>, bound: seq<object>, done: set<Interval>)
  {
    && SmaCached(sma, bound) && EwmaCached(ewma, bound) && BollCached(boll, bound)
    && PrewarmKeys(sma.Keys, ewma.Keys, boll.Keys, done)
    && (forall iw :: iw in boll ==> boll[iw].k == BollK)
  }

  /** Every entry of `m` at a key of `m0` is the entry of `m0` there, and every
      entry at another key was allocated after the previous state. */
  twostate predicate KeptOrFresh(m0: map<IntervalWindow, object>, new m: map<IntervalWindow, object>)
  {
    forall k :: k in m ==> if k in m0 then m[k] == m0[k] else fresh(m[k])
  }

  /** The maps while the inner pre-warm loop is under way: every instance is
      cached at its key and bound once, and the averages now hold the keys of
      `sma` and `ewma` plus those of interval `i` with the windows `ws`. */
  ghost predicate RowBuilt(sma: map<IntervalWindow, Indicator.SMA>, ewma: map<IntervalWindow, Indicator.EWMA>,
                           boll: map<IntervalWindow, Indicator.BOLL>, sma': map<IntervalWindow, Indicator.SMA>,
                           ewma': map<IntervalWindow, Indicator.EWMA>, bound: seq<object>, i: Interval, ws: seq<int>)
  {
    && SmaCached(sma', bound) && EwmaCached(ewma', bound) && BollCached(boll, bound)
    && sma'.Keys == sma.Keys + Row(i, ws)
    && ewma'.Keys == ewma.Keys + Row(i, ws)
  }

  /** Caching and binding a new pair of averages at the next listed window
      extends RowBuilt by that window. */
  lemma RowBuiltStep(sma: map<IntervalWindow, Indicator.SMA>, ewma: map<IntervalWindow, Indicator.EWMA>,
                     boll: map<IntervalWindow, Indicator.BOLL>, sma': map<IntervalWindow, Indicator.SMA>,
                     ewma': map<IntervalWindow, Indicator.EWMA>, bound: seq<object>, i: Interval, ws: seq<int>,
                     j: int, x: Indicator.SMA, y: Indicator.EWMA)
    requires 0 <= j < |ws| && RowBuilt(sma, ewma, boll, sma', ewma', bound, i, ws[..j])
    requires x.iw == IntervalWindow(i, ws[j]) && y.iw == IntervalWindow(i, ws[j])
    requires x !in bound && y !in bound + [x]
    ensures RowBuilt(sma, ewma, boll, sma'[x.iw := x], ewma'[y.iw := y], bound + [x, y], i, ws[..j + 1])
  {
    SmaInsert(sma', ewma', boll, bound, x);
    EwmaInsert(sma'[x.iw := x], ewma', boll, bound + [x], y);
    assert bound + [x] + [y] == bound + [x, y];
    RowStep(sma'.Keys, sma.Keys, i, ws, j);
    RowStep(ewma'.Keys, ewma.Keys, i, ws, j);
  }

  /** One step of the inner pre-warm loop: builds a simple and an exponential
      moving average at `iw`, caches each at `iw` and binds each to `store`. */
  method PrewarmAverages(store: MarketDataStore, iw: IntervalWindow, sma: map<IntervalWindow, Indicator.SMA>,
                         ewma: map<IntervalWindow, Indicator.EWMA>)
    returns (sma': map<IntervalWindow, Indicator.SMA>, ewma': map<IntervalWindow, Indicator.EWMA>)
    modifies store
    ensures iw in sma' && sma' == sma[iw := sma'[iw]] && fresh(sma'[iw]) && sma'[iw].iw == iw
    ensures iw in ewma' && ewma' == ewma[iw := ewma'[iw]] && fresh(ewma'[iw]) && ewma'[iw].iw == iw
    ensures sma'[iw] !in old(store.bound) && ewma'[iw] !in old(store.bound) + [sma'[iw]]
    ensures store.bound == old(store.bound) + [sma'[iw], ewma'[iw]]
  {
    var s := new Indicator.SMA(iw);
    sma' := sma[iw := s];
    s.Bind(store);
    var e := new Indicator.EWMA(iw);
    ewma' := ewma[iw := e];
    e.Bind(store);
  }

  /** The last step of one outer pre-warm iteration: builds, caches and binds
      a band indicator at `iw` with multiplier BollK. */
  method PrewarmBand(store: MarketDataStore, iw: IntervalWindow, sma: map<IntervalWindow, Indicator.SMA>,
                     ewma: map<IntervalWindow, Indicator.EWMA>, boll: map<IntervalWindow, Indicator.BOLL>)
    returns (boll': map<IntervalWindow, Indicator.BOLL>)
    requires SmaCached(sma, store.bound) && EwmaCached(ewma, store.bound) && BollCached(boll, store.bound)
    requires forall k :: k in boll ==> boll[k].k == BollK
    modifies store
    ensures SmaCached(sma, store.bound) && EwmaCached(ewma, store.bound) && BollCached(boll', store.bound)
    ensures iw in boll' && boll' == boll[iw := boll'[iw]] && fresh(boll'[iw])
    ensures forall k :: k in boll' ==> boll'[k].k == BollK
    ensures store.bound == old(store.bound) + [boll'[iw]]
  {
    var b := new Indicator.BOLL(iw, BollK);
    BollInsert(sma, ewma, boll, store.bound, b);
    boll' := boll[iw := b];
    b.Bind(store);
  }

  /** The inner pre-warm loop: a simple and an exponential moving average for
      `interval` and each pre-warm window, in the order 7, 25, 99. */
  method PrewarmRow(store: MarketDataStore, interval: Interval, sma: map<IntervalWindow, Indicator.SMA>,
                    ewma: map<IntervalWindow, Indicator.EWMA>, boll: map<IntervalWindow, Indicator.BOLL>)
    returns (sma': map<IntervalWindow, Indicator.SMA>, ewma': map<IntervalWindow, Indicator.EWMA>)
    requires SmaCached(sma, store.bound) && EwmaCached(ewma, store.bound) && BollCached(boll, store.bound)
    requires forall k :: k in sma ==> k.interval != interval
    requires forall k :: k in ewma ==> k.interval != interval
    modifies store
    ensures SmaCached(sma', store.bound) && EwmaCached(ewma', store.bound) && BollCached(boll, store.bound)
    ensures sma'.Keys == sma.Keys + Row(interval, [7, 25, 99])
    ensures ewma'.Keys == ewma.Keys + Row(interval, [7, 25, 99])
    ensures KeptOrFresh(sma, sma') && KeptOrFresh(ewma, ewma')
    ensures old(store.bound) <= store.bound && |store.bound| == |old(store.bound)| + 6
  {
    sma', ewma' := sma, ewma;
    var windows := [7, 25, 99];
    for j := 0 to |windows|
      invariant RowBuilt(sma, ewma, boll, sma', ewma', store.bound, interval, windows[..j])
      invariant KeptOrFresh(sma, sma') && KeptOrFresh(ewma, ewma')
      invariant old(store.bound) <= store.bound && |store.bound| == |old(store.bound)| + 2 * j
    {
      var iw := IntervalWindow(interval, windows[j]);
      ghost var s0, e0, bound0 := sma', ewma', store.bound;
      sma', ewma' := PrewarmAverages(store, iw, sma', ewma');
      RowBuiltStep(sma, ewma, boll, s0, e0, bound0, interval, windows, j, sma'[iw], ewma'[iw]);
      assert iw !in sma && iw !in ewma;
      forall k | k in sma' && k != iw
        ensures sma'[k] == s0[k]
      {
      }
      forall k | k in ewma' && k != iw
        ensures ewma'[k] == e0[k]
      {
      }
    }
    assert windows[..|windows|] == windows;
  }

  /** One iteration of the outer pre-warm loop: the averages of `interval`,
      then one band indicator, seven instances bound in all. */
  method PrewarmInterval(store: MarketDataStore, interval: Interval,
                         sma: map<IntervalWindow, Indicator.SMA>, ewma: map<IntervalWindow, Indicator.EWMA>,
                         boll: map<IntervalWindow, Indicator.BOLL>, ghost done: set<Interval>)
    returns (sma': map<IntervalWindow, Indicator.SMA>, ewma': map<IntervalWindow, Indicator.EWMA>,
             boll': map<IntervalWindow, Indicator.BOLL>)
    requires Prewarmed(sma, ewma, boll, store.bound, done) && interval !in done
    modifies store
    ensures Prewarmed(sma', ewma', boll', store.bound, done + {interval})
    ensures KeptOrFresh(sma, sma') && KeptOrFresh(ewma, ewma') && KeptOrFresh(boll, boll')
    ensures old(store.bound) <= store.bound && |store.bound| == |old(store.bound)| + 7
  {
    sma', ewma' := PrewarmRow(store, interval, sma, ewma, boll);
    boll' := PrewarmBand(store, IntervalWindow(interval, BollWindow), sma', ewma', boll);
    PrewarmKeysAdd(sma.Keys, ewma.Keys, boll.Keys, done, interval);
  }

  /** The pre-warm loops of NewStandardIndicatorSet: for every supported
      interval, a moving average of each kind per pre-warm window and one band
      indicator, each bound to `store` once. */
  method Prewarm(store: MarketDataStore, supportedIntervals: set<Interval>)
    returns (sma: map<IntervalWindow, Indicator.SMA>, ewma: map<IntervalWindow, Indicator.EWMA>,
             boll: map<IntervalWindow, Indicator.BOLL>)
    modifies store
    ensures Prewarmed(sma, ewma, boll, store.bound, supportedIntervals)
    ensures forall k :: k in sma ==> fresh(sma[k])
    ensures forall k :: k in ewma ==> fresh(ewma[k])
    ensures forall k :: k in boll ==> fresh(boll[k])
    ensures |sma| == 3 * |supportedIntervals| && |ewma| == 3 * |supportedIntervals|
    ensures |boll| == |supportedIntervals|
    ensures old(store.bound) <= store.bound
    ensures |store.bound| == |old(store.bound)| + |sma| + |ewma| + |boll|
  {
    sma := map[];
    ewma := map[];
    boll := map[];
    var todo := supportedIntervals;
    ghost var done: set<Interval> := {};
    while todo != {}
      invariant done + todo == supportedIntervals && done !! todo
      invariant Prewarmed(sma, ewma, boll, store.bound, done)
      invariant forall k :: k in sma ==> fresh(sma[k])
      invariant forall k :: k in ewma ==> fresh(ewma[k])
      invariant forall k :: k in boll ==> fresh(boll[k])
      invariant old(store.bound) <= store.bound && |store.bound| == |old(store.bound)| + 7 * |done|
      decreases todo
    {
      assert exists i :: i in todo by {
        if forall i :: i !in todo { assert false; }
      }
      var interval :| interval in todo;
      sma, ewma, boll := PrewarmInterval(store, interval, sma, ewma, boll, done);
      done := done + {interval};
      todo := todo - {interval};
    }
    PrewarmCounts(supportedIntervals);
  }

  /** The indicator instances of one symbol, one map per indicator family, each
      bound to the symbol's market data store. */
  class StandardIndicatorSet {
    const symbol: string
    var SMA: map<IntervalWindow, Indicator.SMA>
    var EWMA: map<IntervalWindow, Indicator.EWMA>
    var BOLL: map<IntervalWindow, Indicator.BOLL>
    const store: MarketDataStore

    /** Every cached instance carries the key it is cached under and is bound
        to `store` exactly once. */
    ghost predicate Valid()
      reads this, store
    {
      SmaCached(SMA, store.bound) && EwmaCached(EWMA, store.bound) && BollCached(BOLL, store.bound)
    }

    /** NewStandardIndicatorSet: pre-builds and binds a moving average of each
        kind for every supported interval and every pre-warm window, and one
        band indicator per supported interval. */
    constructor (symbol: string, store: MarketDataStore, supportedIntervals: set<Interval>)
      modifies store
      ensures Valid()
      ensures this.symbol == symbol && this.store == store
      ensures SMA.Keys == WindowKeys(supportedIntervals, PrewarmWindows)
      ensures EWMA.Keys == WindowKeys(supportedIntervals, PrewarmWindows)
      ensures BOLL.Keys == WindowKeys(supportedIntervals, {BollWindow})
      ensures forall iw :: iw in BOLL ==> BOLL[iw].k == BollK
      ensures forall iw :: iw in SMA ==> fresh(SMA[iw])
      ensures forall iw :: iw in EWMA ==> fresh(EWMA[iw])
      ensures forall iw :: iw in BOLL ==> fresh(BOLL[iw])
      ensures |SMA| == 3 * |supportedIntervals| && |EWMA| == 3 * |supportedIntervals|
      ensures |BOLL| == |supportedIntervals|
      ensures old(store.bound) <= store.bound
      ensures |store.bound| == |old(store.bound)| + |SMA| + |EWMA| + |BOLL|
    {
      // The maps are filled before they are published in the fields; Go maps
      // are references, so this is the same as filling the fields in place.
      var sma, ewma, boll := Prewarm(store, supportedIntervals);
      this.symbol := symbol;
      this.SMA := sma;
      this.EWMA := ewma;
      this.BOLL := boll;
      this.store := store;
    }

    /** GetBOLL: the band indicator cached at `iw`; on a miss a new one with
        multiplier `bandWidth` is built, bound and cached, and nothing is
        returned. On a hit `bandWidth` has no effect. */
    method GetBOLL(iw: IntervalWindow, bandWidth: real) returns (r: Option<Indicator.BOLL>)
      requires Valid()
      modifies this`BOLL, store
      ensures Valid()
      ensures iw in BOLL && (r, BOLL) == GetOrCreateAsWritten(old(BOLL), iw, BOLL[iw])
      ensures iw in old(BOLL) ==> store.bound == old(store.bound)
      ensures iw !in old(BOLL) ==> fresh(BOLL[iw]) && BOLL[iw].k == bandWidth
                                   && store.bound == old(store.bound) + [BOLL[iw]]
      ensures SMA == old(SMA) && EWMA == old(EWMA)
    {
      var inc := if iw in BOLL then Some(BOLL[iw]) else None;
      var ok := iw in BOLL;
      if !ok {
        var inc := new Indicator.BOLL(iw, bandWidth);
        inc.Bind(store);
        BOLL := BOLL[iw := inc];
      }
      return inc;
    }

    /** GetSMA: the simple moving average cached at `iw`; on a miss a new one
        is built, bound and cached, and nothing is returned. */
    method GetSMA(iw: IntervalWindow) returns (r: Option<Indicator.SMA>)
      requires Valid()
      modifies this`SMA, store
      ensures Valid()
      ensures iw in SMA && (r, SMA) == GetOrCreateAsWritten(old(SMA), iw, SMA[iw])
      ensures iw in old(SMA) ==> store.bound == old(store.bound)
      ensures iw !in old(SMA) ==> fresh(SMA[iw]) && store.bound == old(store.bound) + [SMA[iw]]
      ensures EWMA == old(EWMA) && BOLL == old(BOLL)
    {
      var inc := if iw in SMA then Some(SMA[iw]) else None;
      var ok := iw in SMA;
      if !ok {
        var inc := new Indicator.SMA(iw);
        inc.Bind(store);
        SMA := SMA[iw := inc];
      }
      return inc;
    }

    /** GetEWMA: the exponentially weighted moving average cached at `iw`; on a
        miss a new one is built, bound and cached, and nothing is returned. */
    method GetEWMA(iw: IntervalWindow) returns (r: Option<Indicator.EWMA>)
      requires Valid()
      modifies this`EWMA, store
      ensures Valid()
      ensures iw in EWMA && (r, EWMA) == GetOrCreateAsWritten(old(EWMA), iw, EWMA[iw])
      ensures iw in old(EWMA) ==> store.bound == old(store.bound)
      ensures iw !in old(EWMA) ==> fresh(EWMA[iw]) && store.bound == old(store.bound) + [EWMA[iw]]
      ensures SMA == old(SMA) && BOLL == old(BOLL)
    {
      var inc := if iw in EWMA then Some(EWMA[iw]) else None;
      var ok := iw in EWMA;
      if !ok {
        var inc := new Indicator.EWMA(iw);
        inc.Bind(store);
        EWMA := EWMA[iw := inc];
      }
      return inc;
    }
  }

  /** Three calls of GetSMA with one key that is not yet cached: the first
      returns nothing, the second the instance the first stored, and the third
      that same instance again; exactly one instance is bound. */
  method GetSMAThreeTimes(set_: StandardIndicatorSet, iw: IntervalWindow)
    returns (first: Option<Indicator.SMA>, second: Option<Indicator.SMA>, third: Option<Indicator.SMA>)
    requires set_.Valid() && iw !in set_.SMA
    modifies set_`SMA, set_.store
    ensures set_.Valid()
    ensures first == None
    ensures second.Some? && second.value.iw == iw && fresh(second.value) && third == second
    ensures set_.SMA == old(set_.SMA)[iw := second.value]
    ensures set_.store.bound == old(set_.store.bound) + [second.value]
    ensures set_.EWMA == old(set_.EWMA) && set_.BOLL == old(set_.BOLL)
  {
    first := set_.GetSMA(iw);
    second := set_.GetSMA(iw);
    third := set_.GetSMA(iw);
  }

  // ---------------------------------------------------------------------------
  // ExchangeSession

  /** The live state of one exchange connection: the subscription manifest, the
      symbols whose market data was requested, and per-symbol maps. */
  class ExchangeSession {
    var Name: string
    var Account: Account
    var Stream: Stream
    var Subscriptions: map<Subscription, Subscription>
    var Exchange: Exchange
    var markets: map<string, Market>
    var startPrices: map<string, real>
    var lastPrices: map<string, real>
    var Trades: map<string, seq<Trade>>
    var marketDataStores: map<string, MarketDataStore>
    var standardIndicatorSets: map<string, StandardIndicatorSet>
    var loadedSymbols: set<string>

    /** The manifest maps each subscription to itself, and the symbol of every
        subscription is loaded. */
    ghost predicate Valid()
      reads this
    {
      forall sub :: sub in Subscriptions ==> Subscriptions[sub] == sub && sub.symbol in loadedSymbols
    }

    /** Whether subscribing to (channel, symbol, options) is already recorded. */
    predicate Subscribed(channel: Channel, symbol: string, options: SubscribeOptions)
      reads this
    {
      Subscription(channel, symbol, options) in Subscriptions && symbol in loadedSymbols
    }

    /** NewExchangeSession: a session with every map empty; `stream` stands for
        the stream the exchange opens for it. */
    constructor (name: string, exchange: Exchange, stream: Stream)
      ensures Valid()
      ensures Name == name && Exchange == exchange && Stream == stream && fresh(Account)
      ensures Subscriptions == map[] && Trades == map[] && markets == map[]
      ensures startPrices == map[] && lastPrices == map[]
      ensures marketDataStores == map[] && standardIndicatorSets == map[]
      ensures loadedSymbols == {}
      ensures forall symbol :: !StandardIndicatorSet(symbol).1 && !MarketDataStore(symbol).1
      ensures forall symbol :: !StartPrice(symbol).1 && !LastPrice(symbol).1 && !Market(symbol).1
    {
      Name := name;
      Exchange := exchange;
      Stream := stream;
      Subscriptions := map[];
      Account := new Types.Account();
      Trades := map[];
      markets := map[];
      startPrices := map[];
      lastPrices := map[];
      marketDataStores := map[];
      standardIndicatorSets := map[];
      loadedSymbols := {};
    }

    /** The indicator set of `symbol` and whether there is one (null if not). */
    function StandardIndicatorSet(symbol: string): (r: (StandardIndicatorSet?, bool))
      reads this
      ensures r.1 <==> symbol in standardIndicatorSets
      ensures r.0 == if r.1 then standardIndicatorSets[symbol] else null
    {
      if symbol in standardIndicatorSets then (standardIndicatorSets[symbol], true) else (null, false)
    }

    /** The market data store of `symbol` and whether there is one (null if not). */
    function MarketDataStore(symbol: string): (r: (MarketDataStore?, bool))
      reads this
      ensures r.1 <==> symbol in marketDataStores
      ensures r.0 == if r.1 then marketDataStores[symbol] else null
    {
      if symbol in marketDataStores then (marketDataStores[symbol], true) else (null, false)
    }

    /** The start price of `symbol` and whether there is one (0 if not). */
    function StartPrice(symbol: string): (r: (real, bool))
      reads this
      ensures r.1 <==> symbol in startPrices
      ensures r.0 == if r.1 then startPrices[symbol] else 0.0
    {
      if symbol in startPrices then (startPrices[symbol], true) else (0.0, false)
    }

    /** The last price of `symbol` and whether there is one (0 if not). */
    function LastPrice(symbol: string): (r: (real, bool))
      reads this
      ensures r.1 <==> symbol in lastPrices
      ensures r.0 == if r.1 then lastPrices[symbol] else 0.0
    {
      if symbol in lastPrices then (lastPrices[symbol], true) else (0.0, false)
    }

    /** The market configuration of `symbol` and whether there is one (the zero
        market if not). */
    function Market(symbol: string): (r: (Market, bool))
      reads this
      ensures r.1 <==> symbol in markets
      ensures r.0 == if r.1 then markets[symbol] else ZeroMarket
    {
      if symbol in markets then (markets[symbol], true) else (ZeroMarket, false)
    }

    /** Records the subscription (channel, symbol, options) in the manifest and
        marks `symbol` loaded; returns this session for chaining. A repeated
        call with the same arguments changes nothing. */
    method Subscribe(channel: Channel, symbol: string, options: SubscribeOptions) returns (r: ExchangeSession)
      requires Valid()
      modifies this`loadedSymbols, this`Subscriptions
      ensures Valid() && r == this
      ensures loadedSymbols == old(loadedSymbols) + {symbol}
      ensures Subscriptions == old(Subscriptions)[Subscription(channel, symbol, options) := Subscription(channel, symbol, options)]
      ensures Subscribed(channel, symbol, options)
      ensures old(Subscribed(channel, symbol, options)) ==> loadedSymbols == old(loadedSymbols) && Subscriptions == old(Subscriptions)
      ensures marketDataStores == old(marketDataStores) && standardIndicatorSets == old(standardIndicatorSets)
      ensures markets == old(markets) && startPrices == old(startPrices) && lastPrices == old(lastPrices)
      ensures Trades == old(Trades)
      ensures forall s :: StandardIndicatorSet(s) == old(StandardIndicatorSet(s)) && MarketDataStore(s) == old(MarketDataStore(s))
      ensures forall s :: StartPrice(s) == old(StartPrice(s)) && LastPrice(s) == old(LastPrice(s)) && Market(s) == old(Market(s))
    {
      var sub := Subscription(channel, symbol, options);
      loadedSymbols := loadedSymbols + {symbol};
      Subscriptions := Subscriptions[sub := sub];
      return this;
    }
  }

  /** Subscribing twice with the same arguments leaves the session exactly as
      subscribing once does. */
  method SubscribeTwice(session: ExchangeSession, channel: Channel, symbol: string, options: SubscribeOptions)
    requires session.Valid()
    modifies session`loadedSymbols, session`Subscriptions
    ensures session.Valid() && session.Subscribed(channel, symbol, options)
    ensures session.loadedSymbols == old(session.loadedSymbols) + {symbol}
    ensures session.Subscriptions == old(session.Subscriptions)[Subscription(channel, symbol, options) := Subscription(channel, symbol, options)]
    ensures session.marketDataStores == old(session.marketDataStores) && session.standardIndicatorSets == old(session.standardIndicatorSets)
    ensures session.markets == old(session.markets) && session.startPrices == old(session.startPrices)
    ensures session.lastPrices == old(session.lastPrices) && session.Trades == old(session.Trades)
  {
    var once := session.Subscribe(channel, symbol, options);
    var twice := once.Subscribe(channel, symbol, options);
  }
}
