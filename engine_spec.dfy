/** Value-level specification of the symbol state store in ingestion_engine/src/core/engine.rs:
    the view of one symbol's state, the effect of every engine call on the registry, the
    bounded queues, the stable sort by start time and the history query. The classes that
    update this state in place live in module CoreEngine and are proved against these functions. */
module CoreEngineSpec {
  import opened Wrappers
  import opened Numbers
  import opened Models

  // ---------------------------------------------------------------------------------------------
  // Bounded FIFO queues (VecDeque with pop_front before push_back)
  // ---------------------------------------------------------------------------------------------

  /** The bound a queue pushed with `if len >= limit { pop_front } push_back` keeps: a limit of 0
      still lets the pushed item in, so the bound is max(limit, 1). */
  function Cap(limit: nat): (c: nat)
    ensures c >= 1 && c >= limit
    ensures limit > 0 ==> c == limit
  {
    if limit == 0 then 1 else limit
  }

  /** The newest `n` items of `h`, in arrival order. */
  function Last<T>(h: seq<T>, n: nat): (r: seq<T>)
    ensures |r| == Min(|h|, n)
    ensures r == h[|h| - |r|..]
  {
    if |h| <= n then h else h[|h| - n..]
  }

  /** `VecDeque::pop_front`, whose result is dropped: no effect on an empty queue. */
  function PopFront<T>(q: seq<T>): (r: seq<T>)
    ensures q == [] ==> r == []
    ensures q != [] ==> [q[0]] + r == q
  {
    if q == [] then [] else q[1..]
  }

  /** Push `x` at the back, first dropping the front when the queue already holds `limit` items. */
  function BoundedPush<T>(q: seq<T>, x: T, limit: nat): seq<T> {
    (if |q| >= limit then PopFront(q) else q) + [x]
  }

  /** Pushing onto a queue that holds the newest items of a history keeps it holding the newest
      items of the extended history: the newest item is last and eviction is first in, first out. */
  lemma BoundedPushKeepsNewest<T>(h: seq<T>, q: seq<T>, x: T, limit: nat)
    requires q == Last(h, Cap(limit))
    ensures BoundedPush(q, x, limit) == Last(h + [x], Cap(limit))
  {
    var c := Cap(limit);
    if |h| < c {
      assert q == h;
      if |q| >= limit {
        assert limit == 0 && q == [];
      }
    } else {
      assert q == h[|h| - c..];
      assert PopFront(q) == h[|h| - c + 1..];
      assert (h + [x])[|h| + 1 - c..] == h[|h| - c + 1..] + [x];
    }
  }

  /** A queue shorter than its bound before a push stays within it. */
  lemma BoundedPushBound<T>(q: seq<T>, x: T, limit: nat)
    requires |q| <= Cap(limit)
    ensures |BoundedPush(q, x, limit)| <= Cap(limit)
    ensures BoundedPush(q, x, limit)[|BoundedPush(q, x, limit)| - 1] == x
  {
  }

  // ---------------------------------------------------------------------------------------------
  // Stable sort by start time (`sort_by_key(|c| c.start_time)`)
  // ---------------------------------------------------------------------------------------------

  predicate SortedByStart(s: seq<Candle>) {
    forall i, j :: 0 <= i < j < |s| ==> s[i].startTime <= s[j].startTime
  }

  /** Inserts `c` in front of the first element whose start time is not smaller. */
  function InsertByStart(c: Candle, s: seq<Candle>): (r: seq<Candle>)
    ensures |r| == |s| + 1
    ensures multiset(r) == multiset(s) + multiset{c}
  {
    if s == [] || c.startTime <= s[0].startTime then [c] + s
    else
      assert s == [s[0]] + s[1..];
      [s[0]] + InsertByStart(c, s[1..])
  }

  lemma InsertMembers(c: Candle, s: seq<Candle>, x: Candle)
    requires x in InsertByStart(c, s)
    ensures x == c || x in s
  {
    assert x in multiset(InsertByStart(c, s));
  }

  /** A lower bound of `c` and of every element of `s` bounds every element of the insertion. */
  lemma InsertLowerBound(c: Candle, s: seq<Candle>, bound: U64)
    requires bound <= c.startTime
    requires forall k :: 0 <= k < |s| ==> bound <= s[k].startTime
    ensures forall k :: 0 <= k < |InsertByStart(c, s)| ==> bound <= InsertByStart(c, s)[k].startTime
  {
    var r := InsertByStart(c, s);
    forall k | 0 <= k < |r| ensures bound <= r[k].startTime {
      InsertMembers(c, s, r[k]);
    }
  }

  lemma {:induction false} InsertKeepsSorted(c: Candle, s: seq<Candle>)
    requires SortedByStart(s)
    ensures SortedByStart(InsertByStart(c, s))
  {
    if s != [] && c.startTime > s[0].startTime {
      var tail := s[1..];
      var rest := InsertByStart(c, tail);
      InsertKeepsSorted(c, tail);
      assert forall k :: 0 <= k < |tail| ==> s[0].startTime <= tail[k].startTime by {
        forall k | 0 <= k < |tail| ensures s[0].startTime <= tail[k].startTime {
          assert tail[k] == s[k + 1];
        }
      }
      InsertLowerBound(c, tail, s[0].startTime);
      var r := [s[0]] + rest;
      assert r == InsertByStart(c, s);
      forall i, j | 0 <= i < j < |r| ensures r[i].startTime <= r[j].startTime {
        assert r[j] == rest[j - 1];
        if i > 0 {
          assert r[i] == rest[i - 1];
        }
      }
    }
  }

  /** Insertion sort from the back: equal start times keep their input order. */
  function SortByStart(s: seq<Candle>): (r: seq<Candle>)
    ensures multiset(r) == multiset(s)
    ensures |r| == |s|
  {
    if s == [] then []
    else
      assert s == [s[0]] + s[1..];
      InsertByStart(s[0], SortByStart(s[1..]))
  }

  lemma {:induction false} SortIsSorted(s: seq<Candle>)
    ensures SortedByStart(SortByStart(s))
  {
    if s != [] {
      SortIsSorted(s[1..]);
      InsertKeepsSorted(s[0], SortByStart(s[1..]));
    }
  }

  /** Candles with the start time `t`, in order. */
  function WithStart(s: seq<Candle>, t: U64): (r: seq<Candle>)
    ensures |r| <= |s|
  {
    if s == [] then []
    else (if s[0].startTime == t then [s[0]] else []) + WithStart(s[1..], t)
  }

  lemma {:induction false} WithStartInsert(c: Candle, s: seq<Candle>, t: U64)
    ensures WithStart(InsertByStart(c, s), t) == WithStart([c] + s, t)
  {
    if s == [] || c.startTime <= s[0].startTime {
    } else {
      var rest := InsertByStart(c, s[1..]);
      WithStartInsert(c, s[1..], t);
      assert ([s[0]] + rest)[1..] == rest;
      assert ([c] + s)[1..] == s;
      assert ([c] + s[1..])[1..] == s[1..];
      assert c.startTime != t || s[0].startTime != t;
      if c.startTime == t {
        assert WithStart(InsertByStart(c, s), t) == WithStart(rest, t);
      }
    }
  }

  /** The sort is stable: the candles sharing any one start time come out in their input order. */
  lemma {:induction false} SortIsStable(s: seq<Candle>, t: U64)
    ensures WithStart(SortByStart(s), t) == WithStart(s, t)
  {
    if s != [] {
      SortIsStable(s[1..], t);
      WithStartInsert(s[0], SortByStart(s[1..]), t);
      assert ([s[0]] + SortByStart(s[1..]))[1..] == SortByStart(s[1..]);
    }
  }

  // ---------------------------------------------------------------------------------------------
  // One symbol's state and the engine calls
  // ---------------------------------------------------------------------------------------------

  /** Everything a `SymbolState` holds, as a value. */
  datatype SymbolView = SymbolView(
    orderBook: Option<OrderBook>,
    trades: seq<Trade>,
    aggTrades: seq<AggTrade>,
    candles: map<string, seq<Candle>>,
    ticker: Option<Ticker>,
    bookTicker: Option<BookTicker>,
    markPrice: Option<MarkPrice>,
    liquidations: seq<Liquidation>,
    fundingRate: Option<FundingRate>,
    openInterest: Option<OpenInterest>)

  /** A freshly created `SymbolState`: no slot set, every queue empty, no interval. */
  const EmptySymbol := SymbolView(None, [], [], map[], None, None, None, [], None, None)

  type Registry = map<string, SymbolView>

  /** The state of `symbol`, as `get_or_create_symbol` would find or make it. */
  function Lookup(reg: Registry, symbol: string): SymbolView {
    if symbol in reg then reg[symbol] else EmptySymbol
  }

  function Queue(m: map<string, seq<Candle>>, interval: string): seq<Candle> {
    if interval in m then m[interval] else []
  }

  /** Each mutating entry point of the engine, with its arguments. */
  datatype EngineCall =
    | UpdateOrderBook(symbol: string, book: OrderBook)
    | AddTrade(symbol: string, trade: Trade)
    | AddAggTrade(symbol: string, aggTrade: AggTrade)
    | AddCandle(symbol: string, candle: Candle)
    | LoadHistoricalCandles(symbol: string, candles: seq<Candle>)
    | UpdateTicker(symbol: string, ticker: Ticker)
    | UpdateBookTicker(symbol: string, bookTicker: BookTicker)
    | UpdateMarkPrice(symbol: string, markPrice: MarkPrice)
    | AddLiquidation(symbol: string, liquidation: Liquidation)
    | UpdateFundingRate(symbol: string, fundingRate: FundingRate)
    | UpdateOpenInterest(symbol: string, openInterest: OpenInterest)

  /** The historical loader on one candle map: push each candle on its interval's queue and trim
      that queue from the front to at most `limit` (a limit of 0 empties it). */
  function LoadCandles(m: map<string, seq<Candle>>, cs: seq<Candle>, limit: nat): (r: map<string, seq<Candle>>)
  {
    if cs == [] then m
    else
      var c := cs[|cs| - 1];
      var prior := LoadCandles(m, cs[..|cs| - 1], limit);
      assert cs == cs[..|cs| - 1] + [c];
      prior[c.interval := Last(Queue(prior, c.interval) + [c], limit)]
  }

  /** Loading one more candle pushes it on its interval's queue and trims that queue. */
  lemma LoadCandlesSnoc(m: map<string, seq<Candle>>, cs: seq<Candle>, c: Candle, limit: nat)
    ensures LoadCandles(m, cs + [c], limit)
         == LoadCandles(m, cs, limit)[c.interval := Last(Queue(LoadCandles(m, cs, limit), c.interval) + [c], limit)]
  {
    assert (cs + [c])[..|cs|] == cs;
  }

  /** The same step, stated on the prefixes of one batch. */
  lemma LoadCandlesStep(m: map<string, seq<Candle>>, cs: seq<Candle>, i: nat, limit: nat)
    requires i < |cs|
    ensures LoadCandles(m, cs[..i + 1], limit)
         == LoadCandles(m, cs[..i], limit)[cs[i].interval := Last(Queue(LoadCandles(m, cs[..i], limit), cs[i].interval) + [cs[i]], limit)]
  {
    assert cs[..i + 1] == cs[..i] + [cs[i]];
    LoadCandlesSnoc(m, cs[..i], cs[i], limit);
  }

  /** The final pass of the loader: every queue of the map sorted by start time. */
  function SortAll(m: map<string, seq<Candle>>): (r: map<string, seq<Candle>>)
    ensures r.Keys == m.Keys
  {
    map k | k in m :: SortByStart(m[k])
  }

  /** After the final pass every queue is sorted and holds what it held before. */
  lemma SortAllSortsEvery(m: map<string, seq<Candle>>)
    ensures forall k :: k in SortAll(m) ==> SortedByStart(SortAll(m)[k]) && multiset(SortAll(m)[k]) == multiset(m[k])
  {
    forall k | k in SortAll(m) ensures SortedByStart(SortAll(m)[k]) { SortIsSorted(m[k]); }
  }

  /** What a call does to a symbol's candle map: `add_candle` pushes on its interval's queue
      (creating it if needed), the historical loader loads then sorts every queue. */
  function CandlesAfter(m: map<string, seq<Candle>>, call: EngineCall, candleLimit: nat): map<string, seq<Candle>> {
    if call.AddCandle? then m[call.candle.interval := BoundedPush(Queue(m, call.candle.interval), call.candle, candleLimit)]
    else if call.LoadHistoricalCandles? then SortAll(LoadCandles(m, call.candles, candleLimit))
    else m
  }

  /** What one call does to the state of its symbol: each field changes only under its own call. */
  function ApplyToSymbol(v: SymbolView, call: EngineCall, tradeLimit: nat, candleLimit: nat): SymbolView {
    SymbolView(
      if call.UpdateOrderBook? then Some(call.book) else v.orderBook,
      if call.AddTrade? then BoundedPush(v.trades, call.trade, tradeLimit) else v.trades,
      if call.AddAggTrade? then BoundedPush(v.aggTrades, call.aggTrade, tradeLimit) else v.aggTrades,
      CandlesAfter(v.candles, call, candleLimit),
      if call.UpdateTicker? then Some(call.ticker) else v.ticker,
      if call.UpdateBookTicker? then Some(call.bookTicker) else v.bookTicker,
      if call.UpdateMarkPrice? then Some(call.markPrice) else v.markPrice,
      if call.AddLiquidation? then BoundedPush(v.liquidations, call.liquidation, tradeLimit) else v.liquidations,
      if call.UpdateFundingRate? then Some(call.fundingRate) else v.fundingRate,
      if call.UpdateOpenInterest? then Some(call.openInterest) else v.openInterest)
  }

  /** What one call does to the registry: the call's symbol is created if needed and updated;
      a historical load of no candles returns before the symbol is even created. */
  function Step(reg: Registry, call: EngineCall, tradeLimit: nat, candleLimit: nat): Registry {
    if call.LoadHistoricalCandles? && call.candles == [] then reg
    else reg[call.symbol := ApplyToSymbol(Lookup(reg, call.symbol), call, tradeLimit, candleLimit)]
  }

  /** A symbol's state after a call: the call's own symbol gets `ApplyToSymbol` of its previous
      state (empty if absent), unless the call is an empty historical load; others keep theirs. */
  lemma StepLookup(reg: Registry, call: EngineCall, symbol: string, tradeLimit: nat, candleLimit: nat)
    ensures Lookup(Step(reg, call, tradeLimit, candleLimit), symbol)
         == if symbol == call.symbol && !(call.LoadHistoricalCandles? && call.candles == [])
            then ApplyToSymbol(Lookup(reg, symbol), call, tradeLimit, candleLimit)
            else Lookup(reg, symbol)
  {
  }

  /** The three bounded event queues of a symbol after a call: only the call that adds to a queue,
      for that symbol, changes it. */
  lemma StepQueues(reg: Registry, call: EngineCall, symbol: string, tradeLimit: nat, candleLimit: nat)
    ensures var before := Lookup(reg, symbol);
      var after := Lookup(Step(reg, call, tradeLimit, candleLimit), symbol);
      && after.trades == (if call.AddTrade? && call.symbol == symbol then BoundedPush(before.trades, call.trade, tradeLimit) else before.trades)
      && after.aggTrades == (if call.AddAggTrade? && call.symbol == symbol then BoundedPush(before.aggTrades, call.aggTrade, tradeLimit) else before.aggTrades)
      && after.liquidations == (if call.AddLiquidation? && call.symbol == symbol then BoundedPush(before.liquidations, call.liquidation, tradeLimit) else before.liquidations)
  {
    StepLookup(reg, call, symbol, tradeLimit, candleLimit);
  }

  /** The event a call broadcasts once its state is written; the historical load broadcasts none. */
  function Event(call: EngineCall): (r: Option<MarketData>)
    ensures r.None? <==> call.LoadHistoricalCandles?
    ensures r.Some? ==> SymbolOf(r.value).Some?
  {
    match call
    case UpdateOrderBook(_, b) => Some(OrderBookMsg(b))
    case AddTrade(_, t) => Some(TradeMsg(t))
    case AddAggTrade(_, t) => Some(AggTradeMsg(t))
    case AddCandle(_, c) => Some(CandleMsg(c))
    case LoadHistoricalCandles(_, _) => None
    case UpdateTicker(_, t) => Some(TickerMsg(t))
    case UpdateBookTicker(_, t) => Some(BookTickerMsg(t))
    case UpdateMarkPrice(_, p) => Some(MarkPriceMsg(p))
    case AddLiquidation(_, l) => Some(LiquidationMsg(l))
    case UpdateFundingRate(_, f) => Some(FundingRateMsg(f))
    case UpdateOpenInterest(_, o) => Some(OpenInterestMsg(o))
  }

  /** A call changes only its own symbol: every other symbol keeps its presence and its state. */
  lemma StepTouchesOnlyItsSymbol(reg: Registry, call: EngineCall, tradeLimit: nat, candleLimit: nat, other: string)
    requires other != call.symbol
    ensures other in Step(reg, call, tradeLimit, candleLimit) <==> other in reg
    ensures other in reg ==> Step(reg, call, tradeLimit, candleLimit)[other] == reg[other]
  {
  }

  /** `add_candle` changes only the queue of the candle's interval, within its own symbol. */
  lemma AddCandleTouchesOnlyItsInterval(reg: Registry, symbol: string, c: Candle, tradeLimit: nat, candleLimit: nat, interval: string)
    requires interval != c.interval
    ensures var v := Step(reg, AddCandle(symbol, c), tradeLimit, candleLimit)[symbol];
      && v.candles.Keys == Lookup(reg, symbol).candles.Keys + {c.interval}
      && Queue(v.candles, interval) == Queue(Lookup(reg, symbol).candles, interval)
      && v.trades == Lookup(reg, symbol).trades
      && v.orderBook == Lookup(reg, symbol).orderBook
  {
  }

  /** The limits every queue of a symbol respects. */
  predicate Bounded(v: SymbolView, tradeLimit: nat, candleLimit: nat) {
    && |v.trades| <= Cap(tradeLimit)
    && |v.aggTrades| <= Cap(tradeLimit)
    && |v.liquidations| <= Cap(tradeLimit)
    && forall k :: k in v.candles ==> |v.candles[k]| <= Cap(candleLimit)
  }

  lemma {:induction false} LoadCandlesBounded(m: map<string, seq<Candle>>, cs: seq<Candle>, limit: nat)
    requires forall k :: k in m ==> |m[k]| <= Cap(limit)
    ensures forall k :: k in LoadCandles(m, cs, limit) ==> |LoadCandles(m, cs, limit)[k]| <= Cap(limit)
  {
    if cs != [] {
      LoadCandlesBounded(m, cs[..|cs| - 1], limit);
    }
  }

  /** Every call keeps every queue of its symbol within its bound. */
  lemma ApplyKeepsBounds(v: SymbolView, call: EngineCall, tradeLimit: nat, candleLimit: nat)
    requires Bounded(v, tradeLimit, candleLimit)
    ensures Bounded(ApplyToSymbol(v, call, tradeLimit, candleLimit), tradeLimit, candleLimit)
  {
    if call.LoadHistoricalCandles? {
      LoadCandlesBounded(v.candles, call.candles, candleLimit);
    }
  }

  /** ... and so every call keeps every queue of every symbol within its bound. */
  lemma StepKeepsBounds(reg: Registry, call: EngineCall, tradeLimit: nat, candleLimit: nat)
    requires forall s :: s in reg ==> Bounded(reg[s], tradeLimit, candleLimit)
    ensures forall s :: s in Step(reg, call, tradeLimit, candleLimit) ==>
      Bounded(Step(reg, call, tradeLimit, candleLimit)[s], tradeLimit, candleLimit)
  {
    ApplyKeepsBounds(Lookup(reg, call.symbol), call, tradeLimit, candleLimit);
  }

  // ---------------------------------------------------------------------------------------------
  // Histories of calls
  // ---------------------------------------------------------------------------------------------

  /** The registry after the calls, applied in order, to `reg`. */
  function ApplyAll(reg: Registry, calls: seq<EngineCall>, tradeLimit: nat, candleLimit: nat): Registry {
    if calls == [] then reg
    else Step(ApplyAll(reg, calls[..|calls| - 1], tradeLimit, candleLimit), calls[|calls| - 1], tradeLimit, candleLimit)
  }

  /** The trades `add_trade` received for `symbol`, in call order. */
  function TradesFor(calls: seq<EngineCall>, symbol: string): seq<Trade> {
    if calls == [] then []
    else
      var c := calls[|calls| - 1];
      TradesFor(calls[..|calls| - 1], symbol) + (if c.AddTrade? && c.symbol == symbol then [c.trade] else [])
  }

  function AggTradesFor(calls: seq<EngineCall>, symbol: string): seq<AggTrade> {
    if calls == [] then []
    else
      var c := calls[|calls| - 1];
      AggTradesFor(calls[..|calls| - 1], symbol) + (if c.AddAggTrade? && c.symbol == symbol then [c.aggTrade] else [])
  }

  function LiquidationsFor(calls: seq<EngineCall>, symbol: string): seq<Liquidation> {
    if calls == [] then []
    else
      var c := calls[|calls| - 1];
      LiquidationsFor(calls[..|calls| - 1], symbol) + (if c.AddLiquidation? && c.symbol == symbol then [c.liquidation] else [])
  }

  /** One more call, seen from the three bounded queues of a symbol and from the items added. */
  lemma ApplyAllQueues(calls: seq<EngineCall>, symbol: string, tradeLimit: nat, candleLimit: nat)
    requires calls != []
    ensures var prefix := calls[..|calls| - 1];
      var c := calls[|calls| - 1];
      var before := Lookup(ApplyAll(map[], prefix, tradeLimit, candleLimit), symbol);
      var after := Lookup(ApplyAll(map[], calls, tradeLimit, candleLimit), symbol);
      var own := c.symbol == symbol;
      && after.trades == (if c.AddTrade? && own then BoundedPush(before.trades, c.trade, tradeLimit) else before.trades)
      && after.aggTrades == (if c.AddAggTrade? && own then BoundedPush(before.aggTrades, c.aggTrade, tradeLimit) else before.aggTrades)
      && after.liquidations == (if c.AddLiquidation? && own then BoundedPush(before.liquidations, c.liquidation, tradeLimit) else before.liquidations)
      && TradesFor(calls, symbol) == TradesFor(prefix, symbol) + (if c.AddTrade? && own then [c.trade] else [])
      && AggTradesFor(calls, symbol) == AggTradesFor(prefix, symbol) + (if c.AddAggTrade? && own then [c.aggTrade] else [])
      && LiquidationsFor(calls, symbol) == LiquidationsFor(prefix, symbol) + (if c.AddLiquidation? && own then [c.liquidation] else [])
  {
    var prefix := calls[..|calls| - 1];
    StepQueues(ApplyAll(map[], prefix, tradeLimit, candleLimit), calls[|calls| - 1], symbol, tradeLimit, candleLimit);
  }

  /** After any sequence of calls from an empty registry, a symbol's trade queue holds exactly the
      newest max(trade_limit, 1) trades added for it, oldest first. */
  lemma {:induction false} TradesAreNewest(calls: seq<EngineCall>, symbol: string, tradeLimit: nat, candleLimit: nat)
    ensures Lookup(ApplyAll(map[], calls, tradeLimit, candleLimit), symbol).trades
         == Last(TradesFor(calls, symbol), Cap(tradeLimit))
  {
    if calls != [] {
      var prefix := calls[..|calls| - 1];
      var c := calls[|calls| - 1];
      var before := Lookup(ApplyAll(map[], prefix, tradeLimit, candleLimit), symbol);
      var after := Lookup(ApplyAll(map[], calls, tradeLimit, candleLimit), symbol);
      var h, h' := TradesFor(prefix, symbol), TradesFor(calls, symbol);
      assert before.trades == Last(h, Cap(tradeLimit)) by {
        TradesAreNewest(prefix, symbol, tradeLimit, candleLimit);
      }
      assert after.trades == (if c.AddTrade? && c.symbol == symbol then BoundedPush(before.trades, c.trade, tradeLimit) else before.trades)
          && h' == h + (if c.AddTrade? && c.symbol == symbol then [c.trade] else []) by {
        ApplyAllQueues(calls, symbol, tradeLimit, candleLimit);
      }
      if c.AddTrade? && c.symbol == symbol {
        BoundedPushKeepsNewest(h, before.trades, c.trade, tradeLimit);
      }
    }
  }

  lemma {:induction false} AggTradesAreNewest(calls: seq<EngineCall>, symbol: string, tradeLimit: nat, candleLimit: nat)
    ensures Lookup(ApplyAll(map[], calls, tradeLimit, candleLimit), symbol).aggTrades
         == Last(AggTradesFor(calls, symbol), Cap(tradeLimit))
  {
    if calls != [] {
      var prefix := calls[..|calls| - 1];
      var c := calls[|calls| - 1];
      var before := Lookup(ApplyAll(map[], prefix, tradeLimit, candleLimit), symbol);
      var after := Lookup(ApplyAll(map[], calls, tradeLimit, candleLimit), symbol);
      var h, h' := AggTradesFor(prefix, symbol), AggTradesFor(calls, symbol);
      assert before.aggTrades == Last(h, Cap(tradeLimit)) by {
        AggTradesAreNewest(prefix, symbol, tradeLimit, candleLimit);
      }
      assert after.aggTrades == (if c.AddAggTrade? && c.symbol == symbol then BoundedPush(before.aggTrades, c.aggTrade, tradeLimit) else before.aggTrades)
          && h' == h + (if c.AddAggTrade? && c.symbol == symbol then [c.aggTrade] else []) by {
        ApplyAllQueues(calls, symbol, tradeLimit, candleLimit);
      }
      if c.AddAggTrade? && c.symbol == symbol {
        BoundedPushKeepsNewest(h, before.aggTrades, c.aggTrade, tradeLimit);
      }
    }
  }

  lemma {:induction false} LiquidationsAreNewest(calls: seq<EngineCall>, symbol: string, tradeLimit: nat, candleLimit: nat)
    ensures Lookup(ApplyAll(map[], calls, tradeLimit, candleLimit), symbol).liquidations
         == Last(LiquidationsFor(calls, symbol), Cap(tradeLimit))
  {
    if calls != [] {
      var prefix := calls[..|calls| - 1];
      var c := calls[|calls| - 1];
      var before := Lookup(ApplyAll(map[], prefix, tradeLimit, candleLimit), symbol);
      var after := Lookup(ApplyAll(map[], calls, tradeLimit, candleLimit), symbol);
      var h, h' := LiquidationsFor(prefix, symbol), LiquidationsFor(calls, symbol);
      assert before.liquidations == Last(h, Cap(tradeLimit)) by {
        LiquidationsAreNewest(prefix, symbol, tradeLimit, candleLimit);
      }
      assert after.liquidations == (if c.AddLiquidation? && c.symbol == symbol then BoundedPush(before.liquidations, c.liquidation, tradeLimit) else before.liquidations)
          && h' == h + (if c.AddLiquidation? && c.symbol == symbol then [c.liquidation] else []) by {
        ApplyAllQueues(calls, symbol, tradeLimit, candleLimit);
      }
      if c.AddLiquidation? && c.symbol == symbol {
        BoundedPushKeepsNewest(h, before.liquidations, c.liquidation, tradeLimit);
      }
    }
  }

  /** The book of the last `update_order_book` for `symbol`, or `prior` if there was none. */
  function LastBook(calls: seq<EngineCall>, symbol: string, prior: Option<OrderBook>): Option<OrderBook> {
    if calls == [] then prior
    else
      var c := calls[|calls| - 1];
      if c.UpdateOrderBook? && c.symbol == symbol then Some(c.book)
      else LastBook(calls[..|calls| - 1], symbol, prior)
  }

  /** The order-book slot holds the last book written for the symbol, whatever its contents or update
      id, and nothing (`None`) for a symbol no book was written for. */
  lemma {:induction false} LastBookWins(reg: Registry, calls: seq<EngineCall>, symbol: string, tradeLimit: nat, candleLimit: nat)
    ensures Lookup(ApplyAll(reg, calls, tradeLimit, candleLimit), symbol).orderBook
         == LastBook(calls, symbol, Lookup(reg, symbol).orderBook)
  {
    if calls != [] {
      LastBookWins(reg, calls[..|calls| - 1], symbol, tradeLimit, candleLimit);
    }
  }

  /** A symbol never named by a call is never created. */
  lemma {:induction false} UnnamedSymbolAbsent(calls: seq<EngineCall>, symbol: string, tradeLimit: nat, candleLimit: nat)
    requires forall i :: 0 <= i < |calls| ==> calls[i].symbol != symbol
    ensures symbol !in ApplyAll(map[], calls, tradeLimit, candleLimit)
  {
    if calls != [] {
      UnnamedSymbolAbsent(calls[..|calls| - 1], symbol, tradeLimit, candleLimit);
    }
  }

  /** No validation: a newer book with a smaller update id and crossed prices still replaces the
      stored one. */
  lemma StaleCrossedBookAccepted(reg: Registry, symbol: string, tradeLimit: nat, candleLimit: nat)
    requires Lookup(reg, symbol).orderBook == Some(OrderBook(symbol, [PriceLevel(1.0, 1.0)], [PriceLevel(2.0, 1.0)], 10))
    ensures var stale := OrderBook(symbol, [PriceLevel(3.0, 1.0)], [PriceLevel(2.0, 1.0)], 9);
      Step(reg, UpdateOrderBook(symbol, stale), tradeLimit, candleLimit)[symbol].orderBook == Some(stale)
  {
  }

  // ---------------------------------------------------------------------------------------------
  // Historical load and history query
  // ---------------------------------------------------------------------------------------------

  /** The loader evicts by arrival order, not by time: with a limit of 1, a history delivered newest
      first keeps only its oldest candle. */
  lemma LoadEvictsByArrival(c1: Candle, c2: Candle)
    requires c1.interval == c2.interval && c1.startTime < c2.startTime
    ensures LoadCandles(map[], [c2, c1], 1) == map[c1.interval := [c1]]
  {
    var i := c1.interval;
    assert [c2, c1][..1] == [c2];
    assert [c2][..0] == [];
    var empty: map<string, seq<Candle>> := map[];
    assert LoadCandles(empty, [], 1) == empty;
    assert Queue(empty, i) == [];
    var first := LoadCandles(empty, [c2], 1);
    assert first == empty[i := Last([] + [c2], 1)];
    assert Last([c2], 1) == [c2];
    assert Queue(first, i) + [c1] == [c2, c1];
    assert Last([c2, c1], 1) == [c1];
  }

  /** The candles of `queue` that started before `endTime`, in order. */
  function Before(queue: seq<Candle>, endTime: int): (r: seq<Candle>)
    ensures forall x :: x in r <==> x in queue && x.startTime < endTime
    ensures |r| <= |queue|
  {
    if queue == [] then []
    else (if queue[0].startTime < endTime then [queue[0]] else []) + Before(queue[1..], endTime)
  }

  /** The queues named by `order`, each filtered by `Before`, concatenated in that order. */
  function Gather(m: map<string, seq<Candle>>, order: seq<string>, endTime: int): seq<Candle> {
    if order == [] then []
    else Gather(m, order[..|order| - 1], endTime) + Before(Queue(m, order[|order| - 1]), endTime)
  }

  /** The queues named by `order`, concatenated unfiltered (`get_recent_candles`). */
  function Concat(m: map<string, seq<Candle>>, order: seq<string>): seq<Candle> {
    if order == [] then []
    else Concat(m, order[..|order| - 1]) + Queue(m, order[|order| - 1])
  }

  /** `order` lists the keys of a map, each once, in the map's (unspecified) iteration order. */
  ghost predicate IsKeyOrder(order: seq<string>, keys: set<string>) {
    && (forall i, j :: 0 <= i < j < |order| ==> order[i] != order[j])
    && (forall k :: k in order <==> k in keys)
  }

  lemma {:induction false} GatherMembers(m: map<string, seq<Candle>>, order: seq<string>, endTime: int, x: Candle)
    ensures x in Gather(m, order, endTime) <==> x.startTime < endTime && exists k :: k in order && k in m && x in m[k]
  {
    if order != [] {
      var prefix := order[..|order| - 1];
      var k := order[|order| - 1];
      GatherMembers(m, prefix, endTime, x);
      assert order == prefix + [k];
      if x.startTime < endTime && x in Queue(m, k) {
        assert k in order;
      }
      if exists k' :: k' in order && k' in m && x in m[k'] {
        var k' :| k' in order && k' in m && x in m[k'];
        if k' != k {
          assert k' in prefix;
        }
      }
    }
  }

  lemma {:induction false} ConcatMembers(m: map<string, seq<Candle>>, order: seq<string>, x: Candle)
    ensures x in Concat(m, order) <==> exists k :: k in order && k in m && x in m[k]
  {
    if order != [] {
      var prefix := order[..|order| - 1];
      var k := order[|order| - 1];
      ConcatMembers(m, prefix, x);
      assert order == prefix + [k];
      if x in Queue(m, k) {
        assert k in order;
      }
      if exists k' :: k' in order && k' in m && x in m[k'] {
        var k' :| k' in order && k' in m && x in m[k'];
        if k' != k {
          assert k' in prefix;
        }
      }
    }
  }

  /** `get_history` on one symbol's candle map. */
  function History(m: map<string, seq<Candle>>, order: seq<string>, endTime: int, limit: nat): seq<Candle> {
    Last(SortByStart(Gather(m, order, endTime)), limit)
  }

  lemma LastOfSorted(s: seq<Candle>, n: nat)
    requires SortedByStart(s)
    ensures SortedByStart(Last(s, n))
  {
    var r := Last(s, n);
    forall i, j | 0 <= i < j < |r| ensures r[i].startTime <= r[j].startTime {
      assert r[i] == s[|s| - |r| + i] && r[j] == s[|s| - |r| + j];
    }
  }

  /** What `get_history` returns is sorted by start time and holds at most `limit` candles. */
  lemma HistorySortedAndBounded(m: map<string, seq<Candle>>, order: seq<string>, endTime: int, limit: nat)
    ensures SortedByStart(History(m, order, endTime, limit))
    ensures |History(m, order, endTime, limit)| <= limit
  {
    var sorted := SortByStart(Gather(m, order, endTime));
    SortIsSorted(Gather(m, order, endTime));
    LastOfSorted(sorted, limit);
  }

  /** Every candle `get_history` returns belongs to one of the symbol's interval queues and started
      before `end_time`. */
  lemma HistoryMembers(m: map<string, seq<Candle>>, order: seq<string>, endTime: int, limit: nat, x: Candle)
    requires x in History(m, order, endTime, limit)
    ensures x.startTime < endTime
    ensures exists k :: k in m && x in m[k]
  {
    var g := Gather(m, order, endTime);
    var sorted := SortByStart(g);
    var r := Last(sorted, limit);
    assert x in r;
    assert x in sorted by {
      var i :| 0 <= i < |r| && r[i] == x;
      assert r[i] == sorted[|sorted| - |r| + i];
    }
    assert x in g by {
      assert x in multiset(sorted);
    }
    GatherMembers(m, order, endTime, x);
  }

  /** With no more than `limit` qualifying candles, `get_history` returns all of them, duplicates
      included, from every interval of the symbol. */
  lemma HistoryComplete(m: map<string, seq<Candle>>, order: seq<string>, endTime: int, limit: nat, x: Candle)
    requires IsKeyOrder(order, m.Keys)
    requires |Gather(m, order, endTime)| <= limit
    ensures multiset(History(m, order, endTime, limit)) == multiset(Gather(m, order, endTime))
    ensures x in History(m, order, endTime, limit) <==> x.startTime < endTime && exists k :: k in m && x in m[k]
  {
    var g := Gather(m, order, endTime);
    assert History(m, order, endTime, limit) == SortByStart(g);
    GatherMembers(m, order, endTime, x);
    assert x in SortByStart(g) <==> x in multiset(SortByStart(g));
    assert x in g <==> x in multiset(g);
  }

  /** Duplicates are kept: a candle loaded twice into a queue comes back twice. */
  lemma HistoryKeepsDuplicates(c: Candle)
    requires c.startTime < 100
    ensures History(map["1m" := [c, c]], ["1m"], 100, 10) == [c, c]
  {
    var m := map["1m" := [c, c]];
    assert ["1m"][..0] == [];
    assert Queue(m, "1m") == [c, c];
    assert [c, c][1..] == [c];
    assert Before([c], 100) == [c];
    assert Before([c, c], 100) == [c, c];
    assert Gather(m, [], 100) == [];
    assert Gather(m, ["1m"], 100) == [c, c];
    assert SortByStart([]) == [];
    assert SortByStart([c]) == [c];
    assert SortByStart([c, c]) == InsertByStart(c, [c]) == [c, c];
    assert Last([c, c], 10) == [c, c];
  }
}
