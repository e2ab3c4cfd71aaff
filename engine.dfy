/** The symbol state store of ingestion_engine/src/core/engine.rs as classes updated in place.
    Every mutating method is proved to have exactly the effect `CoreEngineSpec.Step` gives its call
    and to emit the broadcast `Emitted` gives it; the properties of those functions are proved in
    CoreEngineSpec. Locks, `Arc` sharing and the async runtime are not modelled: each call is one
    atomic step. */
module CoreEngine {
  import opened Wrappers
  import opened Numbers
  import opened Models
  import opened Config
  import opened CoreEngineSpec

  /** A registered `DataProcessor`; what its `process` does is not part of this model. */
  type ProcessorId = nat

  /** What the engine does with a broadcast item: hand it to one processor, or send it on the
      broadcast channel. */
  datatype Notice = Processed(processor: ProcessorId, data: MarketData) | Sent(data: MarketData)

  /** `notify_processors`: every processor, in registration order, receives the item. */
  function Notifications(ps: seq<ProcessorId>, d: MarketData): (r: seq<Notice>)
    ensures |r| == |ps|
    ensures forall i :: 0 <= i < |r| ==> r[i] == Processed(ps[i], d)
  {
    if ps == [] then [] else Notifications(ps[..|ps| - 1], d) + [Processed(ps[|ps| - 1], d)]
  }

  /** `broadcast_data`: the processors first, in registration order, then exactly one channel send,
      as the last notice. Serialising any `MarketData` succeeds, so the send always happens. */
  function Broadcast(ps: seq<ProcessorId>, d: MarketData): (r: seq<Notice>)
    ensures |r| == |ps| + 1
    ensures r[|ps|] == Sent(d)
    ensures forall i :: 0 <= i < |ps| ==> r[i] == Processed(ps[i], d)
    ensures forall i :: 0 <= i < |r| ==> r[i].data == d
  {
    Notifications(ps, d) + [Sent(d)]
  }

  /** The notices one engine call produces: one broadcast of its event, none for a historical load. */
  function Emitted(ps: seq<ProcessorId>, call: EngineCall): (r: seq<Notice>)
    ensures call.LoadHistoricalCandles? <==> r == []
    ensures !call.LoadHistoricalCandles? ==> |r| == |ps| + 1 && r[|ps|].Sent?
  {
    match Event(call)
    case None => []
    case Some(d) => Broadcast(ps, d)
  }

  /** The per-symbol state: last-value slots and bounded queues, each behind its own lock in the
      source. `key` is the symbol the state was created for (a modelling aid, not in the source). */
  class SymbolState {
    ghost const key: string
    var orderBook: Option<OrderBook>
    var trades: seq<Trade>
    var aggTrades: seq<AggTrade>
    var candles: map<string, seq<Candle>>
    var ticker: Option<Ticker>
    var bookTicker: Option<BookTicker>
    var markPrice: Option<MarkPrice>
    var liquidations: seq<Liquidation>
    var fundingRate: Option<FundingRate>
    var openInterest: Option<OpenInterest>

    /** `SymbolState::new`: the capacities given there are allocation hints only. */
    constructor (symbol: string)
      ensures key == symbol && View() == EmptySymbol
    {
      key := symbol;
      orderBook := None;
      trades := [];
      aggTrades := [];
      candles := map[];
      ticker := None;
      bookTicker := None;
      markPrice := None;
      liquidations := [];
      fundingRate := None;
      openInterest := None;
    }

    function View(): SymbolView
      reads this
    {
      SymbolView(orderBook, trades, aggTrades, candles, ticker, bookTicker, markPrice, liquidations, fundingRate, openInterest)
    }
  }

  class Engine {
    var registry: map<string, SymbolState>
    var processors: seq<ProcessorId>
    var activeIngestions: set<string>
    /** Everything handed to processors or sent on the broadcast channel, in order. */
    var log: seq<Notice>
    const tradeLimit: nat
    const candleLimit: nat

    /** Each symbol owns its own state object, so writing one symbol's state leaves every other
        symbol's alone. */
    ghost predicate Valid()
      reads this`registry
    {
      forall k :: k in registry ==> registry[k].key == k
    }

    /** The state of `symbol` as a value; a symbol not in the registry reads as empty. */
    ghost function ViewOf(symbol: string): SymbolView
      reads this`registry, registry.Values
    {
      if symbol in registry then registry[symbol].View() else EmptySymbol
    }

    /** The one state object a call for `symbol` may write. */
    ghost function ObjectOf(symbol: string): set<SymbolState>
      reads this`registry
    {
      if symbol in registry then {registry[symbol]} else {}
    }

    /** The registry gained `symbol` (with a fresh state if it was new) and nothing else; every
        other symbol keeps its state object. */
    twostate predicate Grows(symbol: string)
      reads this
    {
      && registry.Keys == old(registry).Keys + {symbol}
      && (forall k :: k in old(registry) ==> registry[k] == old(registry)[k])
      && (symbol !in old(registry) ==> fresh(registry[symbol]))
    }

    /** `Engine::new`: empty registry, no processors, no ingestion, limits from the settings. The
        broadcast channel's capacity is not modelled. */
    constructor (config: AppConfig)
      ensures Valid() && registry == map[]
      ensures processors == [] && activeIngestions == {} && log == []
      ensures tradeLimit == config.tradeHistoryLimit && candleLimit == config.candleHistoryLimit
    {
      registry := map[];
      processors := [];
      activeIngestions := {};
      log := [];
      tradeLimit := config.tradeHistoryLimit;
      candleLimit := config.candleHistoryLimit;
    }

    /** `register_processor`: appended, so processors are notified in registration order. */
    method RegisterProcessor(p: ProcessorId)
      modifies this`processors
      ensures processors == old(processors) + [p]
    {
      processors := processors + [p];
    }

    /** `get_or_create_symbol`: the existing state, or a fresh empty one inserted under `symbol`. */
    method GetOrCreateSymbol(symbol: string) returns (st: SymbolState)
      requires Valid()
      modifies this`registry
      ensures Valid() && Grows(symbol)
      ensures symbol in registry && registry[symbol] == st
      ensures st.View() == old(ViewOf(symbol))
    {
      if symbol in registry {
        st := registry[symbol];
        return;
      }
      st := new SymbolState(symbol);
      registry := registry[symbol := st];
    }

    /** `notify_processors`. */
    method NotifyProcessors(d: MarketData)
      modifies this`log
      ensures log == old(log) + Notifications(processors, d)
    {
      for i := 0 to |processors|
        invariant log == old(log) + Notifications(processors[..i], d)
      {
        assert processors[..i + 1][..i] == processors[..i];
        log := log + [Processed(processors[i], d)];
      }
      assert processors[..|processors|] == processors;
    }

    /** `broadcast_data`. */
    method BroadcastData(d: MarketData)
      modifies this`log
      ensures log == old(log) + Broadcast(processors, d)
    {
      NotifyProcessors(d);
      log := log + [Sent(d)];
    }

    /** `update_order_book`: the slot is overwritten; the book is not checked in any way. */
    method UpdateOrderBook(symbol: string, book: OrderBook)
      requires Valid()
      modifies this`registry, this`log, ObjectOf(symbol)
      ensures Valid() && Grows(symbol)
      ensures ViewOf(symbol) == ApplyToSymbol(old(ViewOf(symbol)), EngineCall.UpdateOrderBook(symbol, book), tradeLimit, candleLimit)
      ensures log == old(log) + Broadcast(processors, OrderBookMsg(book))
    {
      var st := GetOrCreateSymbol(symbol);
      st.orderBook := Some(book);
      BroadcastData(OrderBookMsg(book));
    }

    /** `add_trade`: pop the front when the queue already holds `trade_limit` trades, then push at the back. */
    method AddTrade(symbol: string, trade: Trade)
      requires Valid()
      modifies this`registry, this`log, ObjectOf(symbol)
      ensures Valid() && Grows(symbol)
      ensures ViewOf(symbol) == ApplyToSymbol(old(ViewOf(symbol)), EngineCall.AddTrade(symbol, trade), tradeLimit, candleLimit)
      ensures log == old(log) + Broadcast(processors, TradeMsg(trade))
    {
      var st := GetOrCreateSymbol(symbol);
      if |st.trades| >= tradeLimit {
        st.trades := PopFront(st.trades);
      }
      st.trades := st.trades + [trade];
      BroadcastData(TradeMsg(trade));
    }

    /** `add_agg_trade`: bounded by the trade limit like `add_trade`. */
    method AddAggTrade(symbol: string, trade: AggTrade)
      requires Valid()
      modifies this`registry, this`log, ObjectOf(symbol)
      ensures Valid() && Grows(symbol)
      ensures ViewOf(symbol) == ApplyToSymbol(old(ViewOf(symbol)), EngineCall.AddAggTrade(symbol, trade), tradeLimit, candleLimit)
      ensures log == old(log) + Broadcast(processors, AggTradeMsg(trade))
    {
      var st := GetOrCreateSymbol(symbol);
      if |st.aggTrades| >= tradeLimit {
        st.aggTrades := PopFront(st.aggTrades);
      }
      st.aggTrades := st.aggTrades + [trade];
      BroadcastData(AggTradeMsg(trade));
    }

    /** `add_candle`: the interval's queue is created on first use, then bounded by `candle_limit`. */
    method AddCandle(symbol: string, candle: Candle)
      requires Valid()
      modifies this`registry, this`log, ObjectOf(symbol)
      ensures Valid() && Grows(symbol)
      ensures ViewOf(symbol) == ApplyToSymbol(old(ViewOf(symbol)), EngineCall.AddCandle(symbol, candle), tradeLimit, candleLimit)
      ensures log == old(log) + Broadcast(processors, CandleMsg(candle))
    {
      var st := GetOrCreateSymbol(symbol);
      var queue := if candle.interval in st.candles then st.candles[candle.interval] else [];
      if |queue| >= candleLimit {
        queue := PopFront(queue);
      }
      queue := queue + [candle];
      st.candles := st.candles[candle.interval := queue];
      BroadcastData(CandleMsg(candle));
    }

    /** The loading loop of `load_historical_candles`: each candle is pushed at the back of its
        interval's queue (created on first use), which is then trimmed from the front to
        `candle_limit`. */
    method PushCandles(m: map<string, seq<Candle>>, candles: seq<Candle>) returns (r: map<string, seq<Candle>>)
      ensures r == LoadCandles(m, candles, candleLimit)
    {
      r := m;
      for i := 0 to |candles|
        invariant r == LoadCandles(m, candles[..i], candleLimit)
      {
        var c := candles[i];
        var queue := TrimFront(Queue(r, c.interval) + [c]);
        LoadCandlesStep(m, candles, i, candleLimit);
        r := r[c.interval := queue];
      }
      assert candles[..|candles|] == candles;
    }

    /** The trimming loop of `load_historical_candles`: drop from the front while the queue is
        longer than `candle_limit`. */
    method TrimFront(q: seq<Candle>) returns (r: seq<Candle>)
      ensures r == Last(q, candleLimit)
    {
      r := q;
      while |r| > candleLimit
        invariant |r| >= Min(|q|, candleLimit)
        invariant r == q[|q| - |r|..]
      {
        r := r[1..];
      }
    }

    /** The sorting loop of `load_historical_candles`: every queue is stably sorted by start time. */
    method SortQueues(m: map<string, seq<Candle>>) returns (r: map<string, seq<Candle>>)
      ensures r == SortAll(m)
    {
      r := m;
      var keys := m.Keys;
      while keys != {}
        invariant keys <= m.Keys && r.Keys == m.Keys
        invariant forall k :: k in m ==> r[k] == if k in keys then m[k] else SortByStart(m[k])
        decreases |keys|
      {
        var k :| k in keys;
        r := r[k := SortByStart(r[k])];
        keys := keys - {k};
      }
    }

    /** `load_historical_candles`: nothing at all for an empty batch (the symbol is not even
        created); otherwise each candle is pushed on its interval's queue, which is trimmed from the
        front to `candle_limit`, and finally every queue of the symbol is sorted by start time.
        Nothing is broadcast. */
    method LoadHistoricalCandles(symbol: string, candles: seq<Candle>)
      requires Valid()
      modifies this`registry, ObjectOf(symbol)
      ensures Valid()
      ensures candles == [] ==> registry == old(registry) && ViewOf(symbol) == old(ViewOf(symbol))
      ensures candles != [] ==> Grows(symbol)
      ensures candles != [] ==>
        ViewOf(symbol) == ApplyToSymbol(old(ViewOf(symbol)), EngineCall.LoadHistoricalCandles(symbol, candles), tradeLimit, candleLimit)
    {
      if |candles| == 0 {
        return;
      }
      var st := GetOrCreateSymbol(symbol);
      var loaded := PushCandles(st.candles, candles);
      st.candles := SortQueues(loaded);
    }

    method UpdateTicker(symbol: string, ticker: Ticker)
      requires Valid()
      modifies this`registry, this`log, ObjectOf(symbol)
      ensures Valid() && Grows(symbol)
      ensures ViewOf(symbol) == ApplyToSymbol(old(ViewOf(symbol)), EngineCall.UpdateTicker(symbol, ticker), tradeLimit, candleLimit)
      ensures log == old(log) + Broadcast(processors, TickerMsg(ticker))
    {
      var st := GetOrCreateSymbol(symbol);
      st.ticker := Some(ticker);
      BroadcastData(TickerMsg(ticker));
    }

    method UpdateBookTicker(symbol: string, ticker: BookTicker)
      requires Valid()
      modifies this`registry, this`log, ObjectOf(symbol)
      ensures Valid() && Grows(symbol)
      ensures ViewOf(symbol) == ApplyToSymbol(old(ViewOf(symbol)), EngineCall.UpdateBookTicker(symbol, ticker), tradeLimit, candleLimit)
      ensures log == old(log) + Broadcast(processors, BookTickerMsg(ticker))
    {
      var st := GetOrCreateSymbol(symbol);
      st.bookTicker := Some(ticker);
      BroadcastData(BookTickerMsg(ticker));
    }

    method UpdateMarkPrice(symbol: string, price: MarkPrice)
      requires Valid()
      modifies this`registry, this`log, ObjectOf(symbol)
      ensures Valid() && Grows(symbol)
      ensures ViewOf(symbol) == ApplyToSymbol(old(ViewOf(symbol)), EngineCall.UpdateMarkPrice(symbol, price), tradeLimit, candleLimit)
      ensures log == old(log) + Broadcast(processors, MarkPriceMsg(price))
    {
      var st := GetOrCreateSymbol(symbol);
      st.markPrice := Some(price);
      BroadcastData(MarkPriceMsg(price));
    }

    /** `add_liquidation`: bounded by the trade limit. */
    method AddLiquidation(symbol: string, liq: Liquidation)
      requires Valid()
      modifies this`registry, this`log, ObjectOf(symbol)
      ensures Valid() && Grows(symbol)
      ensures ViewOf(symbol) == ApplyToSymbol(old(ViewOf(symbol)), EngineCall.AddLiquidation(symbol, liq), tradeLimit, candleLimit)
      ensures log == old(log) + Broadcast(processors, LiquidationMsg(liq))
    {
      var st := GetOrCreateSymbol(symbol);
      if |st.liquidations| >= tradeLimit {
        st.liquidations := PopFront(st.liquidations);
      }
      st.liquidations := st.liquidations + [liq];
      BroadcastData(LiquidationMsg(liq));
    }

    method UpdateFundingRate(symbol: string, rate: FundingRate)
      requires Valid()
      modifies this`registry, this`log, ObjectOf(symbol)
      ensures Valid() && Grows(symbol)
      ensures ViewOf(symbol) == ApplyToSymbol(old(ViewOf(symbol)), EngineCall.UpdateFundingRate(symbol, rate), tradeLimit, candleLimit)
      ensures log == old(log) + Broadcast(processors, FundingRateMsg(rate))
    {
      var st := GetOrCreateSymbol(symbol);
      st.fundingRate := Some(rate);
      BroadcastData(FundingRateMsg(rate));
    }

    method UpdateOpenInterest(symbol: string, oi: OpenInterest)
      requires Valid()
      modifies this`registry, this`log, ObjectOf(symbol)
      ensures Valid() && Grows(symbol)
      ensures ViewOf(symbol) == ApplyToSymbol(old(ViewOf(symbol)), EngineCall.UpdateOpenInterest(symbol, oi), tradeLimit, candleLimit)
      ensures log == old(log) + Broadcast(processors, OpenInterestMsg(oi))
    {
      var st := GetOrCreateSymbol(symbol);
      st.openInterest := Some(oi);
      BroadcastData(OpenInterestMsg(oi));
    }

    /** Performs any engine call (what a connector's decoded message asks for). */
    method Apply(call: EngineCall)
      requires Valid()
      modifies this`registry, this`log, ObjectOf(call.symbol)
      ensures Valid()
      ensures log == old(log) + Emitted(processors, call)
      ensures call.LoadHistoricalCandles? && call.candles == [] ==> registry == old(registry) && ViewOf(call.symbol) == old(ViewOf(call.symbol))
      ensures !(call.LoadHistoricalCandles? && call.candles == []) ==>
        Grows(call.symbol) && ViewOf(call.symbol) == ApplyToSymbol(old(ViewOf(call.symbol)), call, tradeLimit, candleLimit)
    {
      match call
      case UpdateOrderBook(s, b) => UpdateOrderBook(s, b);
      case AddTrade(s, t) => AddTrade(s, t);
      case AddAggTrade(s, t) => AddAggTrade(s, t);
      case AddCandle(s, c) => AddCandle(s, c);
      case LoadHistoricalCandles(s, cs) => LoadHistoricalCandles(s, cs);
      case UpdateTicker(s, t) => UpdateTicker(s, t);
      case UpdateBookTicker(s, t) => UpdateBookTicker(s, t);
      case UpdateMarkPrice(s, p) => UpdateMarkPrice(s, p);
      case AddLiquidation(s, l) => AddLiquidation(s, l);
      case UpdateFundingRate(s, f) => UpdateFundingRate(s, f);
      case UpdateOpenInterest(s, o) => UpdateOpenInterest(s, o);
    }

    // ------------------------------------------------------------------------------------------
    // Accessors: an unknown symbol reads as `None` or an empty list.
    // ------------------------------------------------------------------------------------------

    method GetOrderBook(symbol: string) returns (r: Option<OrderBook>)
      ensures symbol !in registry ==> r == None
      ensures r == ViewOf(symbol).orderBook
    {
      if symbol in registry {
        r := registry[symbol].orderBook;
      } else {
        r := None;
      }
    }

    method GetTicker(symbol: string) returns (r: Option<Ticker>)
      ensures symbol !in registry ==> r == None
      ensures r == ViewOf(symbol).ticker
    {
      if symbol in registry {
        r := registry[symbol].ticker;
      } else {
        r := None;
      }
    }

    method GetBookTicker(symbol: string) returns (r: Option<BookTicker>)
      ensures symbol !in registry ==> r == None
      ensures r == ViewOf(symbol).bookTicker
    {
      if symbol in registry {
        r := registry[symbol].bookTicker;
      } else {
        r := None;
      }
    }

    method GetMarkPrice(symbol: string) returns (r: Option<MarkPrice>)
      ensures symbol !in registry ==> r == None
      ensures r == ViewOf(symbol).markPrice
    {
      if symbol in registry {
        r := registry[symbol].markPrice;
      } else {
        r := None;
      }
    }

    method GetFundingRate(symbol: string) returns (r: Option<FundingRate>)
      ensures symbol !in registry ==> r == None
      ensures r == ViewOf(symbol).fundingRate
    {
      if symbol in registry {
        r := registry[symbol].fundingRate;
      } else {
        r := None;
      }
    }

    method GetOpenInterest(symbol: string) returns (r: Option<OpenInterest>)
      ensures symbol !in registry ==> r == None
      ensures r == ViewOf(symbol).openInterest
    {
      if symbol in registry {
        r := registry[symbol].openInterest;
      } else {
        r := None;
      }
    }

    method GetRecentTrades(symbol: string) returns (r: seq<Trade>)
      ensures symbol !in registry ==> r == []
      ensures r == ViewOf(symbol).trades
    {
      if symbol in registry {
        r := registry[symbol].trades;
      } else {
        r := [];
      }
    }

    method GetRecentAggTrades(symbol: string) returns (r: seq<AggTrade>)
      ensures symbol !in registry ==> r == []
      ensures r == ViewOf(symbol).aggTrades
    {
      if symbol in registry {
        r := registry[symbol].aggTrades;
      } else {
        r := [];
      }
    }

    method GetRecentLiquidations(symbol: string) returns (r: seq<Liquidation>)
      ensures symbol !in registry ==> r == []
      ensures r == ViewOf(symbol).liquidations
    {
      if symbol in registry {
        r := registry[symbol].liquidations;
      } else {
        r := [];
      }
    }

    /** `get_recent_candles`: every interval's queue, concatenated in the map's iteration order,
        which `order` records. */
    method GetRecentCandles(symbol: string) returns (r: seq<Candle>, ghost order: seq<string>)
      ensures symbol !in registry ==> r == []
      ensures IsKeyOrder(order, ViewOf(symbol).candles.Keys)
      ensures r == Concat(ViewOf(symbol).candles, order)
    {
      r := [];
      order := [];
      if symbol !in registry {
        return;
      }
      var m := registry[symbol].candles;
      var keys := m.Keys;
      while keys != {}
        invariant keys <= m.Keys
        invariant forall i, j :: 0 <= i < j < |order| ==> order[i] != order[j]
        invariant forall k :: k in order <==> k in m.Keys && k !in keys
        invariant r == Concat(m, order)
        decreases |keys|
      {
        var k :| k in keys;
        r := r + m[k];
        order := order + [k];
        keys := keys - {k};
      }
    }

    /** `get_history`: candles of all intervals that started before `endTime`, gathered in the map's
        iteration order, sorted by start time, of which the last `limit` are kept. */
    method GetHistory(symbol: string, endTime: U64, limit: nat) returns (r: seq<Candle>, ghost order: seq<string>)
      ensures symbol !in registry ==> r == []
      ensures IsKeyOrder(order, ViewOf(symbol).candles.Keys)
      ensures r == History(ViewOf(symbol).candles, order, endTime, limit)
    {
      r := [];
      order := [];
      if symbol !in registry {
        return;
      }
      var gathered;
      gathered, order := GatherBefore(registry[symbol].candles, endTime);
      r := SortByStart(gathered);
      if |r| > limit {
        r := r[|r| - limit..];
      }
    }

    /** The loop of `get_history`: each interval's queue filtered by the end time, appended in the
        map's iteration order. */
    static method GatherBefore(m: map<string, seq<Candle>>, endTime: U64) returns (r: seq<Candle>, order: seq<string>)
      ensures IsKeyOrder(order, m.Keys)
      ensures r == Gather(m, order, endTime)
    {
      r := [];
      order := [];
      var keys := m.Keys;
      while keys != {}
        invariant keys <= m.Keys
        invariant forall i, j :: 0 <= i < j < |order| ==> order[i] != order[j]
        invariant forall k :: k in order <==> k in m.Keys && k !in keys
        invariant r == Gather(m, order, endTime)
        decreases |keys|
      {
        var k :| k in keys;
        var filtered := Before(m[k], endTime);
        r := r + filtered;
        order := order + [k];
        keys := keys - {k};
      }
    }

    /** `request_ingestion`: `HashSet::insert`, true exactly when the id was not yet registered. */
    method RequestIngestion(id: string) returns (r: bool)
      modifies this`activeIngestions
      ensures r <==> id !in old(activeIngestions)
      ensures activeIngestions == old(activeIngestions) + {id}
    {
      r := id !in activeIngestions;
      activeIngestions := activeIngestions + {id};
    }
  }
}
