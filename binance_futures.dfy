/** The Binance connector of the current engine (ingestion_engine/src/connectors/binance.rs): it
    picks the WebSocket base for the market, subscribes to the selected streams of one symbol on a
    combined-stream URL, reconnects with capped backoff, and turns each text frame into engine
    calls keyed by the instrument's unique id. `serde_json::from_str` for each wire struct is a
    decoder parameter; `str::parse::<f64>` is the `FloatParser` parameter. */
module FuturesConnector {
  import opened Wrappers
  import opened Numbers
  import opened Text
  import opened Models
  import opened Config
  import opened Upstream
  import opened CoreEngineSpec

  // ---------------------------------------------------------------------------------------------
  // Wire structs (the fields serde reads; prices and quantities arrive as text)
  // ---------------------------------------------------------------------------------------------

  datatype TradeWire = TradeWire(id: U64, price: string, quantity: string, timestamp: U64, isBuyerMaker: bool)

  datatype AggTradeWire = AggTradeWire(
    id: U64, price: string, quantity: string, timestamp: U64, isBuyerMaker: bool,
    firstTradeId: U64, lastTradeId: U64)

  /** A depth message; `u` (the final update id of a diff) is optional. */
  datatype DepthWire = DepthWire(
    lastUpdateId: U64, finalUpdateId: Option<U64>, bids: seq<(string, string)>, asks: seq<(string, string)>)

  /** The `k` object of a kline message. */
  datatype KlineWire = KlineWire(
    startTime: U64, closeTime: U64, open: string, close: string, high: string, low: string,
    volume: string, isClosed: bool, interval: string)

  datatype TickerWire = TickerWire(
    priceChange: string, priceChangePercent: string, lastPrice: string, openPrice: string,
    highPrice: string, lowPrice: string, volume: string, quoteVolume: string, eventTime: U64)

  datatype BookTickerWire = BookTickerWire(bestBidPrice: string, bestBidQty: string, bestAskPrice: string, bestAskQty: string)

  datatype MarkPriceWire = MarkPriceWire(markPrice: string, indexPrice: string, fundingRate: string, nextFundingTime: U64)

  /** The `o` object of a liquidation message. */
  datatype ForceOrderWire = ForceOrderWire(side: string, price: string, quantity: string)

  /** `serde_json::from_str` for each wire struct: `None` when the text does not decode. */
  datatype Decoders = Decoders(
    trade: string -> Option<TradeWire>,
    depth: string -> Option<DepthWire>,
    kline: string -> Option<KlineWire>,
    aggTrade: string -> Option<AggTradeWire>,
    ticker: string -> Option<TickerWire>,
    bookTicker: string -> Option<BookTickerWire>,
    markPrice: string -> Option<MarkPriceWire>,
    forceOrder: string -> Option<ForceOrderWire>)

  /** The `serde_json::Error` a handler returns. */
  datatype DecodeError = DecodeError

  /** The order of the handler's tests. */
  const HandlerOrder: seq<EventKind> :=
    [TradeEvent, DepthEvent, KlineEvent, AggTradeEvent, TickerEvent, BookTickerEvent, MarkPriceEvent, ForceOrderEvent]

  /** Whether the decoder for `k` accepts the text. */
  predicate Decodes(dec: Decoders, k: EventKind, text: string) {
    match k
    case TradeEvent => dec.trade(text).Some?
    case DepthEvent => dec.depth(text).Some?
    case KlineEvent => dec.kline(text).Some?
    case AggTradeEvent => dec.aggTrade(text).Some?
    case TickerEvent => dec.ticker(text).Some?
    case BookTickerEvent => dec.bookTicker(text).Some?
    case MarkPriceEvent => dec.markPrice(text).Some?
    case ForceOrderEvent => dec.forceOrder(text).Some?
  }

  /** A liquidation order's side: exactly `"SELL"` is a sell, anything else a buy. */
  function LiquidationSide(side: string): (s: TradeSide)
    ensures s == Sell <==> side == "SELL"
  {
    if side == "SELL" then Sell else Buy
  }

  // ---------------------------------------------------------------------------------------------
  // handle_message
  // ---------------------------------------------------------------------------------------------

  function TradeCalls(dec: Decoders, num: FloatParser, uid: string, text: string): Result<seq<EngineCall>, DecodeError> {
    match dec.trade(text)
    case None => Err(DecodeError)
    case Some(ev) =>
      Ok([AddTrade(uid, Trade(ev.id, uid, ParseOrZero(num, ev.price), ParseOrZero(num, ev.quantity),
                              ev.timestamp, TakerSide(ev.isBuyerMaker)))])
  }

  /** The book's update id is `u` when present, else `lastUpdateId`. */
  function DepthCalls(dec: Decoders, num: FloatParser, uid: string, text: string): Result<seq<EngineCall>, DecodeError> {
    match dec.depth(text)
    case None => Err(DecodeError)
    case Some(ev) =>
      Ok([UpdateOrderBook(uid, OrderBook(uid, ParseRawLevels(num, ev.bids), ParseRawLevels(num, ev.asks),
                                         ev.finalUpdateId.GetOr(ev.lastUpdateId)))])
  }

  function KlineCalls(dec: Decoders, num: FloatParser, uid: string, text: string): Result<seq<EngineCall>, DecodeError> {
    match dec.kline(text)
    case None => Err(DecodeError)
    case Some(k) =>
      Ok([AddCandle(uid, Candle(uid, k.interval, ParseOrZero(num, k.open), ParseOrZero(num, k.high),
                                ParseOrZero(num, k.low), ParseOrZero(num, k.close), ParseOrZero(num, k.volume),
                                k.startTime, k.closeTime, k.isClosed))])
  }

  function AggTradeCalls(dec: Decoders, num: FloatParser, uid: string, text: string): Result<seq<EngineCall>, DecodeError> {
    match dec.aggTrade(text)
    case None => Err(DecodeError)
    case Some(ev) =>
      Ok([AddAggTrade(uid, AggTrade(ev.id, uid, ParseOrZero(num, ev.price), ParseOrZero(num, ev.quantity),
                                    ev.timestamp, TakerSide(ev.isBuyerMaker), ev.firstTradeId, ev.lastTradeId))])
  }

  function TickerCalls(dec: Decoders, num: FloatParser, uid: string, text: string): Result<seq<EngineCall>, DecodeError> {
    match dec.ticker(text)
    case None => Err(DecodeError)
    case Some(ev) =>
      Ok([UpdateTicker(uid, Ticker(uid, ParseOrZero(num, ev.priceChange), ParseOrZero(num, ev.priceChangePercent),
                                   ParseOrZero(num, ev.lastPrice), ParseOrZero(num, ev.openPrice),
                                   ParseOrZero(num, ev.highPrice), ParseOrZero(num, ev.lowPrice),
                                   ParseOrZero(num, ev.volume), ParseOrZero(num, ev.quoteVolume), ev.eventTime))])
  }

  function BookTickerCalls(dec: Decoders, num: FloatParser, uid: string, text: string): Result<seq<EngineCall>, DecodeError> {
    match dec.bookTicker(text)
    case None => Err(DecodeError)
    case Some(ev) =>
      Ok([UpdateBookTicker(uid, BookTicker(uid, ParseOrZero(num, ev.bestBidPrice), ParseOrZero(num, ev.bestBidQty),
                                           ParseOrZero(num, ev.bestAskPrice), ParseOrZero(num, ev.bestAskQty)))])
  }

  /** The mark price, then a funding rate taken from the same message, timed at the next funding. */
  function MarkPriceCalls(dec: Decoders, num: FloatParser, uid: string, text: string): Result<seq<EngineCall>, DecodeError> {
    match dec.markPrice(text)
    case None => Err(DecodeError)
    case Some(ev) =>
      Ok([UpdateMarkPrice(uid, MarkPrice(uid, ParseOrZero(num, ev.markPrice), ParseOrZero(num, ev.indexPrice), ev.nextFundingTime)),
          UpdateFundingRate(uid, FundingRate(uid, ParseOrZero(num, ev.fundingRate), ev.nextFundingTime))])
  }

  function ForceOrderCalls(dec: Decoders, num: FloatParser, uid: string, text: string): Result<seq<EngineCall>, DecodeError> {
    match dec.forceOrder(text)
    case None => Err(DecodeError)
    case Some(o) =>
      Ok([AddLiquidation(uid, Liquidation(uid, ParseOrZero(num, o.price), ParseOrZero(num, o.quantity), LiquidationSide(o.side)))])
  }

  /** The engine calls for a message handled as kind `k`. */
  function CallsFor(dec: Decoders, num: FloatParser, uid: string, k: EventKind, text: string): Result<seq<EngineCall>, DecodeError> {
    match k
    case TradeEvent => TradeCalls(dec, num, uid, text)
    case DepthEvent => DepthCalls(dec, num, uid, text)
    case KlineEvent => KlineCalls(dec, num, uid, text)
    case AggTradeEvent => AggTradeCalls(dec, num, uid, text)
    case TickerEvent => TickerCalls(dec, num, uid, text)
    case BookTickerEvent => BookTickerCalls(dec, num, uid, text)
    case MarkPriceEvent => MarkPriceCalls(dec, num, uid, text)
    case ForceOrderEvent => ForceOrderCalls(dec, num, uid, text)
  }

  /** The calls for a message classified as `kind`: none without a kind. */
  function Dispatch(dec: Decoders, num: FloatParser, uid: string, kind: Option<EventKind>, text: string): Result<seq<EngineCall>, DecodeError> {
    match kind
    case None => Ok([])
    case Some(k) => CallsFor(dec, num, uid, k, text)
  }

  /** `handle_message`: the engine calls, in order, that one text frame causes; a text with no
      marker causes none, and a text whose decoder fails returns the error before any call. */
  function HandleMessage(dec: Decoders, num: FloatParser, uid: string, text: string): Result<seq<EngineCall>, DecodeError> {
    Dispatch(dec, num, uid, Classify(HandlerOrder, text), text)
  }

  /** The symbol every record of a call carries. */
  function RecordSymbol(c: EngineCall): string {
    match c
    case UpdateOrderBook(_, b) => b.symbol
    case AddTrade(_, t) => t.symbol
    case AddAggTrade(_, t) => t.symbol
    case AddCandle(_, c) => c.symbol
    case LoadHistoricalCandles(s, _) => s
    case UpdateTicker(_, t) => t.symbol
    case UpdateBookTicker(_, t) => t.symbol
    case UpdateMarkPrice(_, p) => p.symbol
    case AddLiquidation(_, l) => l.symbol
    case UpdateFundingRate(_, f) => f.symbol
    case UpdateOpenInterest(_, o) => o.symbol
  }

  /** The kind of event each call records. */
  function CallKind(c: EngineCall): Option<EventKind> {
    match c
    case UpdateOrderBook(_, _) => Some(DepthEvent)
    case AddTrade(_, _) => Some(TradeEvent)
    case AddAggTrade(_, _) => Some(AggTradeEvent)
    case AddCandle(_, _) => Some(KlineEvent)
    case UpdateTicker(_, _) => Some(TickerEvent)
    case UpdateBookTicker(_, _) => Some(BookTickerEvent)
    case UpdateMarkPrice(_, _) => Some(MarkPriceEvent)
    case AddLiquidation(_, _) => Some(ForceOrderEvent)
    case _ => None
  }

  /** What a message of kind `k` causes: an error exactly when that kind's decoder rejects the
      text, and otherwise one call recording that kind (two for a mark-price message, the second a
      funding-rate update), every call and record keyed by the unique id. */
  lemma CallsForOutcome(dec: Decoders, num: FloatParser, uid: string, k: EventKind, text: string)
    ensures CallsFor(dec, num, uid, k, text).Err? <==> !Decodes(dec, k, text)
    ensures CallsFor(dec, num, uid, k, text).Ok? ==>
      var calls := CallsFor(dec, num, uid, k, text).value;
      && |calls| == (if k == MarkPriceEvent then 2 else 1)
      && CallKind(calls[0]) == Some(k)
      && (k == MarkPriceEvent ==> calls[1].UpdateFundingRate?)
      && forall c :: c in calls ==> c.symbol == uid && RecordSymbol(c) == uid
  {
    match k
    case TradeEvent =>
    case DepthEvent =>
    case KlineEvent =>
    case AggTradeEvent =>
    case TickerEvent =>
    case BookTickerEvent =>
    case MarkPriceEvent =>
    case ForceOrderEvent =>
  }

  /** A frame causes nothing when no marker occurs in it, and otherwise what its first matching
      kind causes. */
  lemma HandleMessageOutcome(dec: Decoders, num: FloatParser, uid: string, text: string)
    ensures Classify(HandlerOrder, text).None? ==> HandleMessage(dec, num, uid, text) == Ok([])
    ensures Classify(HandlerOrder, text).Some? ==>
      HandleMessage(dec, num, uid, text) == CallsFor(dec, num, uid, Classify(HandlerOrder, text).value, text)
  {
  }

  /** A depth message's book carries `u` when present and `lastUpdateId` otherwise, and its levels
      are the parsed wire levels in wire order. */
  lemma DepthUpdateId(dec: Decoders, num: FloatParser, uid: string, text: string)
    requires dec.depth(text).Some?
    ensures var ev := dec.depth(text).value;
      var b := DepthCalls(dec, num, uid, text).value[0].book;
      && (ev.finalUpdateId.Some? ==> b.lastUpdateId == ev.finalUpdateId.value)
      && (ev.finalUpdateId.None? ==> b.lastUpdateId == ev.lastUpdateId)
      && b.bids == ParseRawLevels(num, ev.bids) && b.asks == ParseRawLevels(num, ev.asks)
  {
  }

  /** A mark-price message updates the mark price and then the funding rate, whose time is the
      next funding time; after both calls the engine holds both for the unique id and every other
      instrument is untouched. */
  lemma MarkPriceCarriesFunding(dec: Decoders, num: FloatParser, uid: string, text: string, reg: Registry, tl: nat, cl: nat)
    requires dec.markPrice(text).Some?
    ensures var ev := dec.markPrice(text).value;
      var after := ApplyAll(reg, MarkPriceCalls(dec, num, uid, text).value, tl, cl);
      && Lookup(after, uid).markPrice == Some(MarkPrice(uid, ParseOrZero(num, ev.markPrice), ParseOrZero(num, ev.indexPrice), ev.nextFundingTime))
      && Lookup(after, uid).fundingRate == Some(FundingRate(uid, ParseOrZero(num, ev.fundingRate), ev.nextFundingTime))
      && (forall s :: s != uid ==> Lookup(after, s) == Lookup(reg, s))
  {
    var calls := MarkPriceCalls(dec, num, uid, text).value;
    var mid := Step(reg, calls[0], tl, cl);
    assert ApplyAll(reg, calls[..1], tl, cl) == mid by {
      assert calls[..1][..0] == [] && calls[..1][0] == calls[0];
      assert ApplyAll(reg, [], tl, cl) == reg;
    }
    assert ApplyAll(reg, calls, tl, cl) == Step(mid, calls[1], tl, cl) by {
      assert calls[..|calls| - 1] == calls[..1];
    }
    StepLookup(reg, calls[0], uid, tl, cl);
    StepLookup(mid, calls[1], uid, tl, cl);
    forall s | s != uid ensures Lookup(ApplyAll(reg, calls, tl, cl), s) == Lookup(reg, s) {
      StepLookup(reg, calls[0], s, tl, cl);
      StepLookup(mid, calls[1], s, tl, cl);
    }
  }

  /** A liquidation is a sell exactly when the order's side is the text `SELL`. */
  lemma LiquidationSideRule(dec: Decoders, num: FloatParser, uid: string, text: string)
    requires dec.forceOrder(text).Some?
    ensures ForceOrderCalls(dec, num, uid, text).value[0].liquidation.side == Sell <==> dec.forceOrder(text).value.side == "SELL"
  {
  }

  // ---------------------------------------------------------------------------------------------
  // connect_binance
  // ---------------------------------------------------------------------------------------------

  /** The WebSocket base for a market; other markets are not supported. */
  function BaseUrl(market: MarketType, app: AppConfig): (r: Option<string>)
    ensures r.None? <==> market == OtherMarket
  {
    match market
    case Spot => Some(app.binanceSpotWsUrl)
    case LinearFuture => Some(app.binanceLinearFutureWsUrl)
    case InverseFuture => Some(app.binanceInverseFutureWsUrl)
    case OtherMarket => None
  }

  /** How a connector task ends within a finite script: it returns early (unsupported market, no
      stream, an unparsable URL) or is still reconnecting when the script runs out. */
  datatype End = ReturnedEarly | StillRunning

  datatype Session = Session(actions: seq<Action>, end: End)

  /** What `connect_binance` does for an already sanitised selection: the stream list and URL are
      the same on every pass of the source's loop, so they are built once here. */
  function Run(symbol: string, market: MarketType, sel: Selection, app: AppConfig, urlParses: string -> bool, attempts: seq<Attempt>): Session {
    match BaseUrl(market, app)
    case None => Session([], ReturnedEarly)
    case Some(base) =>
      var streams := StreamList(Lower(symbol), sel, app.orderBookDepth);
      if streams == [] then Session([], ReturnedEarly)
      else
        var url := CombinedUrl(base, streams);
        if !urlParses(url) then Session([], ReturnedEarly)
        else Session(Actions(url, attempts, 1, app.binanceReconnectDelay, UntilCloseOrError), StillRunning)
  }

  method ConnectBinance(symbol: string, market: MarketType, sel: Selection, app: AppConfig, urlParses: string -> bool, attempts: seq<Attempt>)
    returns (s: Session)
    ensures s == Run(symbol, market, sel, app, urlParses, attempts)
  {
    var base := BaseUrl(market, app);
    if base.None? {
      return Session([], ReturnedEarly);
    }
    var streams := BuildStreams(symbol, sel, app.orderBookDepth);
    if |streams| == 0 {
      return Session([], ReturnedEarly);
    }
    var url := CombinedUrl(base.value, streams);
    if !urlParses(url) {
      return Session([], ReturnedEarly);
    }
    var actions := ReconnectLoop(url, attempts, app.binanceReconnectDelay, UntilCloseOrError);
    s := Session(actions, StillRunning);
  }

  /** The connector makes no connection for an unsupported market or an empty selection, and
      otherwise connects once per scripted attempt, always to the combined URL of the selected
      streams, sleeping once per refusal. */
  lemma RunConnectsToSelectedStreams(symbol: string, market: MarketType, sel: Selection, app: AppConfig, urlParses: string -> bool, attempts: seq<Attempt>)
    ensures var r := Run(symbol, market, sel, app, urlParses, attempts);
      var streams := StreamList(Lower(symbol), sel, app.orderBookDepth);
      && (market == OtherMarket || streams == [] ==> r == Session([], ReturnedEarly))
      && (r.end == StillRunning ==>
            && ConnectCount(r.actions) == |attempts|
            && SleepCount(r.actions) == RefusedCount(attempts)
            && ConnectsTo(r.actions, CombinedUrl(BaseUrl(market, app).value, streams)))
  {
    var r := Run(symbol, market, sel, app, urlParses, attempts);
    if r.end == StillRunning {
      var url := CombinedUrl(BaseUrl(market, app).value, StreamList(Lower(symbol), sel, app.orderBookDepth));
      SleepOnlyOnRefusal(url, attempts, 1, app.binanceReconnectDelay, UntilCloseOrError);
      ConnectsOnlyToUrl(url, attempts, 1, app.binanceReconnectDelay, UntilCloseOrError);
    }
  }
}
