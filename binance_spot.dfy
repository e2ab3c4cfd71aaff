/** The spot connector (ingestion_engine/src/connectors/binance_spot.rs): the four original
    streams of one symbol on the configured base URL, a read loop that stops at the first
    non-text item, and a handler that keys every engine call by the connector's symbol while the
    trade, aggregate-trade and candle records carry the symbol the event names. */
module SpotConnector {
  import opened Wrappers
  import opened Numbers
  import opened Text
  import opened Models
  import opened Config
  import opened Upstream
  import opened CoreEngineSpec

  datatype TradeWire = TradeWire(id: U64, symbol: string, price: string, quantity: string, timestamp: U64, isBuyerMaker: bool)

  datatype AggTradeWire = AggTradeWire(
    id: U64, symbol: string, price: string, quantity: string, timestamp: U64, isBuyerMaker: bool,
    firstTradeId: U64, lastTradeId: U64)

  /** A spot depth snapshot: no `u` field here. */
  datatype DepthWire = DepthWire(lastUpdateId: U64, bids: seq<(string, string)>, asks: seq<(string, string)>)

  datatype KlineWire = KlineWire(
    startTime: U64, closeTime: U64, open: string, close: string, high: string, low: string,
    volume: string, isClosed: bool, interval: string)

  /** A kline message: the event's symbol `s` and its `k` object. */
  datatype KlineEventWire = KlineEventWire(symbol: string, kline: KlineWire)

  /** `serde_json::from_str` for each wire struct: `None` when the text does not decode. */
  datatype Decoders = Decoders(
    trade: string -> Option<TradeWire>,
    depth: string -> Option<DepthWire>,
    kline: string -> Option<KlineEventWire>,
    aggTrade: string -> Option<AggTradeWire>)

  datatype DecodeError = DecodeError

  /** The order of the handler's tests. */
  const HandlerOrder: seq<EventKind> := [TradeEvent, DepthEvent, KlineEvent, AggTradeEvent]

  predicate Decodes(dec: Decoders, k: EventKind, text: string) {
    match k
    case TradeEvent => dec.trade(text).Some?
    case DepthEvent => dec.depth(text).Some?
    case KlineEvent => dec.kline(text).Some?
    case AggTradeEvent => dec.aggTrade(text).Some?
    case _ => false
  }

  function TradeCalls(dec: Decoders, num: FloatParser, symbol: string, text: string): Result<EngineCall, DecodeError> {
    match dec.trade(text)
    case None => Err(DecodeError)
    case Some(ev) =>
      Ok(AddTrade(symbol, Trade(ev.id, ev.symbol, ParseOrZero(num, ev.price), ParseOrZero(num, ev.quantity),
                                ev.timestamp, TakerSide(ev.isBuyerMaker))))
  }

  function DepthCalls(dec: Decoders, num: FloatParser, symbol: string, text: string): Result<EngineCall, DecodeError> {
    match dec.depth(text)
    case None => Err(DecodeError)
    case Some(ev) =>
      Ok(UpdateOrderBook(symbol, OrderBook(symbol, ParseRawLevels(num, ev.bids), ParseRawLevels(num, ev.asks), ev.lastUpdateId)))
  }

  function KlineCalls(dec: Decoders, num: FloatParser, symbol: string, text: string): Result<EngineCall, DecodeError> {
    match dec.kline(text)
    case None => Err(DecodeError)
    case Some(ev) =>
      var k := ev.kline;
      Ok(AddCandle(symbol, Candle(ev.symbol, k.interval, ParseOrZero(num, k.open), ParseOrZero(num, k.high),
                                  ParseOrZero(num, k.low), ParseOrZero(num, k.close), ParseOrZero(num, k.volume),
                                  k.startTime, k.closeTime, k.isClosed)))
  }

  function AggTradeCalls(dec: Decoders, num: FloatParser, symbol: string, text: string): Result<EngineCall, DecodeError> {
    match dec.aggTrade(text)
    case None => Err(DecodeError)
    case Some(ev) =>
      Ok(AddAggTrade(symbol, AggTrade(ev.id, ev.symbol, ParseOrZero(num, ev.price), ParseOrZero(num, ev.quantity),
                                      ev.timestamp, TakerSide(ev.isBuyerMaker), ev.firstTradeId, ev.lastTradeId)))
  }

  /** The handler's `else if` chain once the kind is known. */
  function CallFor(dec: Decoders, num: FloatParser, symbol: string, k: EventKind, text: string): Result<EngineCall, DecodeError> {
    if k == TradeEvent then TradeCalls(dec, num, symbol, text)
    else if k == DepthEvent then DepthCalls(dec, num, symbol, text)
    else if k == KlineEvent then KlineCalls(dec, num, symbol, text)
    else AggTradeCalls(dec, num, symbol, text)
  }

  /** `handle_message`: at most one engine call per text frame; none when no marker occurs. */
  function HandleMessage(dec: Decoders, num: FloatParser, symbol: string, text: string): Result<Option<EngineCall>, DecodeError> {
    match Classify(HandlerOrder, text)
    case None => Ok(None)
    case Some(k) =>
      match CallFor(dec, num, symbol, k, text)
      case Err(e) => Err(e)
      case Ok(c) => Ok(Some(c))
  }

  /** The symbol the event itself names, for the kinds whose record copies it. */
  function EventSymbol(dec: Decoders, k: EventKind, text: string): Option<string> {
    if k == TradeEvent && dec.trade(text).Some? then Some(dec.trade(text).value.symbol)
    else if k == KlineEvent && dec.kline(text).Some? then Some(dec.kline(text).value.symbol)
    else if k == AggTradeEvent && dec.aggTrade(text).Some? then Some(dec.aggTrade(text).value.symbol)
    else None
  }

  /** A message of one of the four kinds causes an error exactly when that kind's decoder rejects
      it, and else one call of that kind keyed by the connector's symbol. The book record carries
      the connector's symbol; a trade, aggregate trade or candle record carries the symbol the
      event names, which the handler never compares with the key. */
  lemma CallForOutcome(dec: Decoders, num: FloatParser, symbol: string, k: EventKind, text: string)
    requires k in HandlerOrder
    ensures CallFor(dec, num, symbol, k, text).Err? <==> !Decodes(dec, k, text)
    ensures CallFor(dec, num, symbol, k, text).Ok? ==>
      var c := CallFor(dec, num, symbol, k, text).value;
      && c.symbol == symbol
      && (k == TradeEvent ==> c.AddTrade? && c.trade.symbol == EventSymbol(dec, k, text).value)
      && (k == DepthEvent ==> c.UpdateOrderBook? && c.book.symbol == symbol)
      && (k == KlineEvent ==> c.AddCandle? && c.candle.symbol == EventSymbol(dec, k, text).value)
      && (k == AggTradeEvent ==> c.AddAggTrade? && c.aggTrade.symbol == EventSymbol(dec, k, text).value)
  {
  }

  /** A frame causes nothing when no marker occurs in it, and otherwise what its first matching
      kind causes, which is one of the handler's four. */
  lemma HandleMessageOutcome(dec: Decoders, num: FloatParser, symbol: string, text: string)
    ensures Classify(HandlerOrder, text).None? ==> HandleMessage(dec, num, symbol, text) == Ok(None)
    ensures Classify(HandlerOrder, text).Some? ==>
      var k := Classify(HandlerOrder, text).value;
      && k in HandlerOrder
      && (HandleMessage(dec, num, symbol, text).Err? <==> CallFor(dec, num, symbol, k, text).Err?)
      && (HandleMessage(dec, num, symbol, text).Ok? ==> HandleMessage(dec, num, symbol, text).value == Some(CallFor(dec, num, symbol, k, text).value))
  {
    if Classify(HandlerOrder, text).Some? {
      ClassifyPicksFirstMarker(HandlerOrder, text);
    }
  }

  /** How the task ends within a finite script. `Url::parse(..).unwrap()` panics on a URL that
      does not parse. */
  datatype End = ReturnedEarly | Panicked | StillRunning

  datatype Session = Session(actions: seq<Action>, end: End)

  function SelectionOf(c: StreamConfig): Selection {
    SpotSelection(c.orderBook, c.rawTrades, c.aggTrades, c.klineIntervals)
  }

  /** What `connect_binance` does: no streams returns at once, an unparsable URL panics, and
      otherwise the reconnect loop runs on `binance_ws_url` with the configured depth and cap. */
  function Run(symbol: string, config: StreamConfig, app: AppConfig, urlParses: string -> bool, attempts: seq<Attempt>): Session {
    var streams := StreamList(Lower(symbol), SelectionOf(config), app.orderBookDepth);
    if streams == [] then Session([], ReturnedEarly)
    else
      var url := CombinedUrl(app.binanceWsUrl, streams);
      if !urlParses(url) then Session([], Panicked)
      else Session(Actions(url, attempts, 1, app.binanceReconnectDelay, TextOnly), StillRunning)
  }

  method ConnectBinance(symbol: string, config: StreamConfig, app: AppConfig, urlParses: string -> bool, attempts: seq<Attempt>)
    returns (s: Session)
    ensures s == Run(symbol, config, app, urlParses, attempts)
  {
    var streams := BuildStreams(symbol, SelectionOf(config), app.orderBookDepth);
    if |streams| == 0 {
      return Session([], ReturnedEarly);
    }
    var url := CombinedUrl(app.binanceWsUrl, streams);
    if !urlParses(url) {
      return Session([], Panicked);
    }
    var actions := ReconnectLoop(url, attempts, app.binanceReconnectDelay, TextOnly);
    s := Session(actions, StillRunning);
  }

  /** The spot connector subscribes to no futures stream, makes no connection when nothing is
      enabled, and otherwise connects once per attempt to the one combined URL, sleeping once per
      refusal. */
  lemma RunConnectsToSelectedStreams(symbol: string, config: StreamConfig, app: AppConfig, urlParses: string -> bool, attempts: seq<Attempt>)
    ensures forall k: StreamKind :: k.TickerStream? || k.BookTickerStream? || k.MarkPriceStream? || k.ForceOrderStream? ==>
      Stream(Lower(symbol), Suffix(k, app.orderBookDepth)) !in StreamList(Lower(symbol), SelectionOf(config), app.orderBookDepth)
    ensures var r := Run(symbol, config, app, urlParses, attempts);
      var streams := StreamList(Lower(symbol), SelectionOf(config), app.orderBookDepth);
      && (!config.orderBook && !config.rawTrades && !config.aggTrades && config.klineIntervals == [] ==> r == Session([], ReturnedEarly))
      && (r.end == StillRunning ==>
            && ConnectCount(r.actions) == |attempts|
            && SleepCount(r.actions) == RefusedCount(attempts)
            && ConnectsTo(r.actions, CombinedUrl(app.binanceWsUrl, streams)))
  {
    var lower := Lower(symbol);
    var sel := SelectionOf(config);
    forall k: StreamKind | k.TickerStream? || k.BookTickerStream? || k.MarkPriceStream? || k.ForceOrderStream?
      ensures Stream(lower, Suffix(k, app.orderBookDepth)) !in StreamList(lower, sel, app.orderBookDepth)
    {
      StreamListFollowsSelection(lower, sel, app.orderBookDepth, k);
    }
    StreamListEmpty(lower, sel, app.orderBookDepth);
    var r := Run(symbol, config, app, urlParses, attempts);
    if r.end == StillRunning {
      var url := CombinedUrl(app.binanceWsUrl, StreamList(lower, sel, app.orderBookDepth));
      SleepOnlyOnRefusal(url, attempts, 1, app.binanceReconnectDelay, TextOnly);
      ConnectsOnlyToUrl(url, attempts, 1, app.binanceReconnectDelay, TextOnly);
    }
  }
}
