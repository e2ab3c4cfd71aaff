/** The earlier exchange connector (ingestion_engine/src/exchanges/binance.rs): the same four
    streams and handler as the spot connector, on a fixed base URL, with a fixed depth of 20 and a
    fixed backoff cap of 60 seconds, producing records of the earlier data model. Its wire structs
    are those of the spot connector. */
module LegacyConnector {
  import opened Wrappers
  import opened Numbers
  import opened Text
  import opened LegacyModels
  import opened Upstream
  import SpotConnector

  const BinanceWsUrl: string := "wss://stream.binance.com:9443/ws"
  const Depth: string := "20"
  const ReconnectCap: U64 := 60

  /** The engine methods the handler calls. The earlier engine declares only the first two; the
      handler's calls of `add_agg_trade` and `add_candle` have no counterpart there. */
  datatype LegacyCall =
    | UpdateOrderBook(symbol: string, book: OrderBook)
    | AddTrade(symbol: string, trade: Trade)
    | AddAggTrade(symbol: string, aggTrade: AggTrade)
    | AddCandle(symbol: string, candle: Candle)

  function Levels(num: FloatParser, raw: seq<(string, string)>): (r: seq<PriceLevel>)
    ensures |r| == |raw|
    ensures forall i :: 0 <= i < |raw| ==> r[i] == PriceLevel(ParseOrZero(num, raw[i].0), ParseOrZero(num, raw[i].1))
  {
    if raw == [] then [] else [PriceLevel(ParseOrZero(num, raw[0].0), ParseOrZero(num, raw[0].1))] + Levels(num, raw[1..])
  }

  /** The handler's `else if` chain once the kind is known. */
  function CallFor(dec: SpotConnector.Decoders, num: FloatParser, symbol: string, k: EventKind, text: string): Option<LegacyCall> {
    if k == TradeEvent then
      (match dec.trade(text)
       case None => None
       case Some(ev) => Some(AddTrade(symbol, Trade(ev.id, ev.symbol, ParseOrZero(num, ev.price), ParseOrZero(num, ev.quantity),
                                                    ev.timestamp, LegacyModels.TakerSide(ev.isBuyerMaker)))))
    else if k == DepthEvent then
      (match dec.depth(text)
       case None => None
       case Some(ev) => Some(UpdateOrderBook(symbol, OrderBook(symbol, Levels(num, ev.bids), Levels(num, ev.asks), ev.lastUpdateId))))
    else if k == KlineEvent then
      (match dec.kline(text)
       case None => None
       case Some(ev) =>
         var c := ev.kline;
         Some(AddCandle(symbol, Candle(ev.symbol, c.interval, ParseOrZero(num, c.open), ParseOrZero(num, c.high),
                                       ParseOrZero(num, c.low), ParseOrZero(num, c.close), ParseOrZero(num, c.volume),
                                       c.startTime, c.closeTime, c.isClosed))))
    else
      (match dec.aggTrade(text)
       case None => None
       case Some(ev) => Some(AddAggTrade(symbol, AggTrade(ev.id, ev.symbol, ParseOrZero(num, ev.price), ParseOrZero(num, ev.quantity),
                                                          ev.timestamp, LegacyModels.TakerSide(ev.isBuyerMaker), ev.firstTradeId, ev.lastTradeId))))
  }

  /** `handle_message`: `Ok(None)` when no marker occurs, `Err` when the matched kind does not
      decode, and otherwise the one call. */
  function HandleMessage(dec: SpotConnector.Decoders, num: FloatParser, symbol: string, text: string): Result<Option<LegacyCall>, SpotConnector.DecodeError> {
    match Classify(SpotConnector.HandlerOrder, text)
    case None => Ok(None)
    case Some(k) =>
      match CallFor(dec, num, symbol, k, text)
      case None => Err(SpotConnector.DecodeError)
      case Some(c) => Ok(Some(c))
  }

  /** For a kind of the handler, the call fails exactly when the spot handler's does, and otherwise
      is keyed by the connector's symbol and is the same kind of call as the spot handler's,
      carrying the same identifiers, symbols and times. */
  lemma CallForMirrorsSpot(dec: SpotConnector.Decoders, num: FloatParser, fnum: FloatParser, symbol: string, k: EventKind, text: string)
    requires k in SpotConnector.HandlerOrder
    ensures CallFor(dec, num, symbol, k, text).None? <==> SpotConnector.CallFor(dec, fnum, symbol, k, text).Err?
    ensures CallFor(dec, num, symbol, k, text).Some? ==>
      var c := CallFor(dec, num, symbol, k, text).value;
      var s := SpotConnector.CallFor(dec, fnum, symbol, k, text).value;
      && c.symbol == symbol && s.symbol == symbol
      && (c.AddTrade? <==> s.AddTrade?) && (c.UpdateOrderBook? <==> s.UpdateOrderBook?)
      && (c.AddCandle? <==> s.AddCandle?) && (c.AddAggTrade? <==> s.AddAggTrade?)
      && (c.AddTrade? ==> c.trade.id == s.trade.id && c.trade.symbol == s.trade.symbol && c.trade.timestampMs == s.trade.timestampMs)
      && (c.UpdateOrderBook? ==> c.book.symbol == s.book.symbol && c.book.lastUpdateId == s.book.lastUpdateId)
      && (c.AddCandle? ==> c.candle.symbol == s.candle.symbol && c.candle.interval == s.candle.interval && c.candle.startTime == s.candle.startTime)
      && (c.AddAggTrade? ==> c.aggTrade.id == s.aggTrade.id && c.aggTrade.symbol == s.aggTrade.symbol)
  {
  }

  /** A frame is ignored, rejected or handled exactly as the spot handler would treat it. */
  lemma HandleMessageMirrorsSpot(dec: SpotConnector.Decoders, num: FloatParser, fnum: FloatParser, symbol: string, text: string)
    ensures HandleMessage(dec, num, symbol, text) == Ok(None) <==> SpotConnector.HandleMessage(dec, fnum, symbol, text) == Ok(None)
    ensures HandleMessage(dec, num, symbol, text).Err? <==> SpotConnector.HandleMessage(dec, fnum, symbol, text).Err?
  {
    var o := Classify(SpotConnector.HandlerOrder, text);
    if o.Some? {
      SpotConnector.HandleMessageOutcome(dec, fnum, symbol, text);
      CallForMirrorsSpot(dec, num, fnum, symbol, o.value, text);
    }
  }

  datatype Session = Session(actions: seq<Action>, end: SpotConnector.End)

  function SelectionOf(c: StreamConfig): Selection {
    SpotSelection(c.orderBook, c.rawTrades, c.aggTrades, c.klineIntervals)
  }

  /** What `connect_binance` does: no streams returns at once, an unparsable URL panics, and
      otherwise the reconnect loop runs on the fixed URL with the fixed cap. */
  function Run(symbol: string, config: StreamConfig, urlParses: string -> bool, attempts: seq<Attempt>): Session {
    var streams := StreamList(Lower(symbol), SelectionOf(config), Depth);
    if streams == [] then Session([], SpotConnector.ReturnedEarly)
    else
      var url := CombinedUrl(BinanceWsUrl, streams);
      if !urlParses(url) then Session([], SpotConnector.Panicked)
      else Session(Actions(url, attempts, 1, ReconnectCap, TextOnly), SpotConnector.StillRunning)
  }

  method ConnectBinance(symbol: string, config: StreamConfig, urlParses: string -> bool, attempts: seq<Attempt>) returns (s: Session)
    ensures s == Run(symbol, config, urlParses, attempts)
  {
    var streams := BuildStreams(symbol, SelectionOf(config), Depth);
    if |streams| == 0 {
      return Session([], SpotConnector.ReturnedEarly);
    }
    var url := CombinedUrl(BinanceWsUrl, streams);
    if !urlParses(url) {
      return Session([], SpotConnector.Panicked);
    }
    var actions := ReconnectLoop(url, attempts, ReconnectCap, TextOnly);
    s := Session(actions, SpotConnector.StillRunning);
  }

  /** The order-book stream is always the 20-level one, and every sleep lasts between one and
      sixty seconds. */
  lemma RunDepthAndSleeps(symbol: string, config: StreamConfig, urlParses: string -> bool, attempts: seq<Attempt>)
    ensures Stream(Lower(symbol), "depth20") in StreamList(Lower(symbol), SelectionOf(config), Depth) <==> config.orderBook
    ensures SleepsBounded(Run(symbol, config, urlParses, attempts).actions, 60)
  {
    StreamListFollowsSelection(Lower(symbol), SelectionOf(config), Depth, DepthStream);
    assert Suffix(DepthStream, Depth) == "depth20";
    var r := Run(symbol, config, urlParses, attempts);
    if r.end == SpotConnector.StillRunning {
      SleepsWithinCap(CombinedUrl(BinanceWsUrl, StreamList(Lower(symbol), SelectionOf(config), Depth)), attempts, 1, ReconnectCap, TextOnly);
    }
  }
}
