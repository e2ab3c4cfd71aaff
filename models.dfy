/** The data model of the ingestion engine (ingestion_engine/src/core/models.rs), with the record
    types the engine and the futures connector use beside it (tickers, mark price, liquidations,
    funding rate, open interest, market type, exchange). */
module Models {
  import opened Wrappers
  import opened Numbers
  import Json

  /** Which upstream streams a connector subscribes to. */
  datatype StreamConfig = StreamConfig(
    rawTrades: bool,
    aggTrades: bool,
    orderBook: bool,
    klineIntervals: seq<string>)

  datatype PriceLevel = PriceLevel(price: real, quantity: real)

  /** A full depth snapshot; the type imposes no ordering of levels and no non-crossing rule. */
  datatype OrderBook = OrderBook(symbol: string, bids: seq<PriceLevel>, asks: seq<PriceLevel>, lastUpdateId: U64)

  datatype TradeSide = Buy | Sell

  datatype Trade = Trade(id: U64, symbol: string, price: real, quantity: real, timestampMs: U64, side: TradeSide)

  datatype AggTrade = AggTrade(
    id: U64, symbol: string, price: real, quantity: real, timestampMs: U64, side: TradeSide,
    firstTradeId: U64, lastTradeId: U64)

  datatype Candle = Candle(
    symbol: string, interval: string,
    open: real, high: real, low: real, close: real, volume: real,
    startTime: U64, closeTime: U64, isClosed: bool)

  datatype Ticker = Ticker(
    symbol: string, priceChange: real, priceChangePercent: real, lastPrice: real, openPrice: real,
    highPrice: real, lowPrice: real, volume: real, quoteVolume: real, timestamp: U64)

  datatype BookTicker = BookTicker(symbol: string, bestBidPrice: real, bestBidQty: real, bestAskPrice: real, bestAskQty: real)

  datatype MarkPrice = MarkPrice(symbol: string, markPrice: real, indexPrice: real, nextFundingTime: U64)

  datatype Liquidation = Liquidation(symbol: string, price: real, quantity: real, side: TradeSide)

  datatype FundingRate = FundingRate(symbol: string, rate: real, time: U64)

  datatype OpenInterest = OpenInterest(symbol: string, openInterest: real)

  datatype MarketType = Spot | LinearFuture | InverseFuture | OtherMarket

  datatype Exchange = Binance | Bybit

  /** The message the engine broadcasts and the server sends: `{"type": <tag>, "data": <payload>}`. */
  datatype MarketData =
    | OrderBookMsg(book: OrderBook)
    | TradeMsg(trade: Trade)
    | AggTradeMsg(aggTrade: AggTrade)
    | CandleMsg(candle: Candle)
    | HistoricalCandles(candles: seq<Candle>)
    | TickerMsg(ticker: Ticker)
    | BookTickerMsg(bookTicker: BookTicker)
    | MarkPriceMsg(markPrice: MarkPrice)
    | LiquidationMsg(liquidation: Liquidation)
    | FundingRateMsg(fundingRate: FundingRate)
    | OpenInterestMsg(openInterest: OpenInterest)

  /** The `"type"` tags, in declaration order: the variant names. */
  const Tags: seq<string> := ["OrderBook", "Trade", "AggTrade", "Candle", "HistoricalCandles",
    "Ticker", "BookTicker", "MarkPrice", "Liquidation", "FundingRate", "OpenInterest"]

  function VariantIndex(d: MarketData): (i: nat)
    ensures i < |Tags|
  {
    match d
    case OrderBookMsg(_) => 0
    case TradeMsg(_) => 1
    case AggTradeMsg(_) => 2
    case CandleMsg(_) => 3
    case HistoricalCandles(_) => 4
    case TickerMsg(_) => 5
    case BookTickerMsg(_) => 6
    case MarkPriceMsg(_) => 7
    case LiquidationMsg(_) => 8
    case FundingRateMsg(_) => 9
    case OpenInterestMsg(_) => 10
  }

  /** The value of the `"type"` field of a serialised message. */
  function TypeTag(d: MarketData): string {
    Tags[VariantIndex(d)]
  }

  /** Two messages carry the same tag exactly when they are the same variant, so the tag of an
      adjacently tagged message always tells the reader which payload follows. */
  lemma TagDeterminesVariant(a: MarketData, b: MarketData)
    ensures TypeTag(a) == TypeTag(b) <==> VariantIndex(a) == VariantIndex(b)
  {
  }

  /** The symbol a live message belongs to; the bulk `HistoricalCandles` reply has none. */
  function SymbolOf(d: MarketData): (r: Option<string>)
    ensures r.None? <==> d.HistoricalCandles?
  {
    match d
    case OrderBookMsg(b) => Some(b.symbol)
    case TradeMsg(t) => Some(t.symbol)
    case AggTradeMsg(t) => Some(t.symbol)
    case CandleMsg(c) => Some(c.symbol)
    case HistoricalCandles(_) => None
    case TickerMsg(t) => Some(t.symbol)
    case BookTickerMsg(t) => Some(t.symbol)
    case MarkPriceMsg(m) => Some(m.symbol)
    case LiquidationMsg(l) => Some(l.symbol)
    case FundingRateMsg(f) => Some(f.symbol)
    case OpenInterestMsg(o) => Some(o.symbol)
  }

  datatype CommandAction = Subscribe | Unsubscribe | FetchHistory

  /** `#[serde(rename_all = "lowercase")]`: the variant name in lower case, without separators. */
  function ActionName(a: CommandAction): string {
    match a
    case Subscribe => "subscribe"
    case Unsubscribe => "unsubscribe"
    case FetchHistory => "fetchhistory"
  }

  function ParseAction(s: string): (r: Option<CommandAction>)
    ensures r.Some? ==> ActionName(r.value) == s
  {
    if s == "subscribe" then Some(Subscribe)
    else if s == "unsubscribe" then Some(Unsubscribe)
    else if s == "fetchhistory" then Some(FetchHistory)
    else None
  }

  /** Exactly the three lower-case names are accepted, and each names its own action. */
  lemma ActionNamesRoundTrip(a: CommandAction, s: string)
    ensures ParseAction(ActionName(a)) == Some(a)
    ensures ParseAction(s).Some? <==> s in {"subscribe", "unsubscribe", "fetchhistory"}
  {
  }

  datatype Command = Command(action: CommandAction, channel: string, endTime: Option<U64>, config: Option<StreamConfig>)

  predicate UniqueKeys(fields: seq<(string, Json.Value)>) {
    forall i, j :: 0 <= i < j < |fields| ==> fields[i].0 != fields[j].0
  }

  function DecodeBool(v: Json.Value): Option<bool> {
    if v.Bool? then Some(v.b) else None
  }

  function DecodeStrings(items: seq<Json.Value>): (r: Option<seq<string>>)
    ensures r.Some? ==> |r.value| == |items|
  {
    if items == [] then Some([])
    else match (Json.AsStr(items[0]), DecodeStrings(items[1..]))
      case (Some(s), Some(rest)) => Some([s] + rest)
      case _ => None
  }

  /** A required field: present and of the right shape. */
  function Required<T>(fields: seq<(string, Json.Value)>, name: string, decode: Json.Value -> Option<T>): Option<T> {
    match Json.Field(fields, name)
    case None => None
    case Some(v) => decode(v)
  }

  /** An `Option<T>` field: missing or `null` is `None`, anything else must decode. */
  function Optional<T>(fields: seq<(string, Json.Value)>, name: string, decode: Json.Value -> Option<T>): Option<Option<T>> {
    match Json.Field(fields, name)
    case None => Some(None)
    case Some(Null) => Some(None)
    case Some(v) => match decode(v) { case None => None case Some(x) => Some(Some(x)) }
  }

  function DecodeStreamConfig(v: Json.Value): Option<StreamConfig> {
    if !v.Object? || !UniqueKeys(v.fields) then None
    else
      var raw := Required(v.fields, "raw_trades", DecodeBool);
      var agg := Required(v.fields, "agg_trades", DecodeBool);
      var book := Required(v.fields, "order_book", DecodeBool);
      var klines := Required(v.fields, "kline_intervals", (x: Json.Value) => if x.Array? then DecodeStrings(x.items) else None);
      if raw.Some? && agg.Some? && book.Some? && klines.Some? then
        Some(StreamConfig(raw.value, agg.value, book.value, klines.value))
      else None
  }

  /** serde's derived `Deserialize` for `Command` over a JSON object; unknown fields are ignored. */
  function DecodeCommand(v: Json.Value): Option<Command> {
    if !v.Object? || !UniqueKeys(v.fields) then None
    else
      var action := Required(v.fields, "action", (x: Json.Value) => if x.Str? then ParseAction(x.s) else None);
      var channel := Required(v.fields, "channel", Json.AsStr);
      var endTime := Optional(v.fields, "end_time", Json.AsU64);
      var config := Optional(v.fields, "config", DecodeStreamConfig);
      if action.Some? && channel.Some? && endTime.Some? && config.Some? then
        Some(Command(action.value, channel.value, endTime.value, config.value))
      else None
  }

  /** A command decodes only with both `action` and `channel` present, while `end_time` and
      `config` may be left out (they then read as `None`). */
  lemma CommandRequiredFields(v: Json.Value)
    ensures DecodeCommand(v).Some? ==>
      v.Object? && Json.Field(v.fields, "action").Some? && Json.Field(v.fields, "channel").Some?
    ensures v.Object? && UniqueKeys(v.fields)
      && Json.Field(v.fields, "end_time").None? && Json.Field(v.fields, "config").None?
      && Json.Field(v.fields, "action") == Some(Json.Str("subscribe"))
      && Json.Field(v.fields, "channel").Some? && Json.Field(v.fields, "channel").value.Str?
      ==> DecodeCommand(v) == Some(Command(Subscribe, Json.Field(v.fields, "channel").value.s, None, None))
  {
  }
}
