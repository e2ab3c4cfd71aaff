/** The earlier data model (ingestion_engine/src/models.rs) used by the legacy engine, server and
    exchange connector. `StreamConfig` is imported there from this module but not declared in it;
    the model declares it with the four fields the legacy connector reads. */
module LegacyModels {
  import opened Wrappers
  import opened Numbers
  import Json

  datatype StreamConfig = StreamConfig(rawTrades: bool, aggTrades: bool, orderBook: bool, klineIntervals: seq<string>)

  datatype PriceLevel = PriceLevel(price: real, quantity: real)

  datatype OrderBook = OrderBook(symbol: string, bids: seq<PriceLevel>, asks: seq<PriceLevel>, lastUpdateId: U64)

  /** Buy: the taker bought (an aggressive buy); Sell: the taker sold. */
  datatype TradeSide = Buy | Sell

  datatype Trade = Trade(id: U64, symbol: string, price: real, quantity: real, timestampMs: U64, side: TradeSide)

  datatype AggTrade = AggTrade(
    id: U64, symbol: string, price: real, quantity: real, timestampMs: U64, side: TradeSide,
    firstTradeId: U64, lastTradeId: U64)

  datatype Candle = Candle(
    symbol: string, interval: string,
    open: real, high: real, low: real, close: real, volume: real,
    startTime: U64, closeTime: U64, isClosed: bool)

  /** Internally tagged: `{"type": <variant>, ...payload fields}`. */
  datatype MarketData =
    | OrderBookMsg(book: OrderBook)
    | TradeMsg(trade: Trade)
    | AggTradeMsg(aggTrade: AggTrade)
    | CandleMsg(candle: Candle)

  function TypeTag(d: MarketData): string {
    match d
    case OrderBookMsg(_) => "OrderBook"
    case TradeMsg(_) => "Trade"
    case AggTradeMsg(_) => "AggTrade"
    case CandleMsg(_) => "Candle"
  }

  function SymbolOf(d: MarketData): string {
    match d
    case OrderBookMsg(b) => b.symbol
    case TradeMsg(t) => t.symbol
    case AggTradeMsg(t) => t.symbol
    case CandleMsg(c) => c.symbol
  }

  /** The side as seen from the taker: the two sides are the two outcomes of `is_buyer_maker`. */
  function TakerSide(isBuyerMaker: bool): (s: TradeSide)
    ensures s == Sell <==> isBuyerMaker
    ensures s == Buy <==> !isBuyerMaker
  {
    if isBuyerMaker then Sell else Buy
  }

  datatype CommandAction = Subscribe | Unsubscribe

  function ActionName(a: CommandAction): string {
    match a
    case Subscribe => "subscribe"
    case Unsubscribe => "unsubscribe"
  }

  function ParseAction(s: string): (r: Option<CommandAction>)
    ensures r.Some? ==> ActionName(r.value) == s
  {
    if s == "subscribe" then Some(Subscribe)
    else if s == "unsubscribe" then Some(Unsubscribe)
    else None
  }

  /** Only "subscribe" and "unsubscribe" are actions here; "fetchhistory" is not. */
  lemma ActionNamesRoundTrip(a: CommandAction, s: string)
    ensures ParseAction(ActionName(a)) == Some(a)
    ensures ParseAction(s).Some? <==> s in {"subscribe", "unsubscribe"}
    ensures ParseAction("fetchhistory") == None
  {
  }

  datatype Command = Command(action: CommandAction, channel: string)

  predicate UniqueKeys(fields: seq<(string, Json.Value)>) {
    forall i, j :: 0 <= i < j < |fields| ==> fields[i].0 != fields[j].0
  }

  /** serde's derived `Deserialize` for the two-field `Command` over a JSON object. */
  function DecodeCommand(v: Json.Value): (r: Option<Command>)
    ensures r.Some? ==> v.Object? && Json.Field(v.fields, "action") == Some(Json.Str(ActionName(r.value.action)))
    ensures r.Some? ==> Json.Field(v.fields, "channel") == Some(Json.Str(r.value.channel))
  {
    if !v.Object? || !UniqueKeys(v.fields) then None
    else match (Json.Field(v.fields, "action"), Json.Field(v.fields, "channel"))
      case (Some(Str(a)), Some(Str(ch))) =>
        (match ParseAction(a) { case Some(act) => Some(Command(act, ch)) case None => None })
      case _ => None
  }
}
