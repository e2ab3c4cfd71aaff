/** Application settings (ingestion_engine/src/utils/config.rs). Loading them from defaults, a file
    and the environment is outside the model; `AppConfig` is the already loaded value. */
module Config {
  import opened Numbers
  import opened Models

  /** The settings struct. The three per-market WebSocket bases are read by the futures connector
      (connectors/binance.rs) although the struct as shown does not declare them. */
  datatype AppConfig = AppConfig(
    logLevel: string,
    defaultSymbols: seq<string>,
    broadcastBufferSize: nat,
    tradeHistoryLimit: nat,
    candleHistoryLimit: nat,
    binanceWsUrl: string,
    binanceReconnectDelay: U64,
    orderBookDepth: string,
    defaultRawTrades: bool,
    defaultAggTrades: bool,
    defaultOrderBook: bool,
    defaultKlineIntervals: seq<string>,
    serverBindAddress: string,
    serverHistoryFetchLimit: nat,
    binanceSpotWsUrl: string,
    binanceLinearFutureWsUrl: string,
    binanceInverseFutureWsUrl: string)

  /** `get_stream_config`: the stream defaults as a `StreamConfig`, each flag and the interval list
      (same length, same order) copied from the settings. */
  function GetStreamConfig(app: AppConfig): (r: StreamConfig)
    ensures r.rawTrades == app.defaultRawTrades
    ensures r.aggTrades == app.defaultAggTrades
    ensures r.orderBook == app.defaultOrderBook
    ensures |r.klineIntervals| == |app.defaultKlineIntervals|
    ensures forall i :: 0 <= i < |r.klineIntervals| ==> r.klineIntervals[i] == app.defaultKlineIntervals[i]
  {
    StreamConfig(app.defaultRawTrades, app.defaultAggTrades, app.defaultOrderBook, app.defaultKlineIntervals)
  }
}
