# Market-data ingestion engine and dollar-bar aggregator, modelled in Dafny

This project models the sequential core of a crypto market-data system:

- The **ingestion engine**, a Rust service. Binance WebSocket connectors turn exchange messages
  into calls on a symbol state store. The store keeps the following per symbol:
  - bounded trade, aggregate-trade and liquidation histories;
  - per-interval candle queues;
  - last-value slots (order book, ticker, book ticker, mark price, funding rate, open interest).

  Around the store sit four more pieces:
  - A WebSocket server gives each client a subscribed-topic set. It answers Subscribe and
    FetchHistory commands with snapshots, and forwards the store's broadcast events for the
    subscribed symbols.
  - A REST client fetches kline history.
  - A snapshot ingester keeps the last event of five kinds for one fixed symbol.
  - A command line starts one connector per requested instrument id.

  An earlier generation of the engine, server, data model and connector lives beside the current
  one. Both generations are modelled, each against the types it uses.
- The **dollar-bar aggregator** of `quant_core`. A fold over ticks closes a bar whenever the
  accumulated dollar value (price times quantity) reaches a threshold. The Rust kernel builds
  vectors. The Numba kernel writes into a preallocated buffer and doubles it when it is full.

Each source file becomes one Dafny module. The shared pieces are `Wrappers`, `Numbers`, `Text`
and `Json`. The stream naming, backoff, read loop and level parsing common to the three
connectors are in `Upstream`.

State that the source updates in place is modelled as classes with `modifies` frames:
- the engines' registries;
- a server connection's topic set and output;
- the ingester's snapshot;
- the Numba output buffer.

Each such method is proved against a specification function, and the properties are proved about
those functions:
- `CoreEngineSpec.Step` and `ApplyAll` for the engine;
- `DollarBars.Run` for both aggregators;
- `Upstream.Actions` for a connector's reconnect loop;
- `WsServer.TopicsAfter`, `ForwardedBy` and `SentBy` for a client connection.

Floats are `real`. `str::parse::<f64>` is a parameter `FloatParser`; a failed parse becomes
`0.0`, as in the source. `serde_json` decoding is modelled by decoders: decoder parameters for
the wire structs, and `Json.Value` for the command and kline parsers. The network is modelled as
follows:
- a connection attempt is a scripted `Attempt`;
- a client connection is a sequence of inputs;
- the HTTP client is a function from URL to response;
- a socket's output is a sequence of messages.

## Model

| member | source | states |
|---|---|---|
| Models.ActionNamesRoundTrip | ingestion_engine/src/core/models.rs:107-113 | A command action decodes from exactly the three lower-case names "subscribe", "unsubscribe" and "fetchhistory", and each action's name decodes back to that action. |
| Models.ParseAction | ingestion_engine/src/core/models.rs:107-113 | A decoded action is the one whose name was given. |
| Models.CommandRequiredFields | ingestion_engine/src/core/models.rs:115-122 | A command decodes only from an object with `action` and `channel` fields. An object with just these two, `action` being "subscribe", decodes with no end time and no config. |
| Models.TagDeterminesVariant | ingestion_engine/src/core/models.rs:97-105 | The adjacent `type` tag identifies the market-data variant: two events share a tag exactly when they are the same variant. |
| Models.SymbolOf | ingestion_engine/src/api/ws_server.rs:134-140 | Every live event names a symbol; only `HistoricalCandles` has none. |
| LegacyModels.TakerSide | ingestion_engine/src/models.rs:34-38 | The side is Sell exactly when the buyer was the maker, and Buy exactly when not. |
| LegacyModels.ParseAction | ingestion_engine/src/models.rs:95-100 | A decoded earlier-generation action is the one whose name was given. |
| LegacyModels.ActionNamesRoundTrip | ingestion_engine/src/models.rs:95-100 | The earlier command action accepts exactly "subscribe" and "unsubscribe", and rejects "fetchhistory". |
| LegacyModels.DecodeCommand | ingestion_engine/src/models.rs:102-106 | A decoded earlier command comes from an object whose `action` and `channel` string fields it carries. |
| Config.GetStreamConfig | ingestion_engine/src/utils/config.rs:73-80 | The default stream config copies the raw-trade, agg-trade and order-book flags and the kline intervals (same length and order) of the settings. |
| CoreEngineSpec.Cap | ingestion_engine/src/core/engine.rs:142-145 | The effective bound of a history is at least 1, and equals the limit when the limit is positive. |
| CoreEngineSpec.Last | ingestion_engine/src/core/engine.rs:189-199 | Keeping the last n items gives the suffix of length min(len, n). |
| CoreEngineSpec.PopFront | ingestion_engine/src/core/engine.rs:142-145 | Popping the front removes exactly the first element, and leaves an empty queue empty. |
| CoreEngineSpec.BoundedPushKeepsNewest | ingestion_engine/src/core/engine.rs:138-148 | Pushing to a queue holding the newest max(limit, 1) items of a history gives the newest max(limit, 1) items of the extended history. |
| CoreEngineSpec.BoundedPushBound | ingestion_engine/src/core/engine.rs:142-145 | A bounded push keeps the length at most max(limit, 1), and the new item is last. |
| CoreEngineSpec.InsertByStart | ingestion_engine/src/core/engine.rs:204-208 | One insertion step of the stable sort adds exactly the new candle to the multiset. |
| CoreEngineSpec.InsertKeepsSorted | ingestion_engine/src/core/engine.rs:204-208 | Inserting into a queue sorted by start time keeps it sorted. |
| CoreEngineSpec.SortByStart | ingestion_engine/src/core/engine.rs:204-208 | Sorting by start time is a permutation of the queue. |
| CoreEngineSpec.SortIsSorted | ingestion_engine/src/core/engine.rs:204-208 | The sorted queue is non-decreasing by start time. |
| CoreEngineSpec.SortIsStable | ingestion_engine/src/core/engine.rs:204-208 | The sort is stable: the candles sharing a start time keep their arrival order. |
| CoreEngineSpec.WithStartInsert | ingestion_engine/src/core/engine.rs:204-208 | An insertion step puts the new candle before the others of its start time. |
| CoreEngineSpec.SortAllSortsEvery | ingestion_engine/src/core/engine.rs:202-209 | After a load, every candle queue of the symbol is sorted and is a permutation of what it held, untouched intervals included; no interval is added or dropped. |
| CoreEngineSpec.LoadCandlesSnoc | ingestion_engine/src/core/engine.rs:189-199 | Loading one more candle pushes it onto its interval's queue and trims that queue to the newest `candle_limit`. |
| CoreEngineSpec.LoadCandlesBounded | ingestion_engine/src/core/engine.rs:189-199 | The trim loop keeps every candle queue within max(candle_limit, 1). |
| CoreEngineSpec.LoadEvictsByArrival | ingestion_engine/src/core/engine.rs:189-199 | The trim evicts the earliest inserted candle, not the earliest started: a limit-1 load of a later candle then an earlier one keeps the earlier one. |
| CoreEngineSpec.StepLookup | ingestion_engine/src/core/engine.rs:107-127 | A call changes the view of its own symbol only (creating it when absent), except an empty history load, which changes nothing. |
| CoreEngineSpec.Event | ingestion_engine/src/core/engine.rs:129-276 | Every call except a history load broadcasts one event, and that event names a symbol. |
| CoreEngineSpec.StepTouchesOnlyItsSymbol | ingestion_engine/src/core/engine.rs:107-127 | A call leaves every other symbol's presence and state unchanged. |
| CoreEngineSpec.AddCandleTouchesOnlyItsInterval | ingestion_engine/src/core/engine.rs:162-178 | `add_candle` changes only the queue of the candle's interval; the other intervals, the trades and the book are unchanged. |
| CoreEngineSpec.ApplyKeepsBounds | ingestion_engine/src/core/engine.rs:138-171 | Every call keeps a symbol's histories within their bounds. |
| CoreEngineSpec.StepKeepsBounds | ingestion_engine/src/core/engine.rs:138-171 | Every call keeps every symbol's histories within their bounds. |
| CoreEngineSpec.TradesAreNewest | ingestion_engine/src/core/engine.rs:138-148 | After any run of calls from an empty store, a symbol's trades are exactly the newest max(trade_limit, 1) trades added for it, in arrival order. |
| CoreEngineSpec.AggTradesAreNewest | ingestion_engine/src/core/engine.rs:150-160 | The same holds for aggregate trades. |
| CoreEngineSpec.LiquidationsAreNewest | ingestion_engine/src/core/engine.rs:245-255 | The same holds for liquidations, bounded by the trade limit. |
| CoreEngineSpec.LastBookWins | ingestion_engine/src/core/engine.rs:129-136 | After any run of calls, the order book of a symbol is the last one written for it, or the initial one if none was written. |
| CoreEngineSpec.UnnamedSymbolAbsent | ingestion_engine/src/core/engine.rs:300-309 | A symbol that no call names is absent, so its getters return nothing. |
| CoreEngineSpec.StaleCrossedBookAccepted | ingestion_engine/src/core/engine.rs:129-136 | The book is not validated: a crossed book with a lower update id replaces the stored one. |
| CoreEngineSpec.Before | ingestion_engine/src/core/engine.rs:403-420 | The history filter keeps exactly the candles that start before the end time. |
| CoreEngineSpec.GatherMembers | ingestion_engine/src/core/engine.rs:403-420 | The gathered candles are exactly those of any interval that start before the end time. |
| CoreEngineSpec.ConcatMembers | ingestion_engine/src/core/engine.rs:390-401 | The recent candles are exactly the candles of every interval. |
| CoreEngineSpec.LastOfSorted | ingestion_engine/src/core/engine.rs:403-420 | A suffix of a sorted queue is sorted. |
| CoreEngineSpec.HistorySortedAndBounded | ingestion_engine/src/core/engine.rs:403-420 | `get_history` is non-decreasing by start time and has at most `limit` candles. |
| CoreEngineSpec.HistoryMembers | ingestion_engine/src/core/engine.rs:403-420 | Every candle of the history starts before the end time and is stored under some interval. |
| CoreEngineSpec.HistoryComplete | ingestion_engine/src/core/engine.rs:403-420 | When at most `limit` candles qualify, the history is a permutation of all of them, drawn from every interval. |
| CoreEngineSpec.HistoryKeepsDuplicates | ingestion_engine/src/core/engine.rs:403-420 | Duplicate candles are not removed from the history. |
| CoreEngine.Notifications | ingestion_engine/src/core/engine.rs:288-293 | Processors are notified of the event one by one, in registration order. |
| CoreEngine.Broadcast | ingestion_engine/src/core/engine.rs:280-286 | A broadcast notifies every processor in order and then sends the same event on the channel. |
| CoreEngine.Emitted | ingestion_engine/src/core/engine.rs:129-276 | A call emits nothing exactly when it is a history load; otherwise it emits one notification per processor followed by one channel send. |
| CoreEngine.SymbolState.constructor | ingestion_engine/src/core/engine.rs:44-64 | A fresh symbol state is empty. |
| CoreEngine.Engine.constructor | ingestion_engine/src/core/engine.rs:84-95 | A new engine has no symbols, processors or active ingestions, and takes its limits from the settings. |
| CoreEngine.Engine.RegisterProcessor | ingestion_engine/src/core/engine.rs:97-105 | Registering appends the processor. |
| CoreEngine.Engine.GetOrCreateSymbol | ingestion_engine/src/core/engine.rs:107-127 | The symbol is present afterwards; an existing state is returned unchanged, and a missing one is created empty. |
| CoreEngine.Engine.NotifyProcessors | ingestion_engine/src/core/engine.rs:288-293 | The log grows by one notification per processor, in order. |
| CoreEngine.Engine.BroadcastData | ingestion_engine/src/core/engine.rs:280-286 | The log grows by the notifications and then the channel send. |
| CoreEngine.Engine.UpdateOrderBook | ingestion_engine/src/core/engine.rs:129-136 | The symbol's view becomes the `Step` of the call, and the log grows by one broadcast of the book. |
| CoreEngine.Engine.AddTrade | ingestion_engine/src/core/engine.rs:138-148 | The bounded push of the trade (pop front when full), then one broadcast. |
| CoreEngine.Engine.AddAggTrade | ingestion_engine/src/core/engine.rs:150-160 | The bounded push of the aggregate trade, then one broadcast. |
| CoreEngine.Engine.AddCandle | ingestion_engine/src/core/engine.rs:162-178 | The bounded push onto the candle's interval queue, then one broadcast. |
| CoreEngine.Engine.PushCandles | ingestion_engine/src/core/engine.rs:189-199 | The push-and-trim loop computes `LoadCandles`. |
| CoreEngine.Engine.TrimFront | ingestion_engine/src/core/engine.rs:194-197 | The `while len > candle_limit` loop keeps the newest `candle_limit` candles. |
| CoreEngine.Engine.SortQueues | ingestion_engine/src/core/engine.rs:202-209 | Sorting every queue computes `SortAll`. |
| CoreEngine.Engine.LoadHistoricalCandles | ingestion_engine/src/core/engine.rs:180-216 | An empty load changes nothing and does not create the symbol. Otherwise the view is that of the load step, and nothing is broadcast. |
| CoreEngine.Engine.UpdateTicker | ingestion_engine/src/core/engine.rs:218-225 | The ticker slot is overwritten, then one broadcast. |
| CoreEngine.Engine.UpdateBookTicker | ingestion_engine/src/core/engine.rs:227-234 | The book-ticker slot is overwritten, then one broadcast. |
| CoreEngine.Engine.UpdateMarkPrice | ingestion_engine/src/core/engine.rs:236-243 | The mark-price slot is overwritten, then one broadcast. |
| CoreEngine.Engine.AddLiquidation | ingestion_engine/src/core/engine.rs:245-255 | The bounded push of the liquidation, then one broadcast. |
| CoreEngine.Engine.UpdateFundingRate | ingestion_engine/src/core/engine.rs:257-264 | The funding-rate slot is overwritten, then one broadcast. |
| CoreEngine.Engine.UpdateOpenInterest | ingestion_engine/src/core/engine.rs:266-273 | The open-interest slot is overwritten, then one broadcast. |
| CoreEngine.Engine.Apply | ingestion_engine/src/core/engine.rs:129-273 | Any engine call has the effect `Step` gives it and emits what `Emitted` gives it. |
| CoreEngine.Engine.GetOrderBook | ingestion_engine/src/core/engine.rs:300-309 | Returns the stored book, and nothing for an unknown symbol. |
| CoreEngine.Engine.GetTicker | ingestion_engine/src/core/engine.rs:311-320 | Returns the stored ticker, and nothing for an unknown symbol. |
| CoreEngine.Engine.GetBookTicker | ingestion_engine/src/core/engine.rs:322-331 | Returns the stored book ticker, and nothing for an unknown symbol. |
| CoreEngine.Engine.GetMarkPrice | ingestion_engine/src/core/engine.rs:333-342 | Returns the stored mark price, and nothing for an unknown symbol. |
| CoreEngine.Engine.GetRecentLiquidations | ingestion_engine/src/core/engine.rs:344-350 | Returns the stored liquidations, and an empty list for an unknown symbol. |
| CoreEngine.Engine.GetFundingRate | ingestion_engine/src/core/engine.rs:352-361 | Returns the stored funding rate, and nothing for an unknown symbol. |
| CoreEngine.Engine.GetOpenInterest | ingestion_engine/src/core/engine.rs:363-372 | Returns the stored open interest, and nothing for an unknown symbol. |
| CoreEngine.Engine.GetRecentTrades | ingestion_engine/src/core/engine.rs:374-380 | Returns the stored trades in arrival order, and an empty list for an unknown symbol. |
| CoreEngine.Engine.GetRecentAggTrades | ingestion_engine/src/core/engine.rs:382-388 | Returns the stored aggregate trades, and an empty list for an unknown symbol. |
| CoreEngine.Engine.GetRecentCandles | ingestion_engine/src/core/engine.rs:390-401 | Returns the queues of all intervals concatenated in some order of the interval keys. |
| CoreEngine.Engine.GetHistory | ingestion_engine/src/core/engine.rs:403-420 | Returns `History` of the symbol's queues for some order of the interval keys: filtered by end time, sorted, the newest `limit`. |
| CoreEngine.Engine.GatherBefore | ingestion_engine/src/core/engine.rs:407-414 | The gathering loop returns, for some order of all the interval keys (each once), the candles of each queue that start before the end time, queue after queue. |
| CoreEngine.Engine.RequestIngestion | ingestion_engine/src/core/engine.rs:422-425 | Returns true exactly when the id was not yet registered; the id is registered afterwards, so a second request returns false. |
| LegacyEngine.PushPrunedKeepsNewest | ingestion_engine/src/engine.rs:62-72 | Push then drop index 0 when over 50 keeps the newest 50 trades, with the new one last. |
| LegacyEngine.Engine.constructor | ingestion_engine/src/engine.rs:34-46 | A new earlier engine stores no books or trades and has sent nothing. |
| LegacyEngine.Engine.UpdateOrderBook | ingestion_engine/src/engine.rs:52-60 | The book is stored under its key (last write wins), trades are unchanged, and exactly one event is sent. |
| LegacyEngine.Engine.AddTrade | ingestion_engine/src/engine.rs:62-76 | Only that symbol's trade list changes, by the pruned push; books are unchanged, and exactly one event is sent. |
| LegacyEngine.Engine.GetOrderBook | ingestion_engine/src/engine.rs:78-81 | Returns a book exactly when one was stored, and that book. |
| DollarBars.AbsorbTick | quant_core/rust_core/src/lib.rs:54-68 | The loop body's state update is `Absorb`: it re-seeds open, high and low on a fresh bar, widens them otherwise, and accumulates volume and dollar value. |
| DollarBars.StepTickSpec | quant_core/rust_core/src/lib.rs:58-83 | A tick closes a bar exactly when the running dollar value reaches the threshold. The bar closes at the tick's time and price, and the state resets without resetting open. Dollar value and volume are conserved by each tick. A fresh bar opens at the tick's price. |
| DollarBars.Ticks | quant_core/rust_core/src/lib.rs:53-56 | The i-th tick is built from the i-th timestamp, price and quantity. |
| DollarBars.RunLength | quant_core/rust_core/src/lib.rs:53-84 | There are no more bars than ticks. |
| DollarBars.BarsReachThreshold | quant_core/rust_core/src/lib.rs:70-77 | Every bar's dollar value is at least the threshold. |
| DollarBars.FinalBelowThreshold | quant_core/rust_core/src/lib.rs:70-87 | With a positive threshold and at least one tick, the returned running dollar value is below the threshold. |
| DollarBars.BarsCloseOnTicks | quant_core/rust_core/src/lib.rs:71-75 | Every bar's timestamp and close are those of some input tick. |
| DollarBars.Conservation | quant_core/rust_core/src/lib.rs:67-80 | Initial dollar value plus the sum of p·q equals the bars' dollar values plus the final running value; the same holds for volume. |
| DollarBars.Composition | quant_core/rust_core/src/lib.rs:34-87 | Processing A and then B from the returned state gives the same bars and final state as processing A ++ B. |
| DollarBars.StepKeepsCoherent | quant_core/rust_core/src/lib.rs:58-75 | From a coherent state a tick keeps the state coherent, and a bar it closes has low <= open, close <= high. |
| DollarBars.CoherentBarsWellFormed | quant_core/rust_core/src/lib.rs:58-75 | From a coherent state every bar has low <= open <= high and low <= close <= high. |
| DollarBars.LaterBarsWellFormed | quant_core/rust_core/src/lib.rs:58-82 | From any carried state, every bar after the first is well formed, since it starts from a reset state. |
| DollarBars.FreshBarsWellFormed | quant_core/rust_core/src/lib.rs:58-82 | From the fresh state every bar is well formed. |
| DollarBars.ProcessDollarBarChunk | quant_core/rust_core/src/lib.rs:10-100 | The loop returns exactly the bars and final state of the fold `Run`. |
| NumbaBars.Pack | quant_core/numba_dollar_bars.py:201-202 | The state is packed as five numbers. |
| NumbaBars.PackRoundTrip | quant_core/numba_dollar_bars.py:110-115 | Unpacking the packed state gives it back, and packing an unpacked state array gives its first five entries, in the order dollar, volume, high, low, open. |
| NumbaBars.InitialCapacity | quant_core/numba_dollar_bars.py:117-119 | The initial buffer capacity `n//10 + 100` is at least 100 and more than n/10. |
| NumbaBars.Doubled | quant_core/numba_dollar_bars.py:169-199 | The new buffer is fresh, twice as long, and starts with the old contents. |
| NumbaBars.Commit | quant_core/numba_dollar_bars.py:151-199 | A commit writes the bar at `bar_idx`, advances it, and leaves `bar_idx` in bounds (doubling when full); the committed prefix grows by the bar. |
| NumbaBars.ProcessDayChunk | quant_core/numba_dollar_bars.py:97-213 | The kernel returns the same bars and (packed) final state as the Rust fold `Run` on the same inputs. |
| Upstream.StreamInjective | ingestion_engine/src/connectors/binance.rs:144-174 | Stream names of one symbol differ exactly when their suffixes differ. |
| Upstream.KindOfSuffix | ingestion_engine/src/connectors/binance.rs:148-174 | A stream's kind can be read back from its suffix. |
| Upstream.SuffixInjective | ingestion_engine/src/connectors/binance.rs:148-174 | Different stream kinds have different suffixes. |
| Upstream.KlineKinds | ingestion_engine/src/connectors/binance.rs:157-159 | One kline stream per configured interval, in config order. |
| Upstream.NameAt | ingestion_engine/src/connectors/binance.rs:144-174 | The i-th stream name is the lower-case symbol, '@' and the i-th kind's suffix. |
| Upstream.NamesMember | ingestion_engine/src/connectors/binance.rs:144-174 | A stream is listed exactly when its kind is. |
| Upstream.PushIf | ingestion_engine/src/connectors/binance.rs:148-150 | A flagged push appends the stream exactly when the flag is set. |
| Upstream.PushKlines | ingestion_engine/src/connectors/binance.rs:157-159 | The kline loop appends one stream per interval in order. |
| Upstream.PushEarly | ingestion_engine/src/connectors/binance.rs:148-156 | The depth, trade and aggTrade streams are pushed in that order when flagged. |
| Upstream.PushLate | ingestion_engine/src/connectors/binance.rs:162-174 | The ticker, bookTicker, markPrice and forceOrder streams are pushed in that order when flagged. |
| Upstream.BuildStreams | ingestion_engine/src/connectors/binance.rs:144-174 | The built list is `StreamList`: depth, trade, aggTrade, klines, ticker, bookTicker, markPrice, forceOrder for the lower-cased symbol. |
| Upstream.KlineKindsMember | ingestion_engine/src/connectors/binance.rs:157-159 | A kline stream is present exactly when its interval is configured. |
| Upstream.EarlyKindsMember | ingestion_engine/src/connectors/binance.rs:148-156 | The depth, trade and aggTrade streams are present exactly when selected. |
| Upstream.LateKindsMember | ingestion_engine/src/connectors/binance.rs:162-174 | The ticker, bookTicker, markPrice and forceOrder streams are present exactly when selected. |
| Upstream.KindsFollowSelection | ingestion_engine/src/connectors/binance.rs:148-174 | A stream kind is in the list exactly when its flag is set. |
| Upstream.StreamListFollowsSelection | ingestion_engine/src/connectors/binance.rs:148-174 | A stream name is in the list exactly when its kind is selected. |
| Upstream.StreamListOnlySelected | ingestion_engine/src/connectors/binance.rs:148-174 | Every listed stream is a selected kind of the symbol. |
| Upstream.StreamsNameTheSymbol | ingestion_engine/src/connectors/binance.rs:144-174 | Every stream name starts with the lower-cased symbol and '@'. |
| Upstream.StreamListEmpty | ingestion_engine/src/connectors/binance.rs:180-183 | The list is empty exactly when no stream is selected. |
| Upstream.UrlListsStreams | ingestion_engine/src/connectors/binance.rs:185 | The URL is the base, '/' and the streams joined by '/', and splitting it recovers the stream list. |
| Upstream.ReadLoop | ingestion_engine/src/connectors/binance.rs:201-221 | The read loop hands on exactly the texts `Delivered` gives for the connector's stop rule. |
| Upstream.TextOnlyStopsAtFirstNonText | ingestion_engine/src/connectors/binance_spot.rs:116 | A `while let Some(Ok(Text))` loop delivers the leading text frames and stops at the first other frame. |
| Upstream.UntilCloseOrErrorDeliversTextsBeforeStop | ingestion_engine/src/connectors/binance.rs:201-221 | The futures loop skips ping and pong frames and stops at a close or read error: it delivers every text before the stop and none after. |
| Upstream.EveryTextDeliversAll | ingestion_engine/src/ingestion.rs:41-43 | The ingester's loop delivers every text frame and ignores the rest. |
| Upstream.NextBackoff | ingestion_engine/src/connectors/binance.rs:229 | The next backoff never exceeds the cap. |
| Upstream.NextBackoffBounds | ingestion_engine/src/connectors/binance.rs:229 | With a positive cap the backoff stays within [1, cap] and does not decrease. |
| Upstream.BackoffDoublesToCap | ingestion_engine/src/connectors/binance.rs:229 | After n refusals in a row the backoff is min(2^n, cap). |
| Upstream.AsWrittenDoubles | ingestion_engine/src/connectors/binance.rs:229 | With the cap at `u64::MAX`, the backoff as written is 2^n for n < 64. |
| Upstream.AsWrittenBackoffCollapses | ingestion_engine/src/connectors/binance.rs:229 | With the cap at `u64::MAX`, the 64th doubling wraps to 0, and the backoff stays 0. |
| Upstream.AsWrittenAgreesBelowWrap | ingestion_engine/src/connectors/binance.rs:229 | The backoff as written and the intended backoff agree while the doubled value fits in 64 bits. |
| Upstream.AfterAttemptAsWrittenBelowWrap | ingestion_engine/src/connectors/binance.rs:196-229 | With a cap below 2^63, each pass's backoff update (reset on a connection, then doubled and capped) equals the source's wrapping `u64` update, and the backoff stays within the cap, so the whole loop agrees with the source. |
| Upstream.Dispatches | ingestion_engine/src/connectors/binance.rs:203-208 | Each delivered text is handed to the handler, in order. |
| Upstream.Pass | ingestion_engine/src/connectors/binance.rs:196-229 | One loop pass performs the connect, the reads or the sleep, and the backoff update that `Block` and `AfterAttempt` give it (the intended, non-wrapping update). |
| Upstream.ReconnectLoop | ingestion_engine/src/connectors/binance.rs:143-230 | The loop over the connection attempts performs exactly `Actions` from backoff 1, with the intended backoff update. |
| Upstream.CountsAppend | ingestion_engine/src/connectors/binance.rs:196-229 | Sleeps and connects of a concatenated trace add up. |
| Upstream.DispatchesHaveNoSleep | ingestion_engine/src/connectors/binance.rs:201-221 | Reading frames neither sleeps nor connects. |
| Upstream.SleepOnlyOnRefusal | ingestion_engine/src/connectors/binance.rs:196-226 | There is one connect per attempt, and one sleep per refused attempt and none otherwise. |
| Upstream.SleepsWithinCap | ingestion_engine/src/connectors/binance.rs:225-229 | Every sleep lasts between 1 and the cap, under the intended backoff update. |
| Upstream.ConnectsOnlyToUrl | ingestion_engine/src/connectors/binance.rs:185-196 | Every connect goes to the one URL built before the loop. |
| Upstream.ReconnectResetsBackoff | ingestion_engine/src/connectors/binance.rs:198 | After a successful connection what follows does not depend on the earlier backoff. |
| Upstream.SleepAfterReset | ingestion_engine/src/connectors/binance.rs:198-229 | A refusal right after a connection sleeps min(2, cap) seconds. |
| Upstream.ActionsCons | ingestion_engine/src/connectors/binance.rs:143-230 | The trace of attempts a :: rest is a's block followed by the trace of the rest from the updated backoff. |
| Upstream.Markers | ingestion_engine/src/connectors/binance.rs:241-345 | The i-th marker is that of the i-th event kind. |
| Upstream.ClassifyPicksFirstMarker | ingestion_engine/src/connectors/binance.rs:241-358 | A message is classified by the first kind whose marker it contains, and is unclassified exactly when it contains none. |
| Upstream.TakerSide | ingestion_engine/src/connectors/binance.rs:249 | Side is Sell exactly when `is_buyer_maker`. |
| Upstream.ParseRawLevels | ingestion_engine/src/connectors/binance.rs:364-371 | Levels keep length and order; each price and quantity is the parsed value, or 0.0 when it does not parse. |
| FuturesConnector.LiquidationSide | ingestion_engine/src/connectors/binance.rs:347-350 | A liquidation is Sell exactly when the side is "SELL", and Buy otherwise. |
| FuturesConnector.CallsForOutcome | ingestion_engine/src/connectors/binance.rs:241-358 | A classified message fails exactly when its struct does not decode. Otherwise it gives one engine call of its kind (two for a mark-price update, the second a funding-rate update), keyed and labelled by the unique id. |
| FuturesConnector.HandleMessageOutcome | ingestion_engine/src/connectors/binance.rs:238-361 | An unclassified message causes no engine call; a classified one causes the calls of its kind. |
| FuturesConnector.DepthUpdateId | ingestion_engine/src/connectors/binance.rs:253-262 | A depth book takes `u` when present, else `lastUpdateId`, with its levels parsed by `parse_raw_levels`. |
| FuturesConnector.MarkPriceCarriesFunding | ingestion_engine/src/connectors/binance.rs:326-342 | A mark-price update stores the mark price and a funding rate whose time is `next_funding_time`, and touches no other symbol. |
| FuturesConnector.LiquidationSideRule | ingestion_engine/src/connectors/binance.rs:345-357 | A liquidation's side is Sell exactly when the order side is "SELL". |
| FuturesConnector.BaseUrl | ingestion_engine/src/connectors/binance.rs:133-141 | There is no base URL exactly for an unsupported market type. |
| FuturesConnector.ConnectBinance | ingestion_engine/src/connectors/binance.rs:120-231 | The connector performs exactly the session `Run` describes. |
| FuturesConnector.RunConnectsToSelectedStreams | ingestion_engine/src/connectors/binance.rs:133-229 | An unsupported market or an empty stream list returns without connecting. Otherwise there is one connect per attempt, to base + "/" + the selected streams, and one sleep per refusal. |
| SpotConnector.CallForOutcome | ingestion_engine/src/connectors/binance_spot.rs:138-188 | A classified message fails exactly when its struct does not decode. The call is keyed by the connector's symbol; the trade, candle and aggregate trade carry the event's `s`, and the book carries the connector's symbol. |
| SpotConnector.HandleMessageOutcome | ingestion_engine/src/connectors/binance_spot.rs:137-190 | An unclassified message returns Ok with no call; a classified one is the call of its kind or its decode error. |
| SpotConnector.ConnectBinance | ingestion_engine/src/connectors/binance_spot.rs:73-131 | The connector performs exactly the session `Run` describes. |
| SpotConnector.RunConnectsToSelectedStreams | ingestion_engine/src/connectors/binance_spot.rs:79-128 | Only depth, trade, aggTrade and kline streams are ever listed. An empty selection returns without connecting. Otherwise there is one connect per attempt to `binance_ws_url` + "/" + the streams, and one sleep per refusal. |
| LegacyConnector.Levels | ingestion_engine/src/exchanges/binance.rs:184-191 | Levels keep length and order, with 0.0 for an unparseable number. |
| LegacyConnector.CallForMirrorsSpot | ingestion_engine/src/exchanges/binance.rs:130-180 | The earlier handler fails, and picks its call kind and keys, exactly as the spot connector does. |
| LegacyConnector.HandleMessageMirrorsSpot | ingestion_engine/src/exchanges/binance.rs:129-182 | The earlier handler ignores and rejects exactly the messages the spot handler does. |
| LegacyConnector.ConnectBinance | ingestion_engine/src/exchanges/binance.rs:76-123 | The connector performs exactly the session `Run` describes. |
| LegacyConnector.RunDepthAndSleeps | ingestion_engine/src/exchanges/binance.rs:80-120 | The book stream is `@depth20` exactly when the book is enabled, and every sleep is at most the fixed cap of 60 seconds. |
| Ingestion.UrlListsStreams | ingestion_engine/src/ingestion.rs:15-27 | The URL is the combined-stream base followed by exactly the nine streams joined by "/". |
| Ingestion.Set | ingestion_engine/src/ingestion.rs:52-74 | Writing a slot changes that slot only. |
| Ingestion.RouteIsFirstMatch | ingestion_engine/src/ingestion.rs:50-77 | A stream is routed to the slot of the first pattern it contains, and ignored when it contains none. |
| Ingestion.UpdateWritesOneSlot | ingestion_engine/src/ingestion.rs:43-77 | A frame writes its payload into at most one slot; every other slot is unchanged. |
| Ingestion.UpdateIdempotent | ingestion_engine/src/ingestion.rs:50-77 | Applying the same frame twice is the same as applying it once. |
| Ingestion.UpdatesCommute | ingestion_engine/src/ingestion.rs:50-77 | Frames writing different slots commute. |
| Ingestion.StreamContains | ingestion_engine/src/ingestion.rs:50-77 | A plain symbol's stream contains "@p" exactly when p is a prefix of its suffix. |
| Ingestion.RouteByPrefix | ingestion_engine/src/ingestion.rs:50-77 | A plain symbol's stream is routed by its suffix alone. |
| Ingestion.NotPrefix | ingestion_engine/src/ingestion.rs:50-77 | Strings that differ at the first character are not prefixes of one another. |
| Ingestion.KlineRoutes | ingestion_engine/src/ingestion.rs:71-73 | Every kline stream, whatever its interval, writes the one `last_kline` slot. |
| Ingestion.BookTickerRoutes | ingestion_engine/src/ingestion.rs:66-69 | The bookTicker stream writes the `ticker` slot. |
| Ingestion.AggTradeRoutes | ingestion_engine/src/ingestion.rs:51-54 | The aggTrade stream writes `last_trade`. |
| Ingestion.ForceOrderRoutes | ingestion_engine/src/ingestion.rs:56-59 | The forceOrder stream writes `last_liquidation`. |
| Ingestion.MarkPriceRoutes | ingestion_engine/src/ingestion.rs:61-64 | The markPrice stream writes `mark_price`. |
| Ingestion.SubscribedKlinesRoute | ingestion_engine/src/ingestion.rs:21-25 | All five subscribed kline streams route to `last_kline`. |
| Ingestion.UnwrittenSlotKept | ingestion_engine/src/ingestion.rs:41-80 | A slot that no frame writes keeps its value. |
| Ingestion.LastWriteWins | ingestion_engine/src/ingestion.rs:41-80 | A slot holds the payload of the last frame that wrote it. |
| Ingestion.UpdateAllAppend | ingestion_engine/src/ingestion.rs:41-80 | Processing frames in two runs equals processing them in one. |
| Ingestion.Snapshot.constructor | ingestion_engine/src/ingestion.rs:11 | The shared snapshot starts with all five slots empty. |
| Ingestion.Snapshot.HandleText | ingestion_engine/src/ingestion.rs:42-78 | A text frame updates the snapshot as `Update` says. |
| Ingestion.Snapshot.ReadAll | ingestion_engine/src/ingestion.rs:41-80 | The read loop applies the text frames in order. |
| Ingestion.Snapshot.StartIngestion | ingestion_engine/src/ingestion.rs:11-88 | It panics exactly when the URL does not parse. Otherwise it performs `IngestActions` and applies every text frame of every connection. |
| Ingestion.Snapshot.ReconnectForever | ingestion_engine/src/ingestion.rs:35-88 | The loop performs `IngestActions` over the attempts and applies their text frames. |
| Ingestion.Snapshot.Advance | ingestion_engine/src/ingestion.rs:35-88 | One turn of the reconnect loop extends the actions by that attempt's block and applies that attempt's texts, so what remains to be done is the run of the attempts after it. |
| Ingestion.Snapshot.OnePass | ingestion_engine/src/ingestion.rs:36-87 | One pass connects, then reads, or sleeps 5 seconds on error. |
| Ingestion.IngestBlockIsBlock | ingestion_engine/src/ingestion.rs:36-87 | A pass is the shared connector block with a fixed 5-second sleep and every text delivered. |
| Ingestion.IngestSleepsOnlyOnError | ingestion_engine/src/ingestion.rs:81-86 | Every sleep is 5 seconds and follows a refused connect; a disconnect reconnects at once; every connect uses the one URL. |
| Ingestion.DispatchedTextsAppend | ingestion_engine/src/ingestion.rs:41-80 | Texts handled by a concatenated trace add up. |
| Ingestion.DispatchedTextsOfDispatches | ingestion_engine/src/ingestion.rs:41-43 | Dispatching texts handles exactly those texts. |
| Ingestion.IngestDispatchesAllTexts | ingestion_engine/src/ingestion.rs:35-88 | The run handles exactly the text frames of all connections, in order. |
| RestHistory.BaseUrl | ingestion_engine/src/connectors/binance/binance_rest.rs:21-26 | Spot, linear and inverse futures have a REST base; every other market is an error. |
| RestHistory.HistoryUrlOutcome | ingestion_engine/src/connectors/binance/binance_rest.rs:21-41 | The URL is an error exactly for an unsupported market, and the symbol's letter case does not matter. |
| RestHistory.HistoryUrlStartsWithEndpoint | ingestion_engine/src/connectors/binance/binance_rest.rs:31-41 | The URL is the market's base, its klines endpoint and "?symbol=". |
| RestHistory.ParseKlineArray | ingestion_engine/src/connectors/binance/binance_rest.rs:65-112 | The parsing loop computes `ParseKlines`. |
| RestHistory.ParseEntriesFails | ingestion_engine/src/connectors/binance/binance_rest.rs:72-73 | Parsing fails exactly when some element is not an array. |
| RestHistory.ParseEntriesCandles | ingestion_engine/src/connectors/binance/binance_rest.rs:72-108 | On success the candles correspond one-to-one and in order to the elements with at least 7 entries, each built by `CandleOf`. |
| RestHistory.ParsedCandlesLabelled | ingestion_engine/src/connectors/binance/binance_rest.rs:95-106 | Every candle is closed and carries the given symbol and interval. |
| RestHistory.FetchHistoryOutcome | ingestion_engine/src/connectors/binance/binance_rest.rs:13-59 | An unsupported market is an error without a request. A failed request and a non-2xx status are errors. A 2xx body is parsed with the caller's symbol and interval, and success implies a 2xx reply. |
| WsServer.Msgs | ingestion_engine/src/api/ws_server.rs:79-98 | One message per item, in order. |
| WsServer.SubscribeReplyOrder | ingestion_engine/src/api/ws_server.rs:73-107 | The subscribe reply is: the book if any, the recent trades, the aggregate trades, the candles, then one `HistoricalCandles` only when the history is non-empty. It is the only historical message. |
| WsServer.AfterCommandTouchesOnlyItsChannel | ingestion_engine/src/api/ws_server.rs:54-123 | Subscribe inserts the channel, Unsubscribe removes it, FetchHistory leaves the set alone, and no other topic changes. |
| WsServer.TopicsWithinSubscribed | ingestion_engine/src/api/ws_server.rs:43-111 | The topic set only ever holds topics held at the start or named by a Subscribe. |
| WsServer.ForwardedAreSubscribed | ingestion_engine/src/api/ws_server.rs:131-146 | No forwarded item is historical, and each names a symbol that was subscribed. |
| WsServer.UnsubscribeStopsForwarding | ingestion_engine/src/api/ws_server.rs:109-146 | After an Unsubscribe of a symbol that no later command resubscribes, no event of that symbol is forwarded. |
| WsServer.Connection.constructor | ingestion_engine/src/api/ws_server.rs:41-45 | A connection starts open with no topics and nothing sent. |
| WsServer.Connection.SendAll | ingestion_engine/src/api/ws_server.rs:79-98 | Each item is written in order. |
| WsServer.Connection.HandleSubscribe | ingestion_engine/src/api/ws_server.rs:54-108 | Subscribe registers the symbol and spawns a connector with `cmd.config` or the defaults exactly when the id was new. It inserts the topic and writes the snapshot. |
| WsServer.Connection.Register | ingestion_engine/src/api/ws_server.rs:57-70 | The ingestion is requested, a connector is spawned only for a new id, and the topic is inserted. |
| WsServer.Connection.WriteSnapshot | ingestion_engine/src/api/ws_server.rs:73-107 | Writes the recent state, then the history up to now, with the configured limit, when it is non-empty. |
| WsServer.Connection.WriteRecent | ingestion_engine/src/api/ws_server.rs:73-98 | Writes the book, trades, aggregate trades and candles, in that order. |
| WsServer.Connection.WriteBook | ingestion_engine/src/api/ws_server.rs:73-77 | Writes the book only when there is one. |
| WsServer.Connection.WriteTrades | ingestion_engine/src/api/ws_server.rs:79-84 | Writes one message per recent trade. |
| WsServer.Connection.WriteAggTrades | ingestion_engine/src/api/ws_server.rs:86-91 | Writes one message per recent aggregate trade. |
| WsServer.Connection.WriteCandles | ingestion_engine/src/api/ws_server.rs:93-98 | Writes one message per recent candle. |
| WsServer.Connection.HandleFetchHistory | ingestion_engine/src/api/ws_server.rs:112-123 | Writes exactly one `HistoricalCandles` (possibly empty), with `end_time` defaulting to now and the configured limit. |
| WsServer.Connection.HandleCommand | ingestion_engine/src/api/ws_server.rs:53-124 | Updates the topics per the command. Only a Subscribe can spawn or register. The client receives exactly `Reply` of the command over what the engine holds for the channel (`ReadFrom`): a Subscribe its snapshot, a FetchHistory one history message up to `end_time` or now, an Unsubscribe nothing. |
| WsServer.Connection.HandleText | ingestion_engine/src/api/ws_server.rs:50-124 | A text frame that does not decode changes nothing and writes nothing; one that decodes is handled as that command, and its reply is `Answered` from the engine. |
| WsServer.Connection.Handle | ingestion_engine/src/api/ws_server.rs:47-151 | One turn: the client receives exactly `Written` of the input: the engine's reply to a decoded command, a broadcast exactly when its symbol is subscribed, and nothing for undecodable text, other frames or receive errors. The connection ends on a non-text frame, a receive error (lag included) or a failed forward. |
| WsServer.Connection.Serve | ingestion_engine/src/api/ws_server.rs:47-152 | The loop's topics and forwarded items are `TopicsAfter` and `ForwardedBy` of the consumed inputs, and it stops only at an ending input. Everything the client receives is `SentBy` of the consumed inputs: command replies and forwarded items in input order, each reply `Answered` from the engine. The connectors spawned are for new, pairwise distinct symbols. |
| WsServer.Connection.Turn | ingestion_engine/src/api/ws_server.rs:46-152 | One iteration of the loop keeps every loop fact, extended by the one input it consumes. |
| WsServer.SentWithoutCommands | ingestion_engine/src/api/ws_server.rs:131-146 | A client that sends no command receives exactly the forwarded items. |
| LegacyServer.SubscribeReplyOrder | ingestion_engine/src/server.rs:75-88 | The earlier subscribe reply is the book if any, then one message per stored trade in order. |
| LegacyServer.ForwardedWereSubscribed | ingestion_engine/src/server.rs:101-116 | Every forwarded item names a symbol that was subscribed when it arrived. |
| LegacyServer.Connection.constructor | ingestion_engine/src/server.rs:56-58 | A connection starts open with no topics and nothing sent. |
| LegacyServer.Connection.HandleSubscribe | ingestion_engine/src/server.rs:71-89 | Inserts the topic, then writes the book if any and the stored trades. |
| LegacyServer.Connection.Handle | ingestion_engine/src/server.rs:63-124 | One turn: the client receives exactly `Written` of the input: a Subscribe's book and stored trades, nothing for an Unsubscribe or undecodable text, a broadcast exactly when subscribed. A lagged receive is skipped and keeps the connection; a closed channel, a non-text frame and a failed forward end it. |
| LegacyServer.Connection.Serve | ingestion_engine/src/server.rs:63-124 | The loop consumes every input exactly when none ends the connection; lags never do. Everything the client receives is `SentBy` of the consumed inputs: subscribe replies and forwarded items in input order. |
| LegacyServer.SentWithoutCommands | ingestion_engine/src/server.rs:101-116 | A client that sends no command receives exactly the forwarded items. |
| Cli.ExchangeOf | ingestion_engine/src/main.rs:88-92 | The exchange is Bybit exactly for "BYBIT", and Binance otherwise. |
| Cli.MarketOf | ingestion_engine/src/main.rs:93-97 | The market is linear futures exactly for "FUTURE" or "LINEAR", and Spot otherwise. |
| Cli.ParseLineOutcome | ingestion_engine/src/main.rs:81-101 | A line is ignored exactly when it is blank after trimming. Otherwise the symbol is the whole upper-cased line (when it does not have three parts), or the third part. |
| Cli.ParseThreeParts | ingestion_engine/src/main.rs:85-98 | `EXCHANGE:MARKET:SYMBOL` with colon-free parts parses to those three parts. |
| Cli.ParseBareSymbol | ingestion_engine/src/main.rs:99-101 | A line with no ':' is a Binance spot symbol. |
| Cli.DefaultIdIgnoresCase | ingestion_engine/src/main.rs:41-44 | Default symbols equal up to letter case share one id, and so one connector. |
| Cli.GateSplitsRequests | ingestion_engine/src/main.rs:105-122 | Every request is either spawned or reported as already active. |
| Cli.AdmittedOnce | ingestion_engine/src/main.rs:105-122 | Spawned requests come from the input, their ids were not active and are pairwise distinct, and every requested id ends up active. |
| Cli.Gate | ingestion_engine/src/main.rs:105-122 | The request loop spawns exactly `Admitted`, reports exactly `Refused`, and registers every requested id. |
| Cli.Found | ingestion_engine/src/main.rs:78-83 | Lines that yield nothing are dropped, so there are no more requests than lines. |
| Cli.RequestsFollowLines | ingestion_engine/src/main.rs:78-101 | The k-th request is the parse of a non-blank line, at strictly increasing line indices, and every non-blank line yields a request. |
| Cli.SpawnDefaults | ingestion_engine/src/main.rs:41-61 | One Binance spot connector per default symbol whose upper-cased id was new. |
| Cli.ReadLines | ingestion_engine/src/main.rs:78-125 | Over the typed lines the gate spawns exactly the admitted targets and reports the rest, keyed by `unique_id`. |

## Left out

- I/O is not modelled: sockets, HTTP, standard input and the clock. They are replaced by scripted attempts, input sequences, a URL-to-response function and a `now` parameter.
- Concurrency is not modelled: tokio tasks, `RwLock`s and the broadcast channel's capacity. Every engine call is one atomic step. Because of the spawn per frame, the order in which handlers run is not claimed; the model only records the order of dispatch.
- Floating point is modelled as `real`: NaN, infinities other than the bar sentinels, and rounding are not. `str::parse::<f64>` is the `FloatParser` parameter.
- `serde_json` and `serde_json::to_string` are modelled as decoders and values. A failed serialisation, which the source skips silently, is not modelled: every message is written.
- These are not part of this model:
  - `AppConfig::load`;
  - `sanitize_for_market` (the connector takes the already sanitised selection);
  - `spawn_connector` (a spawn is recorded as a `Spawn` or `Target` value);
  - the `Display` impls of `Exchange` and `MarketType` (parameters in `Cli.Naming`);
  - `Url::parse` (a parameter);
  - the `GlobalSnapshot`/`CombinedEvent` structs (slots hold the decoded JSON payload).
- Also outside the model: the Markowitz frontier scripts, the dashboard and stress scripts, the parquet and pandas drivers of the dollar bars, and the tests.
- Error strings are modelled as variants (`RestError`), not as their text.
- When standard input reaches its end, `read_line` succeeds with an empty line forever. The model reads a finite sequence of lines.
- The earlier server calls `get_recent_trades`, which the earlier engine does not declare; the model reads the trades that engine stores.
- The earlier server's `match` names only two of the four variants; the model takes the symbol of every variant.
- The store does not reject crossed books or decreasing update ids, and history is neither deduplicated by start time nor strictly ascending: `CoreEngineSpec.StaleCrossedBookAccepted` and `CoreEngineSpec.HistoryKeepsDuplicates` state this behaviour as written.
- CoreEngine.Engine.GetRecentCandles: the order of the interval queues follows `HashMap` iteration, which is unspecified, so the contract holds for some order of the keys rather than a fixed one.
- CoreEngine.Engine.GetHistory: for the same reason, candles with equal start times from different intervals are ordered by an unspecified key order.
- NumbaBars.ProcessDayChunk: the seven parallel output arrays are modelled as one array of bar records, so "all seven are resized together" holds by construction.
- WsServer.Connection.Serve: the spawned connector's own run is not modelled, only the record of the spawn.
- In the WebSocket server, `serde_json::from_str::<Command>` is the decoder parameter `decode`; `WsServer.Decoder` is that decoder built from a JSON text parser and `Models.DecodeCommand`, and the connection's contracts hold for any decoder, so for it too.
- Text.Lower/Text.Upper: only ASCII letters are case-mapped; Unicode case mapping (`str::to_lowercase`, `str::to_uppercase`), which can change the length (for example "ß" upper-cases to "SS"), is not modelled. This matters for `Cli.ParseLine`, which upper-cases arbitrary typed lines.
- WsServer.Forwards: the server's `match` on a broadcast item names only the book, trade, aggregate-trade, candle and history variants; the model forwards every other variant (ticker, book ticker, mark price, liquidation, funding rate, open interest) by the symbol it names, in the same way.
- DollarBars.ProcessDollarBarChunk: inputs whose quantity or timestamp columns are shorter than the price column are excluded by its precondition. In the source, a short quantity column panics on an out-of-bounds index for any such input, and a short timestamp column panics only when a bar closes past its end; the model requires both columns to be at least as long as the prices.
- DollarBars.Ticks: the same precondition on the column lengths, for the same reason.
- Upstream.AfterAttempt: the reconnect loop updates the backoff with the intended `NextBackoff` (doubled, capped), not the wrapping `u64` product `backoff_seconds * 2` of connectors/binance.rs:229 and connectors/binance_spot.rs:128 (see "## Findings"). The two agree at every pass whenever the cap is below 2^63 (`Upstream.AfterAttemptAsWrittenBelowWrap`). With a larger cap, the source's backoff wraps to 0 after 64 refusals in a row (`Upstream.AsWrittenBackoffCollapses`), and the model does not follow it there.
- Upstream.Pass: performs that intended update, so for a cap of 2^63 or more it differs from the source once the backoff reaches 2^63.
- Upstream.ReconnectLoop: its `Actions` are built on the intended update, for the same reason.
- Upstream.SleepsWithinCap: the lower bound of one second holds for the intended update; the source as written sleeps 0 s after the wrap, which needs a cap of 2^63 or more.
- FuturesConnector.ConnectBinance: its reconnect loop uses the intended update, so it agrees with connectors/binance.rs:229 only while the configured cap is below 2^63.
- SpotConnector.ConnectBinance: the same, for connectors/binance_spot.rs:128.

## Findings

| source | as written | input that shows it | evidently intended | confidence | as-written member | corrected member |
|---|---|---|---|---|---|---|
| ingestion_engine/src/connectors/binance.rs:229 | `min(backoff_seconds * 2, binance_reconnect_delay)` on `u64`: the product wraps in a release build | `binance_reconnect_delay = 18446744073709551615`, then 64 refused connections in a row: the backoff reaches 2^63, doubles to 0 and stays 0, so the connector retries without sleeping | the backoff doubles up to the cap and stays there | low (needs an extreme setting); not executed | Upstream.AsWrittenBackoffCollapses | Upstream.BackoffDoublesToCap |
