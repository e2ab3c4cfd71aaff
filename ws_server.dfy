/** One client connection of the WebSocket server (ingestion_engine/src/api/ws_server.rs): the set
    of subscribed symbols that Subscribe and Unsubscribe commands change, the snapshot a Subscribe
    replies with, the one history message a FetchHistory replies with, the membership filter on the
    engine's broadcast, and the rules that end the connection. The socket is the sequence of
    messages written to it; reading it and the broadcast receiver are the sequence of inputs the
    `select!` loop takes, in the order it takes them. */
module WsServer {
  import opened Wrappers
  import opened Numbers
  import opened Models
  import opened Config
  import opened CoreEngineSpec
  import Json
  import CoreEngine
  import Upstream

  /** What the connection's loop takes next. A client text carries the wall-clock time at which it
      is handled (the time a Subscribe or FetchHistory reads); a broadcast item carries whether
      writing it to the client succeeds. */
  datatype Input =
    | ClientText(text: string, clock: U64)
    /** A binary, ping, pong or close frame, a read error, or the end of the client's stream. */
    | ClientOther
    | Broadcast(data: MarketData, writeOk: bool)
    /** The broadcast receiver lagged behind or was closed. */
    | RecvError

  /** A connector task started for a symbol no one had requested yet, with its stream settings. */
  datatype Spawn = Spawn(symbol: string, config: StreamConfig)

  /** `serde_json::from_str::<Command>`: the JSON text parser is a parameter, the derived decoder
      is `DecodeCommand`. */
  function DecodeText(parse: string -> Option<Json.Value>, text: string): Option<Command> {
    match parse(text)
    case None => None
    case Some(v) => DecodeCommand(v)
  }

  /** The server's command decoder: `serde_json::from_str::<Command>` for the JSON text parser
      `parse`. The connection below is stated for any decoder, so in particular for this one. */
  function Decoder(parse: string -> Option<Json.Value>): string -> Option<Command> {
    text => DecodeText(parse, text)
  }

  /** One message per item, in order. */
  function Msgs<T>(xs: seq<T>, f: T -> MarketData): (r: seq<MarketData>)
    ensures |r| == |xs|
    ensures forall i :: 0 <= i < |xs| ==> r[i] == f(xs[i])
  {
    if xs == [] then [] else Msgs(xs[..|xs| - 1], f) + [f(xs[|xs| - 1])]
  }

  function AsTrade(t: Trade): MarketData { TradeMsg(t) }
  function AsAggTrade(t: AggTrade): MarketData { AggTradeMsg(t) }
  function AsCandle(c: Candle): MarketData { CandleMsg(c) }

  /** The part of the snapshot read from the symbol's current state: the book if there is one, the
      recent trades, the recent aggregate trades, the recent candles. */
  function Recent(book: Option<OrderBook>, trades: seq<Trade>, aggTrades: seq<AggTrade>, candles: seq<Candle>): seq<MarketData> {
    (if book.Some? then [OrderBookMsg(book.value)] else [])
    + Msgs(trades, AsTrade) + Msgs(aggTrades, AsAggTrade) + Msgs(candles, AsCandle)
  }

  /** The snapshot a Subscribe writes: the recent state, then the history only when it is not
      empty. */
  function SubscribeReply(book: Option<OrderBook>, trades: seq<Trade>, aggTrades: seq<AggTrade>,
                          candles: seq<Candle>, history: seq<Candle>): seq<MarketData> {
    Recent(book, trades, aggTrades, candles) + (if history == [] then [] else [HistoricalCandles(history)])
  }

  /** The snapshot of a symbol's state as a value, with the interval orders of its two candle reads. */
  ghost function SnapshotOf(v: SymbolView, candleOrder: seq<string>, historyOrder: seq<string>, now: U64, limit: nat): seq<MarketData> {
    SubscribeReply(v.orderBook, v.trades, v.aggTrades, Concat(v.candles, candleOrder), History(v.candles, historyOrder, now, limit))
  }

  /** One position of the recent part of the snapshot: which message sits there. */
  lemma RecentAt(book: Option<OrderBook>, trades: seq<Trade>, aggTrades: seq<AggTrade>, candles: seq<Candle>, i: int)
    requires 0 <= i < |Recent(book, trades, aggTrades, candles)|
    ensures var r := Recent(book, trades, aggTrades, candles);
      var o := if book.Some? then 1 else 0;
      var t, a := o + |trades|, o + |trades| + |aggTrades|;
      && (i < o ==> r[i] == OrderBookMsg(book.value))
      && (o <= i < t ==> r[i] == TradeMsg(trades[i - o]))
      && (t <= i < a ==> r[i] == AggTradeMsg(aggTrades[i - t]))
      && (a <= i ==> r[i] == CandleMsg(candles[i - a]))
  {
    var head := if book.Some? then [OrderBookMsg(book.value)] else [];
    var ts, as_, cs := Msgs(trades, AsTrade), Msgs(aggTrades, AsAggTrade), Msgs(candles, AsCandle);
    var r := Recent(book, trades, aggTrades, candles);
    assert r == ((head + ts) + as_) + cs;
  }

  /** The snapshot holds one message per stored item, book first, trades before aggregate trades
      before candles, and carries the history as its last message exactly when the history is not
      empty; no other message of it is a history. */
  lemma SubscribeReplyOrder(book: Option<OrderBook>, trades: seq<Trade>, aggTrades: seq<AggTrade>,
                            candles: seq<Candle>, history: seq<Candle>)
    ensures var r := SubscribeReply(book, trades, aggTrades, candles, history);
      var o := if book.Some? then 1 else 0;
      var t, a, c := o + |trades|, o + |trades| + |aggTrades|, o + |trades| + |aggTrades| + |candles|;
      && |r| == c + (if history == [] then 0 else 1)
      && (book.Some? ==> r[0] == OrderBookMsg(book.value))
      && (forall i :: o <= i < t ==> r[i] == TradeMsg(trades[i - o]))
      && (forall i :: t <= i < a ==> r[i] == AggTradeMsg(aggTrades[i - t]))
      && (forall i :: a <= i < c ==> r[i] == CandleMsg(candles[i - a]))
      && (forall i :: 0 <= i < |r| ==> (r[i].HistoricalCandles? <==> history != [] && i == c))
      && (history != [] ==> r[c] == HistoricalCandles(history))
  {
    var recent := Recent(book, trades, aggTrades, candles);
    var tail := if history == [] then [] else [HistoricalCandles(history)];
    var r := SubscribeReply(book, trades, aggTrades, candles, history);
    assert r == recent + tail;
    forall i | 0 <= i < |recent| ensures r[i] == recent[i] && !r[i].HistoricalCandles? {
      RecentAt(book, trades, aggTrades, candles, i);
    }
    forall i | 0 <= i < |recent|
      ensures var o := if book.Some? then 1 else 0;
        var t, a := o + |trades|, o + |trades| + |aggTrades|;
        && (i < o ==> r[i] == OrderBookMsg(book.value))
        && (o <= i < t ==> r[i] == TradeMsg(trades[i - o]))
        && (t <= i < a ==> r[i] == AggTradeMsg(aggTrades[i - t]))
        && (a <= i ==> r[i] == CandleMsg(candles[i - a]))
    {
      RecentAt(book, trades, aggTrades, candles, i);
    }
  }

  /** What handling one command read from the engine: the channel's state and the orders in which
      the recent-candles read and the history read went through its map of intervals. */
  datatype Reading = Reading(view: SymbolView, candleOrder: seq<string>, historyOrder: seq<string>)

  /** `reading` is what the engine holds for `symbol`, read in some order of its intervals. */
  ghost predicate ReadFrom(engine: CoreEngine.Engine, symbol: string, reading: Reading)
    reads engine`registry, engine.registry.Values
  {
    && reading.view == engine.ViewOf(symbol)
    && IsKeyOrder(reading.candleOrder, reading.view.candles.Keys)
    && IsKeyOrder(reading.historyOrder, reading.view.candles.Keys)
  }

  /** Some order of a set of intervals, each once. */
  ghost function SomeKeyOrder(keys: set<string>): (order: seq<string>)
    ensures IsKeyOrder(order, keys)
    decreases |keys|
  {
    if keys == {} then []
    else
      var k :| k in keys;
      [k] + SomeKeyOrder(keys - {k})
  }

  /** What a decoded command handled at `now` writes to the client: a Subscribe the snapshot of its
      channel, a FetchHistory one history message up to its end time or else `now`, an Unsubscribe
      nothing. */
  ghost function Reply(cmd: Command, now: U64, limit: nat, reading: Reading): seq<MarketData> {
    match cmd.action
    case Subscribe => SnapshotOf(reading.view, reading.candleOrder, reading.historyOrder, now, limit)
    case Unsubscribe => []
    case FetchHistory => [HistoricalCandles(History(reading.view.candles, reading.historyOrder, cmd.endTime.GetOr(now), limit))]
  }

  /** The command a client text decodes to, if it is one. */
  function CommandIn(decode: string -> Option<Command>, input: Input): Option<Command> {
    if input.ClientText? then decode(input.text) else None
  }

  /** What one input writes to the client: `reply` for a decoded command, a broadcast item the
      filter lets through, and nothing for any other input (an undecodable text included). */
  function Written(topics: set<string>, decode: string -> Option<Command>, input: Input, reply: seq<MarketData>): seq<MarketData> {
    match input
    case ClientText(text, _) => if decode(text).Some? then reply else []
    case Broadcast(d, _) => if Forwards(topics, d) then [d] else []
    case _ => []
  }

  /** Every message a run of inputs writes to the client, in order, given the reply each command
      wrote. */
  function SentBy(topics: set<string>, decode: string -> Option<Command>, inputs: seq<Input>, replies: seq<seq<MarketData>>): seq<MarketData>
    requires |replies| == |inputs|
  {
    if inputs == [] then []
    else
      var n := |inputs| - 1;
      SentBy(topics, decode, inputs[..n], replies[..n]) + Written(TopicsAfter(topics, decode, inputs[..n]), decode, inputs[n], replies[n])
  }

  /** Handling one more input appends what it writes. */
  lemma SentBySnoc(topics: set<string>, decode: string -> Option<Command>, inputs: seq<Input>, n: nat,
                   replies: seq<seq<MarketData>>, reply: seq<MarketData>)
    requires n < |inputs| && |replies| == n
    ensures SentBy(topics, decode, inputs[..n + 1], replies + [reply])
         == SentBy(topics, decode, inputs[..n], replies) + Written(TopicsAfter(topics, decode, inputs[..n]), decode, inputs[n], reply)
  {
    assert inputs[..n + 1][..n] == inputs[..n] && inputs[..n + 1][n] == inputs[n];
    assert (replies + [reply])[..n] == replies && (replies + [reply])[n] == reply;
  }

  /** If `input` is a decoded command, it read what the engine holds for its channel and wrote the
      reply `Reply` gives for that reading at the time the text was handled. */
  ghost predicate Answered(engine: CoreEngine.Engine, decode: string -> Option<Command>, limit: nat, input: Input,
                           reading: Reading, reply: seq<MarketData>)
    reads engine`registry, engine.registry.Values
  {
    CommandIn(decode, input).Some? ==>
      && ReadFrom(engine, CommandIn(decode, input).value.channel, reading)
      && reply == Reply(CommandIn(decode, input).value, input.clock, limit, reading)
  }

  /** Every command among the inputs was `Answered`. */
  ghost predicate Replied(engine: CoreEngine.Engine, decode: string -> Option<Command>, limit: nat, inputs: seq<Input>,
                          readings: seq<Reading>, replies: seq<seq<MarketData>>)
    requires |readings| == |replies| <= |inputs|
    reads engine`registry, engine.registry.Values
  {
    forall k :: 0 <= k < |replies| ==> Answered(engine, decode, limit, inputs[k], readings[k], replies[k])
  }

  /** One more input answered keeps `Replied`. */
  lemma RepliedSnoc(engine: CoreEngine.Engine, decode: string -> Option<Command>, limit: nat, inputs: seq<Input>,
                    readings: seq<Reading>, replies: seq<seq<MarketData>>, reading: Reading, reply: seq<MarketData>)
    requires |readings| == |replies| < |inputs| && Replied(engine, decode, limit, inputs, readings, replies)
    requires Replied(engine, decode, limit, [inputs[|replies|]], [reading], [reply])
    ensures Replied(engine, decode, limit, inputs, readings + [reading], replies + [reply])
  {
    assert Answered(engine, decode, limit, [inputs[|replies|]][0], [reading][0], [reply][0]);
    var rs, ws := readings + [reading], replies + [reply];
    forall k | 0 <= k < |ws| ensures Answered(engine, decode, limit, inputs[k], rs[k], ws[k]) {
      if k < |replies| {
        assert rs[k] == readings[k] && ws[k] == replies[k];
      }
    }
  }

  /** Without a decodable command among the inputs, the client receives exactly the forwarded
      broadcast items, whatever the replies. */
  lemma {:induction false} SentWithoutCommands(topics: set<string>, decode: string -> Option<Command>,
                                               inputs: seq<Input>, replies: seq<seq<MarketData>>)
    requires |replies| == |inputs|
    requires forall k :: 0 <= k < |inputs| ==> CommandIn(decode, inputs[k]).None?
    ensures SentBy(topics, decode, inputs, replies) == ForwardedBy(topics, decode, inputs)
  {
    if inputs != [] {
      var n := |inputs| - 1;
      assert forall k :: 0 <= k < n ==> inputs[..n][k] == inputs[k];
      SentWithoutCommands(topics, decode, inputs[..n], replies[..n]);
    }
  }

  /** The topic set after a command: Subscribe adds the channel, Unsubscribe removes it, a
      FetchHistory leaves it as it is. */
  function AfterCommand(topics: set<string>, cmd: Command): (r: set<string>)
  {
    match cmd.action
    case Subscribe => topics + {cmd.channel}
    case Unsubscribe => topics - {cmd.channel}
    case FetchHistory => topics
  }

  /** The topic set after one input: only a decodable client command changes it. */
  function AfterInput(topics: set<string>, decode: string -> Option<Command>, input: Input): set<string> {
    if input.ClientText? && decode(input.text).Some? then AfterCommand(topics, decode(input.text).value)
    else topics
  }

  /** A command changes the subscription of its own channel only: afterwards a Subscribe's channel
      is in the set, an Unsubscribe's is not, and every other symbol is in it exactly when it was
      before. */
  lemma AfterCommandTouchesOnlyItsChannel(topics: set<string>, cmd: Command, other: string)
    ensures cmd.action == Subscribe ==> cmd.channel in AfterCommand(topics, cmd)
    ensures cmd.action == Unsubscribe ==> cmd.channel !in AfterCommand(topics, cmd)
    ensures cmd.action == FetchHistory ==> AfterCommand(topics, cmd) == topics
    ensures other != cmd.channel ==> (other in AfterCommand(topics, cmd) <==> other in topics)
  {
  }

  /** Whether a broadcast item is written to a client with these topics: a history never is, any
      other item exactly when the symbol it names is subscribed. */
  predicate Forwards(topics: set<string>, d: MarketData) {
    match SymbolOf(d)
    case None => false
    case Some(s) => s in topics
  }

  /** The inputs that end the connection: a frame that is not text (or no frame at all), a failed
      receive from the broadcast (lagging included), and a failed write of a forwarded item. */
  predicate Ends(topics: set<string>, input: Input) {
    || input.ClientOther?
    || input.RecvError?
    || (input.Broadcast? && Forwards(topics, input.data) && !input.writeOk)
  }

  /** The topic set after a run of inputs. */
  function TopicsAfter(topics: set<string>, decode: string -> Option<Command>, inputs: seq<Input>): set<string> {
    if inputs == [] then topics
    else AfterInput(TopicsAfter(topics, decode, inputs[..|inputs| - 1]), decode, inputs[|inputs| - 1])
  }

  /** The broadcast items a run of inputs writes to the client, in order. */
  function ForwardedBy(topics: set<string>, decode: string -> Option<Command>, inputs: seq<Input>): seq<MarketData> {
    if inputs == [] then []
    else
      var prefix := inputs[..|inputs| - 1];
      var last := inputs[|inputs| - 1];
      ForwardedBy(topics, decode, prefix)
      + (if last.Broadcast? && Forwards(TopicsAfter(topics, decode, prefix), last.data) then [last.data] else [])
  }

  /** The channels any Subscribe command among the inputs names. */
  function SubscribedIn(decode: string -> Option<Command>, inputs: seq<Input>): set<string> {
    if inputs == [] then {}
    else
      var last := inputs[|inputs| - 1];
      SubscribedIn(decode, inputs[..|inputs| - 1])
      + (if last.ClientText? && decode(last.text).Some? && decode(last.text).value.action == Subscribe
         then {decode(last.text).value.channel} else {})
  }

  /** The topic set only ever holds symbols it held at the start or that a Subscribe named. */
  lemma {:induction false} TopicsWithinSubscribed(topics: set<string>, decode: string -> Option<Command>, inputs: seq<Input>)
    ensures TopicsAfter(topics, decode, inputs) <= topics + SubscribedIn(decode, inputs)
  {
    if inputs != [] {
      TopicsWithinSubscribed(topics, decode, inputs[..|inputs| - 1]);
    }
  }

  /** No history is ever forwarded from the broadcast, and every forwarded item names a symbol that
      was subscribed at the start or by a Subscribe command: a client that only ever subscribed to
      one symbol receives no live item of any other. */
  lemma {:induction false} ForwardedAreSubscribed(topics: set<string>, decode: string -> Option<Command>, inputs: seq<Input>)
    ensures forall d :: d in ForwardedBy(topics, decode, inputs) ==>
      !d.HistoricalCandles? && SymbolOf(d).value in topics + SubscribedIn(decode, inputs)
  {
    if inputs != [] {
      var prefix := inputs[..|inputs| - 1];
      ForwardedAreSubscribed(topics, decode, prefix);
      TopicsWithinSubscribed(topics, decode, prefix);
    }
  }

  /** After an Unsubscribe of a symbol, nothing of that symbol is forwarded until it is subscribed
      again. */
  lemma {:induction false} UnsubscribeStopsForwarding(topics: set<string>, decode: string -> Option<Command>,
                                                      inputs: seq<Input>, k: nat, symbol: string)
    requires k < |inputs| && inputs[k].ClientText?
    requires decode(inputs[k].text).Some?
    requires decode(inputs[k].text).value.action == Unsubscribe
    requires decode(inputs[k].text).value.channel == symbol
    requires symbol !in SubscribedIn(decode, inputs[k + 1..])
    ensures symbol !in TopicsAfter(topics, decode, inputs)
    ensures forall d :: SymbolOf(d) == Some(symbol) ==> !Forwards(TopicsAfter(topics, decode, inputs), d)
    decreases |inputs|
  {
    if |inputs| == k + 1 {
      assert inputs[..|inputs| - 1] == inputs[..k];
    } else {
      var prefix := inputs[..|inputs| - 1];
      assert prefix[k + 1..] == inputs[k + 1..][..|inputs[k + 1..]| - 1];
      assert inputs[k + 1..][|inputs[k + 1..]| - 1] == inputs[|inputs| - 1];
      UnsubscribeStopsForwarding(topics, decode, prefix, k, symbol);
    }
  }

  /** The connectors started since `prior`: each for a symbol that was not active at the start and
      is active now, no two for the same symbol; the active set only grew. */
  ghost predicate FreshSpawns(prior: seq<Spawn>, spawned: seq<Spawn>, start: set<string>, active: set<string>) {
    && |spawned| >= |prior| && spawned[..|prior|] == prior
    && (forall k :: |prior| <= k < |spawned| ==> spawned[k].symbol in active && spawned[k].symbol !in start)
    && (forall k, l :: |prior| <= k < l < |spawned| ==> spawned[k].symbol != spawned[l].symbol)
    && start <= active
  }

  /** Starting one more connector for a symbol that was not active, and marking it active, keeps
      `FreshSpawns`; so does growing the active set alone. */
  lemma FreshSpawnsStep(prior: seq<Spawn>, spawned: seq<Spawn>, start: set<string>, active: set<string>,
                        spawned': seq<Spawn>, active': set<string>)
    requires FreshSpawns(prior, spawned, start, active)
    requires active <= active'
    requires || spawned' == spawned
             || (&& |spawned'| == |spawned| + 1 && spawned'[..|spawned|] == spawned
                 && spawned'[|spawned|].symbol in active' && spawned'[|spawned|].symbol !in active)
    ensures FreshSpawns(prior, spawned', start, active')
  {
    if spawned' != spawned {
      assert spawned'[..|prior|] == spawned[..|prior|];
      forall k | |prior| <= k < |spawned| ensures spawned'[k] == spawned[k] {
        assert spawned'[..|spawned|][k] == spawned[k];
      }
    }
  }

  class Connection {
    /** `subscribed_topics` */
    var topics: set<string>
    /** Every message written to the client, in order. A failed write is written too: a failed
        snapshot write is ignored, a failed forward ends the connection. */
    var sent: seq<MarketData>
    /** The broadcast items among `sent`, in order (a modelling aid). */
    ghost var forwarded: seq<MarketData>
    /** The connector tasks this connection started. */
    var spawned: seq<Spawn>
    /** False once the loop has broken. */
    var open: bool

    /** After the handshake and the broadcast subscription: nothing subscribed, nothing written. */
    constructor ()
      ensures topics == {} && sent == [] && forwarded == [] && spawned == [] && open
    {
      topics, sent, forwarded, spawned, open := {}, [], [], [], true;
    }

    /** Write one message per item, in order (`for x in xs { let _ = write.send(..) }`). */
    method SendAll<T>(xs: seq<T>, f: T -> MarketData)
      modifies this`sent
      ensures sent == old(sent) + Msgs(xs, f)
    {
      for i := 0 to |xs|
        invariant sent == old(sent) + Msgs(xs[..i], f)
      {
        assert xs[..i + 1][..i] == xs[..i];
        sent := sent + [f(xs[i])];
      }
      assert xs[..|xs|] == xs;
    }

    /** A Subscribe command: start a connector if the symbol was not yet requested (with the
        command's settings, else the defaults), subscribe, then write the snapshot of the engine's
        state with the history before `now` of at most `server_history_fetch_limit` candles. The
        interval orders are those of the engine's candle map. */
    method HandleSubscribe(engine: CoreEngine.Engine, app: AppConfig, cmd: Command, now: U64)
      returns (ghost reading: Reading)
      requires cmd.action == Subscribe
      modifies this`topics, this`sent, this`spawned, engine`activeIngestions
      ensures topics == old(topics) + {cmd.channel}
      ensures engine.activeIngestions == old(engine.activeIngestions) + {cmd.channel}
      ensures spawned == old(spawned) + if cmd.channel in old(engine.activeIngestions) then []
                                        else [Spawn(cmd.channel, cmd.config.GetOr(GetStreamConfig(app)))]
      ensures ReadFrom(engine, cmd.channel, reading)
      ensures sent == old(sent) + SnapshotOf(reading.view, reading.candleOrder, reading.historyOrder, now, app.serverHistoryFetchLimit)
    {
      Register(engine, app, cmd);
      var candleOrder, historyOrder := WriteSnapshot(engine, app, cmd.channel, now);
      reading := Reading(engine.ViewOf(cmd.channel), candleOrder, historyOrder);
    }

    /** The first half of a Subscribe: start a connector for a symbol not yet requested, then add
        the symbol to the topics. */
    method Register(engine: CoreEngine.Engine, app: AppConfig, cmd: Command)
      modifies this`topics, this`spawned, engine`activeIngestions
      ensures topics == old(topics) + {cmd.channel}
      ensures engine.activeIngestions == old(engine.activeIngestions) + {cmd.channel}
      ensures spawned == old(spawned) + if cmd.channel in old(engine.activeIngestions) then []
                                        else [Spawn(cmd.channel, cmd.config.GetOr(GetStreamConfig(app)))]
    {
      var symbol := cmd.channel;
      var isNew := engine.RequestIngestion(symbol);
      if isNew {
        spawned := spawned + [Spawn(symbol, cmd.config.GetOr(GetStreamConfig(app)))];
      }
      topics := topics + {symbol};
    }

    /** The snapshot half of a Subscribe. */
    method WriteSnapshot(engine: CoreEngine.Engine, app: AppConfig, symbol: string, now: U64)
      returns (ghost candleOrder: seq<string>, ghost historyOrder: seq<string>)
      modifies this`sent
      ensures IsKeyOrder(candleOrder, engine.ViewOf(symbol).candles.Keys)
      ensures IsKeyOrder(historyOrder, engine.ViewOf(symbol).candles.Keys)
      ensures sent == old(sent) + SnapshotOf(engine.ViewOf(symbol), candleOrder, historyOrder, now, app.serverHistoryFetchLimit)
    {
      ghost var v := engine.ViewOf(symbol);
      candleOrder := WriteRecent(engine, symbol);
      assert engine.ViewOf(symbol) == v;
      ghost var r := Recent(v.orderBook, v.trades, v.aggTrades, Concat(v.candles, candleOrder));
      ghost var s1 := sent;
      var history;
      history, historyOrder := engine.GetHistory(symbol, now, app.serverHistoryFetchLimit);
      ghost var t := if history == [] then [] else [HistoricalCandles(history)];
      if history != [] {
        sent := sent + [HistoricalCandles(history)];
      }
      assert engine.ViewOf(symbol) == v;
      assert SnapshotOf(v, candleOrder, historyOrder, now, app.serverHistoryFetchLimit) == r + t by {
        assert history == History(v.candles, historyOrder, now, app.serverHistoryFetchLimit);
      }
      assert sent == old(sent) + (r + t) by {
        assert sent == s1 + t;
        Upstream.Associative(old(sent), r, t);
      }
    }

    /** The book, if any, then the recent trades, aggregate trades and candles. */
    method WriteRecent(engine: CoreEngine.Engine, symbol: string) returns (ghost candleOrder: seq<string>)
      modifies this`sent
      ensures var v := engine.ViewOf(symbol);
        && IsKeyOrder(candleOrder, v.candles.Keys)
        && sent == old(sent) + Recent(v.orderBook, v.trades, v.aggTrades, Concat(v.candles, candleOrder))
    {
      ghost var v := engine.ViewOf(symbol);
      WriteBook(engine, symbol);
      ghost var a := sent;
      WriteTrades(engine, symbol);
      ghost var b := sent;
      WriteAggTrades(engine, symbol);
      ghost var c := sent;
      candleOrder := WriteCandles(engine, symbol);
      ghost var head := if v.orderBook.Some? then [OrderBookMsg(v.orderBook.value)] else [];
      ghost var ts, as_, cs := Msgs(v.trades, AsTrade), Msgs(v.aggTrades, AsAggTrade), Msgs(Concat(v.candles, candleOrder), AsCandle);
      assert sent == old(sent) + head + ts + as_ + cs;
      Upstream.Associative(old(sent), head, ts);
      Upstream.Associative(old(sent), head + ts, as_);
      Upstream.Associative(old(sent), head + ts + as_, cs);
    }

    method WriteBook(engine: CoreEngine.Engine, symbol: string)
      modifies this`sent
      ensures var b := engine.ViewOf(symbol).orderBook; sent == old(sent) + if b.Some? then [OrderBookMsg(b.value)] else []
    {
      var book := engine.GetOrderBook(symbol);
      if book.Some? {
        sent := sent + [OrderBookMsg(book.value)];
      }
    }

    method WriteTrades(engine: CoreEngine.Engine, symbol: string)
      modifies this`sent
      ensures sent == old(sent) + Msgs(engine.ViewOf(symbol).trades, AsTrade)
    {
      var trades := engine.GetRecentTrades(symbol);
      SendAll(trades, AsTrade);
    }

    method WriteAggTrades(engine: CoreEngine.Engine, symbol: string)
      modifies this`sent
      ensures sent == old(sent) + Msgs(engine.ViewOf(symbol).aggTrades, AsAggTrade)
    {
      var aggTrades := engine.GetRecentAggTrades(symbol);
      SendAll(aggTrades, AsAggTrade);
    }

    method WriteCandles(engine: CoreEngine.Engine, symbol: string) returns (ghost order: seq<string>)
      modifies this`sent
      ensures IsKeyOrder(order, engine.ViewOf(symbol).candles.Keys)
      ensures sent == old(sent) + Msgs(Concat(engine.ViewOf(symbol).candles, order), AsCandle)
    {
      var candles;
      candles, order := engine.GetRecentCandles(symbol);
      SendAll(candles, AsCandle);
    }

    /** A FetchHistory command: exactly one history message, possibly empty, up to the command's end
        time or else `now`, of at most `server_history_fetch_limit` candles. */
    method HandleFetchHistory(engine: CoreEngine.Engine, app: AppConfig, cmd: Command, now: U64) returns (ghost reading: Reading)
      requires cmd.action == FetchHistory
      modifies this`sent
      ensures ReadFrom(engine, cmd.channel, reading)
      ensures sent == old(sent) + [HistoricalCandles(History(reading.view.candles, reading.historyOrder, cmd.endTime.GetOr(now), app.serverHistoryFetchLimit))]
    {
      var endTime := cmd.endTime.GetOr(now);
      var history, order := engine.GetHistory(cmd.channel, endTime, app.serverHistoryFetchLimit);
      sent := sent + [HistoricalCandles(history)];
      reading := Reading(engine.ViewOf(cmd.channel), order, order);
    }

    /** A decoded client command, handled at `now`. */
    method HandleCommand(engine: CoreEngine.Engine, app: AppConfig, cmd: Command, now: U64) returns (ghost reading: Reading)
      modifies this`topics, this`sent, this`spawned, engine`activeIngestions
      ensures topics == AfterCommand(old(topics), cmd)
      ensures cmd.action != Subscribe ==> spawned == old(spawned) && engine.activeIngestions == old(engine.activeIngestions)
      ensures cmd.action == Subscribe ==>
        && engine.activeIngestions == old(engine.activeIngestions) + {cmd.channel}
        && spawned == old(spawned) + if cmd.channel in old(engine.activeIngestions) then []
                                     else [Spawn(cmd.channel, cmd.config.GetOr(GetStreamConfig(app)))]
      ensures ReadFrom(engine, cmd.channel, reading)
      ensures sent == old(sent) + Reply(cmd, now, app.serverHistoryFetchLimit, reading)
    {
      match cmd.action {
        case Subscribe =>
          reading := HandleSubscribe(engine, app, cmd, now);
        case Unsubscribe =>
          topics := topics - {cmd.channel};
          ghost var order := SomeKeyOrder(engine.ViewOf(cmd.channel).candles.Keys);
          reading := Reading(engine.ViewOf(cmd.channel), order, order);
        case FetchHistory =>
          reading := HandleFetchHistory(engine, app, cmd, now);
      }
    }

    /** One turn of the loop: an undecodable text is ignored, a decoded command is handled, a
        broadcast item is written when `Forwards` says so, and the inputs of `Ends` break the loop. */
    method Handle(engine: CoreEngine.Engine, app: AppConfig, decode: string -> Option<Command>, input: Input)
      returns (ghost reading: Reading, ghost reply: seq<MarketData>)
      requires open
      modifies this`topics, this`sent, this`forwarded, this`spawned, this`open, engine`activeIngestions
      ensures topics == AfterInput(old(topics), decode, input)
      ensures open <==> !Ends(old(topics), input)
      ensures forwarded == old(forwarded) + if input.Broadcast? && Forwards(old(topics), input.data) then [input.data] else []
      ensures sent == old(sent) + Written(old(topics), decode, input, reply)
      ensures Replied(engine, decode, app.serverHistoryFetchLimit, [input], [reading], [reply])
      ensures CommandIn(decode, input).None? ==>
        spawned == old(spawned) && engine.activeIngestions == old(engine.activeIngestions)
      ensures CommandIn(decode, input).Some? ==>
        var cmd := CommandIn(decode, input).value;
        && engine.activeIngestions == old(engine.activeIngestions) + (if cmd.action == Subscribe then {cmd.channel} else {})
        && spawned == old(spawned) + if cmd.action == Subscribe && cmd.channel !in old(engine.activeIngestions)
                                     then [Spawn(cmd.channel, cmd.config.GetOr(GetStreamConfig(app)))] else []
    {
      reading, reply := Reading(EmptySymbol, [], []), [];
      match input {
        case ClientText(text, clock) =>
          reading, reply := HandleText(engine, app, decode, text, clock);
        case ClientOther =>
          open := false;
        case Broadcast(d, writeOk) =>
          if SymbolOf(d).Some? && SymbolOf(d).value in topics {
            sent := sent + [d];
            forwarded := forwarded + [d];
            if !writeOk {
              open := false;
            }
          }
        case RecvError =>
          open := false;
      }
    }

    /** A client text: decoded, and handled when it is a command, ignored otherwise. */
    method HandleText(engine: CoreEngine.Engine, app: AppConfig, decode: string -> Option<Command>, text: string, clock: U64)
      returns (ghost reading: Reading, ghost reply: seq<MarketData>)
      modifies this`topics, this`sent, this`spawned, engine`activeIngestions
      ensures topics == AfterInput(old(topics), decode, ClientText(text, clock))
      ensures sent == old(sent) + Written(old(topics), decode, ClientText(text, clock), reply)
      ensures Replied(engine, decode, app.serverHistoryFetchLimit, [ClientText(text, clock)], [reading], [reply])
      ensures decode(text).None? ==> spawned == old(spawned) && engine.activeIngestions == old(engine.activeIngestions)
      ensures decode(text).Some? ==>
        var cmd := decode(text).value;
        && engine.activeIngestions == old(engine.activeIngestions) + (if cmd.action == Subscribe then {cmd.channel} else {})
        && spawned == old(spawned) + if cmd.action == Subscribe && cmd.channel !in old(engine.activeIngestions)
                                     then [Spawn(cmd.channel, cmd.config.GetOr(GetStreamConfig(app)))] else []
    {
      reading, reply := Reading(EmptySymbol, [], []), [];
      var cmd := decode(text);
      if cmd.Some? {
        reading := HandleCommand(engine, app, cmd.value, clock);
        reply := Reply(cmd.value, clock, app.serverHistoryFetchLimit, reading);
        assert Answered(engine, decode, app.serverHistoryFetchLimit, [ClientText(text, clock)][0], [reading][0], [reply][0]);
      }
    }

    /** `handle_connection`'s loop over the inputs until one of them ends it. Every connector it
        starts is for a symbol that no one had requested before, and no symbol gets two; the client
        receives the replies to its commands and the forwarded items, in the order of the inputs. */
    method Serve(engine: CoreEngine.Engine, app: AppConfig, decode: string -> Option<Command>, inputs: seq<Input>)
      returns (consumed: nat, ghost readings: seq<Reading>, ghost replies: seq<seq<MarketData>>)
      requires open
      modifies this`topics, this`sent, this`forwarded, this`spawned, this`open, engine`activeIngestions
      ensures consumed <= |inputs| && |readings| == |replies| == consumed
      ensures topics == TopicsAfter(old(topics), decode, inputs[..consumed])
      ensures forwarded == old(forwarded) + ForwardedBy(old(topics), decode, inputs[..consumed])
      ensures open ==> consumed == |inputs|
      ensures !open ==> consumed >= 1 && Ends(TopicsAfter(old(topics), decode, inputs[..consumed - 1]), inputs[consumed - 1])
      ensures FreshSpawns(old(spawned), spawned, old(engine.activeIngestions), engine.activeIngestions)
      ensures Replied(engine, decode, app.serverHistoryFetchLimit, inputs, readings, replies)
      ensures sent == old(sent) + SentBy(old(topics), decode, inputs[..consumed], replies)
    {
      consumed, readings, replies := 0, [], [];
      ghost var t0, a0 := topics, engine.activeIngestions;
      assert inputs[..consumed] == [];
      while consumed < |inputs| && open
        invariant consumed <= |inputs| && |readings| == |replies| == consumed
        invariant topics == TopicsAfter(t0, decode, inputs[..consumed])
        invariant forwarded == old(forwarded) + ForwardedBy(t0, decode, inputs[..consumed])
        invariant !open ==> consumed >= 1 && Ends(TopicsAfter(t0, decode, inputs[..consumed - 1]), inputs[consumed - 1])
        invariant FreshSpawns(old(spawned), spawned, a0, engine.activeIngestions)
        invariant Replied(engine, decode, app.serverHistoryFetchLimit, inputs, readings, replies)
        invariant sent == old(sent) + SentBy(t0, decode, inputs[..consumed], replies)
      {
        readings, replies := Turn(engine, app, decode, inputs, consumed, readings, replies, t0, a0, old(spawned), old(sent), old(forwarded));
        consumed := consumed + 1;
      }
    }

    /** One turn of `Serve`'s loop: the next input is handled, and what the loop has done so far
        extends by it. */
    method Turn(engine: CoreEngine.Engine, app: AppConfig, decode: string -> Option<Command>, inputs: seq<Input>,
                consumed: nat, ghost readings: seq<Reading>, ghost replies: seq<seq<MarketData>>,
                ghost t0: set<string>, ghost a0: set<string>,
                ghost spawned0: seq<Spawn>, ghost sent0: seq<MarketData>, ghost forwarded0: seq<MarketData>)
      returns (ghost readings': seq<Reading>, ghost replies': seq<seq<MarketData>>)
      requires open && consumed < |inputs| && |readings| == |replies| == consumed
      requires topics == TopicsAfter(t0, decode, inputs[..consumed])
      requires forwarded == forwarded0 + ForwardedBy(t0, decode, inputs[..consumed])
      requires FreshSpawns(spawned0, spawned, a0, engine.activeIngestions)
      requires Replied(engine, decode, app.serverHistoryFetchLimit, inputs, readings, replies)
      requires sent == sent0 + SentBy(t0, decode, inputs[..consumed], replies)
      modifies this`topics, this`sent, this`forwarded, this`spawned, this`open, engine`activeIngestions
      ensures |readings'| == |replies'| == consumed + 1
      ensures topics == TopicsAfter(t0, decode, inputs[..consumed + 1])
      ensures forwarded == forwarded0 + ForwardedBy(t0, decode, inputs[..consumed + 1])
      ensures !open ==> Ends(TopicsAfter(t0, decode, inputs[..consumed]), inputs[consumed])
      ensures FreshSpawns(spawned0, spawned, a0, engine.activeIngestions)
      ensures Replied(engine, decode, app.serverHistoryFetchLimit, inputs, readings', replies')
      ensures sent == sent0 + SentBy(t0, decode, inputs[..consumed + 1], replies')
    {
      var input := inputs[consumed];
      assert inputs[..consumed + 1][..consumed] == inputs[..consumed];
      assert inputs[..consumed + 1][consumed] == input;
      ghost var sp, ac, s0 := spawned, engine.activeIngestions, sent;
      var reading, reply := Handle(engine, app, decode, input);
      assert Replied(engine, decode, app.serverHistoryFetchLimit, inputs, readings, replies);
      RepliedSnoc(engine, decode, app.serverHistoryFetchLimit, inputs, readings, replies, reading, reply);
      FreshSpawnsStep(spawned0, sp, a0, ac, spawned, engine.activeIngestions);
      readings', replies' := readings + [reading], replies + [reply];
      assert sent == sent0 + SentBy(t0, decode, inputs[..consumed + 1], replies') by {
        ghost var w := Written(TopicsAfter(t0, decode, inputs[..consumed]), decode, input, reply);
        assert sent == s0 + w;
        SentBySnoc(t0, decode, inputs, consumed, replies, reply);
        Upstream.Associative(sent0, SentBy(t0, decode, inputs[..consumed], replies), w);
      }
    }
  }
}
