/** One client connection of the earlier WebSocket server (ingestion_engine/src/server.rs): the set
    of subscribed symbols, the book-and-trades snapshot a Subscribe replies with, the membership
    filter on the engine's broadcast, and the receive rules, under which a lagging receiver only
    skips items. The server calls `get_recent_trades`, which the earlier engine does not declare;
    the model reads the trades that engine stores for the symbol. The server's `match` on the
    broadcast item names only the book and trade variants of the four; the model takes the symbol
    of every variant. */
module LegacyServer {
  import opened Wrappers
  import opened LegacyModels
  import Json
  import LegacyEngine
  import Upstream

  /** What the connection's loop takes next; a broadcast item carries whether writing it to the
      client succeeds. */
  datatype Input =
    | ClientText(text: string)
    /** A binary, ping, pong or close frame, a read error, or the end of the client's stream. */
    | ClientOther
    | Broadcast(data: MarketData, writeOk: bool)
    /** The receiver fell behind and items were dropped. */
    | Lagged
    /** The broadcast channel was closed. */
    | RecvClosed

  /** `serde_json::from_str::<Command>`, the JSON text parser being a parameter. */
  function DecodeText(parse: string -> Option<Json.Value>, text: string): Option<Command> {
    match parse(text)
    case None => None
    case Some(v) => DecodeCommand(v)
  }

  function TradeMsgs(ts: seq<Trade>): (r: seq<MarketData>)
    ensures |r| == |ts|
    ensures forall i :: 0 <= i < |ts| ==> r[i] == TradeMsg(ts[i])
  {
    if ts == [] then [] else TradeMsgs(ts[..|ts| - 1]) + [TradeMsg(ts[|ts| - 1])]
  }

  /** The snapshot a Subscribe writes: the book if there is one, then the stored trades. */
  function SubscribeReply(book: Option<OrderBook>, trades: seq<Trade>): seq<MarketData> {
    (if book.Some? then [OrderBookMsg(book.value)] else []) + TradeMsgs(trades)
  }

  /** The snapshot is one message per stored trade, in stored order, after the book when there is
      one; the book message is the only one that is not a trade. */
  lemma SubscribeReplyOrder(book: Option<OrderBook>, trades: seq<Trade>)
    ensures var r := SubscribeReply(book, trades);
      var o := if book.Some? then 1 else 0;
      && |r| == o + |trades|
      && (book.Some? ==> r[0] == OrderBookMsg(book.value))
      && (forall i :: o <= i < |r| ==> r[i] == TradeMsg(trades[i - o]))
  {
  }

  function AfterCommand(topics: set<string>, cmd: Command): set<string> {
    match cmd.action
    case Subscribe => topics + {cmd.channel}
    case Unsubscribe => topics - {cmd.channel}
  }

  /** The topic set after one input: only a decodable client command changes it. */
  function AfterInput(topics: set<string>, parse: string -> Option<Json.Value>, input: Input): set<string> {
    if input.ClientText? && DecodeText(parse, input.text).Some? then AfterCommand(topics, DecodeText(parse, input.text).value)
    else topics
  }

  /** A broadcast item is written to the client exactly when its symbol is subscribed. */
  predicate Forwards(topics: set<string>, d: MarketData) {
    SymbolOf(d) in topics
  }

  /** The inputs that end the connection: a frame that is not text, a closed channel, and a failed
      write of a forwarded item. A lagged receive is not among them. */
  predicate Ends(topics: set<string>, input: Input) {
    || input.ClientOther?
    || input.RecvClosed?
    || (input.Broadcast? && Forwards(topics, input.data) && !input.writeOk)
  }

  function TopicsAfter(topics: set<string>, parse: string -> Option<Json.Value>, inputs: seq<Input>): set<string> {
    if inputs == [] then topics
    else AfterInput(TopicsAfter(topics, parse, inputs[..|inputs| - 1]), parse, inputs[|inputs| - 1])
  }

  /** The broadcast items a run of inputs writes to the client, in order. */
  function ForwardedBy(topics: set<string>, parse: string -> Option<Json.Value>, inputs: seq<Input>): seq<MarketData> {
    if inputs == [] then []
    else
      var prefix := inputs[..|inputs| - 1];
      var last := inputs[|inputs| - 1];
      ForwardedBy(topics, parse, prefix)
      + (if last.Broadcast? && Forwards(TopicsAfter(topics, parse, prefix), last.data) then [last.data] else [])
  }

  /** What a decoded command writes to the client: a Subscribe the book of its channel, if any, and
      the channel's stored trades; an Unsubscribe nothing. */
  function Reply(books: map<string, OrderBook>, trades: map<string, seq<Trade>>, cmd: Command): seq<MarketData> {
    match cmd.action
    case Subscribe =>
      SubscribeReply(if cmd.channel in books then Some(books[cmd.channel]) else None,
                     if cmd.channel in trades then trades[cmd.channel] else [])
    case Unsubscribe => []
  }

  /** What one input writes to the client: the reply to a decoded command, a broadcast item the
      filter lets through, and nothing for any other input (an undecodable text included). */
  function Written(books: map<string, OrderBook>, trades: map<string, seq<Trade>>, topics: set<string>,
                   parse: string -> Option<Json.Value>, input: Input): seq<MarketData> {
    match input
    case ClientText(text) => if DecodeText(parse, text).Some? then Reply(books, trades, DecodeText(parse, text).value) else []
    case Broadcast(d, _) => if Forwards(topics, d) then [d] else []
    case _ => []
  }

  /** Every message a run of inputs writes to the client, in order. */
  function SentBy(books: map<string, OrderBook>, trades: map<string, seq<Trade>>, topics: set<string>,
                  parse: string -> Option<Json.Value>, inputs: seq<Input>): seq<MarketData> {
    if inputs == [] then []
    else
      var prefix := inputs[..|inputs| - 1];
      SentBy(books, trades, topics, parse, prefix) + Written(books, trades, TopicsAfter(topics, parse, prefix), parse, inputs[|inputs| - 1])
  }

  /** Whether an input is a client text that decodes to a command. */
  predicate IsCommand(parse: string -> Option<Json.Value>, input: Input) {
    input.ClientText? && DecodeText(parse, input.text).Some?
  }

  /** Without a decodable command among the inputs, the client receives exactly the forwarded
      broadcast items: texts that do not decode, lagged receives and the other frames write
      nothing. */
  lemma {:induction false} SentWithoutCommands(books: map<string, OrderBook>, trades: map<string, seq<Trade>>,
                                               topics: set<string>, parse: string -> Option<Json.Value>, inputs: seq<Input>)
    requires forall k :: 0 <= k < |inputs| ==> !IsCommand(parse, inputs[k])
    ensures SentBy(books, trades, topics, parse, inputs) == ForwardedBy(topics, parse, inputs)
  {
    if inputs != [] {
      var prefix := inputs[..|inputs| - 1];
      assert forall k :: 0 <= k < |prefix| ==> prefix[k] == inputs[k];
      SentWithoutCommands(books, trades, topics, parse, prefix);
    }
  }

  /** The inputs that do not end the connection leave it open whatever their number, lagged
      receives included: a run free of ending inputs is consumed whole. */
  predicate Harmless(topics: set<string>, parse: string -> Option<Json.Value>, inputs: seq<Input>) {
    forall k :: 0 <= k < |inputs| ==> !Ends(TopicsAfter(topics, parse, inputs[..k]), inputs[k])
  }

  /** A run stays harmless when the next input does not end the connection. */
  lemma HarmlessSnoc(topics: set<string>, parse: string -> Option<Json.Value>, inputs: seq<Input>, n: nat)
    requires n < |inputs| && Harmless(topics, parse, inputs[..n])
    requires !Ends(TopicsAfter(topics, parse, inputs[..n]), inputs[n])
    ensures Harmless(topics, parse, inputs[..n + 1])
  {
    var done := inputs[..n + 1];
    forall k | 0 <= k < |done| ensures !Ends(TopicsAfter(topics, parse, done[..k]), done[k]) {
      if k < n {
        assert done[..k] == inputs[..n][..k];
      } else {
        assert done[..k] == inputs[..n];
      }
    }
  }

  /** A run holding an ending input is not harmless, nor is any run it starts. */
  lemma EndedNotHarmless(topics: set<string>, parse: string -> Option<Json.Value>, inputs: seq<Input>, n: nat)
    requires 1 <= n <= |inputs| && Ends(TopicsAfter(topics, parse, inputs[..n - 1]), inputs[n - 1])
    ensures !Harmless(topics, parse, inputs[..n]) && !Harmless(topics, parse, inputs)
  {
    assert inputs[..n][..n - 1] == inputs[..n - 1];
    assert inputs[..n][n - 1] == inputs[n - 1];
  }

  /** Every forwarded item names a symbol that was subscribed when it arrived: one that is in the
      topic set after the inputs before it. */
  lemma {:induction false} ForwardedWereSubscribed(topics: set<string>, parse: string -> Option<Json.Value>, inputs: seq<Input>)
    ensures forall d :: d in ForwardedBy(topics, parse, inputs) ==>
      exists k :: 0 <= k < |inputs| && inputs[k].Broadcast? && inputs[k].data == d && SymbolOf(d) in TopicsAfter(topics, parse, inputs[..k])
  {
    if inputs != [] {
      var prefix := inputs[..|inputs| - 1];
      ForwardedWereSubscribed(topics, parse, prefix);
      forall d | d in ForwardedBy(topics, parse, inputs)
        ensures exists k :: 0 <= k < |inputs| && inputs[k].Broadcast? && inputs[k].data == d && SymbolOf(d) in TopicsAfter(topics, parse, inputs[..k])
      {
        if d in ForwardedBy(topics, parse, prefix) {
          var k :| 0 <= k < |prefix| && prefix[k].Broadcast? && prefix[k].data == d && SymbolOf(d) in TopicsAfter(topics, parse, prefix[..k]);
          assert inputs[..k] == prefix[..k];
        } else {
          assert inputs[..|inputs| - 1] == prefix;
        }
      }
    }
  }

  class Connection {
    var topics: set<string>
    /** Every message written to the client, in order; a failed write is written too. */
    var sent: seq<MarketData>
    /** The broadcast items among `sent`, in order (a modelling aid). */
    ghost var forwarded: seq<MarketData>
    var open: bool

    constructor ()
      ensures topics == {} && sent == [] && forwarded == [] && open
    {
      topics, sent, forwarded, open := {}, [], [], true;
    }

    /** A Subscribe command: subscribe, then write the book if there is one and the stored trades. */
    method HandleSubscribe(engine: LegacyEngine.Engine, symbol: string)
      modifies this`topics, this`sent
      ensures topics == old(topics) + {symbol}
      ensures sent == old(sent) + SubscribeReply(if symbol in engine.books then Some(engine.books[symbol]) else None, engine.Trades(symbol))
    {
      topics := topics + {symbol};
      var book := engine.GetOrderBook(symbol);
      if book.Some? {
        sent := sent + [OrderBookMsg(book.value)];
      }
      ghost var s1 := sent;
      var trades := engine.Trades(symbol);
      for i := 0 to |trades|
        invariant sent == s1 + TradeMsgs(trades[..i])
        invariant topics == old(topics) + {symbol}
      {
        assert trades[..i + 1][..i] == trades[..i];
        sent := sent + [TradeMsg(trades[i])];
      }
      assert trades[..|trades|] == trades;
      Upstream.Associative(old(sent), if book.Some? then [OrderBookMsg(book.value)] else [], TradeMsgs(trades));
    }

    /** One turn of the loop: an undecodable text is ignored, a command is handled, a broadcast item
        is written when `Forwards` says so, a lagged receive is skipped, and the inputs of `Ends`
        break the loop. */
    method Handle(engine: LegacyEngine.Engine, parse: string -> Option<Json.Value>, input: Input)
      requires open
      modifies this`topics, this`sent, this`forwarded, this`open
      ensures topics == AfterInput(old(topics), parse, input)
      ensures open <==> !Ends(old(topics), input)
      ensures forwarded == old(forwarded) + if input.Broadcast? && Forwards(old(topics), input.data) then [input.data] else []
      ensures sent == old(sent) + Written(engine.books, engine.trades, old(topics), parse, input)
    {
      match input {
        case ClientText(text) =>
          var cmd := DecodeText(parse, text);
          if cmd.Some? {
            match cmd.value.action {
              case Subscribe => HandleSubscribe(engine, cmd.value.channel);
              case Unsubscribe => topics := topics - {cmd.value.channel};
            }
          }
        case ClientOther =>
          open := false;
        case Broadcast(d, writeOk) =>
          if SymbolOf(d) in topics {
            sent := sent + [d];
            forwarded := forwarded + [d];
            if !writeOk {
              open := false;
            }
          }
        case Lagged =>
        case RecvClosed =>
          open := false;
      }
    }

    /** `handle_connection`'s loop over the inputs until one of them ends it. */
    method Serve(engine: LegacyEngine.Engine, parse: string -> Option<Json.Value>, inputs: seq<Input>) returns (consumed: nat)
      requires open
      modifies this`topics, this`sent, this`forwarded, this`open
      ensures consumed <= |inputs|
      ensures topics == TopicsAfter(old(topics), parse, inputs[..consumed])
      ensures forwarded == old(forwarded) + ForwardedBy(old(topics), parse, inputs[..consumed])
      ensures open <==> Harmless(old(topics), parse, inputs[..consumed]) && consumed == |inputs|
      ensures Harmless(old(topics), parse, inputs) ==> open
      ensures !open ==> consumed >= 1 && Ends(TopicsAfter(old(topics), parse, inputs[..consumed - 1]), inputs[consumed - 1])
      ensures sent == old(sent) + SentBy(engine.books, engine.trades, old(topics), parse, inputs[..consumed])
    {
      consumed := 0;
      ghost var t0 := topics;
      assert inputs[..consumed] == [];
      while consumed < |inputs| && open
        invariant consumed <= |inputs|
        invariant topics == TopicsAfter(t0, parse, inputs[..consumed])
        invariant forwarded == old(forwarded) + ForwardedBy(t0, parse, inputs[..consumed])
        invariant open ==> Harmless(t0, parse, inputs[..consumed])
        invariant !open ==> consumed >= 1 && Ends(TopicsAfter(t0, parse, inputs[..consumed - 1]), inputs[consumed - 1])
        invariant sent == old(sent) + SentBy(engine.books, engine.trades, t0, parse, inputs[..consumed])
      {
        var input := inputs[consumed];
        assert inputs[..consumed + 1][..consumed] == inputs[..consumed];
        assert inputs[..consumed + 1][consumed] == input;
        Handle(engine, parse, input);
        Upstream.Associative(old(sent), SentBy(engine.books, engine.trades, t0, parse, inputs[..consumed]),
                             Written(engine.books, engine.trades, TopicsAfter(t0, parse, inputs[..consumed]), parse, input));
        if open {
          HarmlessSnoc(t0, parse, inputs, consumed);
        }
        consumed := consumed + 1;
      }
      if !open {
        EndedNotHarmless(t0, parse, inputs, consumed);
      }
    }
  }
}
