/** The earlier engine (ingestion_engine/src/engine.rs): one order book and a short trade history
    per symbol, and a broadcast of every update. The locks, the channel's capacity of 100 and the
    "no receiver" error that `send` returns (and the engine ignores) are not modelled; `sent` is
    the sequence of messages handed to the channel. */
module LegacyEngine {
  import opened Wrappers
  import opened LegacyModels
  import CoreEngineSpec

  /** How many trades a symbol keeps. */
  const TradeCap: nat := 50

  /** `push`, then `remove(0)` once when the vector has grown past the cap. */
  function PushPruned(q: seq<Trade>, t: Trade): seq<Trade> {
    var p := q + [t];
    if |p| > TradeCap then p[1..] else p
  }

  /** Starting from the empty history, the stored trades are always the newest at most 50 of all
      trades added for the symbol, in arrival order. */
  lemma PushPrunedKeepsNewest(h: seq<Trade>, q: seq<Trade>, t: Trade)
    requires q == CoreEngineSpec.Last(h, TradeCap)
    ensures PushPruned(q, t) == CoreEngineSpec.Last(h + [t], TradeCap)
    ensures |PushPruned(q, t)| <= TradeCap && PushPruned(q, t)[|PushPruned(q, t)| - 1] == t
  {
    var h' := h + [t];
    if |h| >= TradeCap {
      assert q == h[|h| - TradeCap..];
      assert (q + [t])[1..] == h'[|h'| - TradeCap..];
    }
  }

  class Engine {
    var books: map<string, OrderBook>
    var trades: map<string, seq<Trade>>
    /** What was sent on the broadcast channel, in order. */
    var sent: seq<MarketData>

    /** No symbol holds more than the cap. */
    ghost predicate Valid()
      reads this
    {
      forall s :: s in trades ==> |trades[s]| <= TradeCap
    }

    function Trades(symbol: string): seq<Trade>
      reads this
    {
      if symbol in trades then trades[symbol] else []
    }

    /** `Engine::new`: no books, no trades, nothing sent. */
    constructor ()
      ensures Valid()
      ensures books == map[] && trades == map[] && sent == []
    {
      books, trades, sent := map[], map[], [];
    }

    /** `update_order_book`: store the book under the symbol, replacing any earlier one, then send
        it. */
    method UpdateOrderBook(symbol: string, book: OrderBook)
      requires Valid()
      modifies this
      ensures Valid()
      ensures books == old(books)[symbol := book] && trades == old(trades)
      ensures sent == old(sent) + [OrderBookMsg(book)]
    {
      books := books[symbol := book];
      sent := sent + [OrderBookMsg(book)];
    }

    /** `add_trade`: append the trade to the symbol's history (created empty if missing), drop the
        oldest once the history exceeds 50, then send the trade. */
    method AddTrade(symbol: string, trade: Trade)
      requires Valid()
      modifies this
      ensures Valid()
      ensures trades == old(trades)[symbol := PushPruned(old(Trades(symbol)), trade)] && books == old(books)
      ensures sent == old(sent) + [TradeMsg(trade)]
    {
      var q := Trades(symbol);
      q := q + [trade];
      if |q| > TradeCap {
        q := q[1..];
      }
      trades := trades[symbol := q];
      sent := sent + [TradeMsg(trade)];
    }

    /** `get_order_book`: a copy of the symbol's book, if any. */
    method GetOrderBook(symbol: string) returns (r: Option<OrderBook>)
      ensures symbol in books <==> r.Some?
      ensures r.Some? ==> r.value == books[symbol]
    {
      r := if symbol in books then Some(books[symbol]) else None;
    }
  }
}
