/** What the three Binance WebSocket connectors share: the stream names they subscribe to, the
    combined-stream URL, the capped exponential reconnect backoff, the frame-reading loop and the
    mapping of raw price levels. The socket is replaced by a finite script of connection attempts,
    each refused or yielding the frames the server sends before the stream ends; a connector run
    becomes the sequence of actions it takes (connect, sleep, hand a text frame to the handler). */
module Upstream {
  import opened Wrappers
  import opened Numbers
  import opened Text
  import opened Models

  // ---------------------------------------------------------------------------------------------
  // Stream names and the URL
  // ---------------------------------------------------------------------------------------------

  /** `format!("{}@{}", s_lower, suffix)`. */
  function Stream(lower: string, suffix: string): string {
    lower + "@" + suffix
  }

  /** Two stream names for the same symbol are equal only when their suffixes are. */
  lemma StreamInjective(lower: string, x: string, y: string)
    ensures Stream(lower, x) == Stream(lower, y) <==> x == y
  {
    if Stream(lower, x) == Stream(lower, y) {
      assert Stream(lower, x)[|lower| + 1..] == x;
      assert Stream(lower, y)[|lower| + 1..] == y;
    }
  }

  /** The streams a connector may enable. The spot and legacy connectors know only the first four;
      the futures connector adds the last four, read from its sanitised configuration. */
  datatype Selection = Selection(
    orderBook: bool, rawTrades: bool, aggTrades: bool, klineIntervals: seq<string>,
    ticker: bool, bookTicker: bool, markPrice: bool, liquidation: bool)

  /** A `StreamConfig` as the spot and legacy connectors read it. */
  function SpotSelection(orderBook: bool, rawTrades: bool, aggTrades: bool, klineIntervals: seq<string>): Selection {
    Selection(orderBook, rawTrades, aggTrades, klineIntervals, false, false, false, false)
  }

  /** The kinds of stream a connector can subscribe to. */
  datatype StreamKind =
    | DepthStream | TradeStream | AggTradeStream | KlineStream(interval: string)
    | TickerStream | BookTickerStream | MarkPriceStream | ForceOrderStream

  /** The part of a stream name after `@`; the depth stream carries the configured depth. */
  function Suffix(k: StreamKind, depth: string): string {
    match k
    case DepthStream => "depth" + depth
    case TradeStream => "trade"
    case AggTradeStream => "aggTrade"
    case KlineStream(i) => "kline_" + i
    case TickerStream => "ticker"
    case BookTickerStream => "bookTicker"
    case MarkPriceStream => "markPrice"
    case ForceOrderStream => "forceOrder"
  }

  /** Reads the kind back from a suffix; defined so that it inverts `Suffix`. */
  function KindOf(s: string): StreamKind {
    if |s| > 0 && s[0] == 'd' then DepthStream
    else if |s| >= 6 && s[0] == 'k' then KlineStream(s[6..])
    else if s == "trade" then TradeStream
    else if s == "aggTrade" then AggTradeStream
    else if s == "ticker" then TickerStream
    else if s == "bookTicker" then BookTickerStream
    else if s == "markPrice" then MarkPriceStream
    else ForceOrderStream
  }

  lemma KindOfSuffix(k: StreamKind, depth: string)
    ensures KindOf(Suffix(k, depth)) == k
  {
    match k
    case DepthStream => assert Suffix(k, depth)[0] == 'd';
    case KlineStream(i) =>
      assert Suffix(k, depth)[0] == 'k' && Suffix(k, depth)[6..] == i;
    case _ =>
  }

  /** Different kinds have different suffixes, so different stream names. */
  lemma SuffixInjective(a: StreamKind, b: StreamKind, depth: string)
    ensures Suffix(a, depth) == Suffix(b, depth) <==> a == b
  {
    KindOfSuffix(a, depth);
    KindOfSuffix(b, depth);
  }

  function If(flag: bool, k: StreamKind): seq<StreamKind> {
    if flag then [k] else []
  }

  /** One kline stream per configured interval, in configuration order. */
  function KlineKinds(intervals: seq<string>): (r: seq<StreamKind>)
    ensures |r| == |intervals|
    ensures forall i :: 0 <= i < |r| ==> r[i] == KlineStream(intervals[i])
  {
    if intervals == [] then [] else KlineKinds(intervals[..|intervals| - 1]) + [KlineStream(intervals[|intervals| - 1])]
  }

  /** The kinds a connector subscribes to, in push order: depth, trade, aggTrade, the klines, then
      ticker, bookTicker, markPrice and forceOrder, each present when its flag is set. */
  function Kinds(sel: Selection): seq<StreamKind> {
    EarlyKinds(sel) + KlineKinds(sel.klineIntervals) + LateKinds(sel)
  }

  function EarlyKinds(sel: Selection): seq<StreamKind> {
    If(sel.orderBook, DepthStream) + If(sel.rawTrades, TradeStream) + If(sel.aggTrades, AggTradeStream)
  }

  function LateKinds(sel: Selection): seq<StreamKind> {
    If(sel.ticker, TickerStream) + If(sel.bookTicker, BookTickerStream) + If(sel.markPrice, MarkPriceStream)
    + If(sel.liquidation, ForceOrderStream)
  }

  /** The stream name of each kind, in order. */
  function Names(lower: string, depth: string, kinds: seq<StreamKind>): (r: seq<string>)
    ensures |r| == |kinds|
  {
    if kinds == [] then [] else Names(lower, depth, kinds[..|kinds| - 1]) + [Stream(lower, Suffix(kinds[|kinds| - 1], depth))]
  }

  lemma {:induction false} NameAt(lower: string, depth: string, kinds: seq<StreamKind>, i: nat)
    requires i < |kinds|
    ensures Names(lower, depth, kinds)[i] == Stream(lower, Suffix(kinds[i], depth))
  {
    if i < |kinds| - 1 {
      NameAt(lower, depth, kinds[..|kinds| - 1], i);
    }
  }

  /** The stream list of a connector for the lower-cased symbol `lower`. */
  function StreamList(lower: string, sel: Selection, depth: string): seq<string> {
    Names(lower, depth, Kinds(sel))
  }

  /** A stream is in the list exactly when its kind is among the subscribed kinds. */
  lemma NamesMember(lower: string, depth: string, kinds: seq<StreamKind>, k: StreamKind)
    ensures Stream(lower, Suffix(k, depth)) in Names(lower, depth, kinds) <==> k in kinds
  {
    var ns := Names(lower, depth, kinds);
    if Stream(lower, Suffix(k, depth)) in ns {
      var i :| 0 <= i < |ns| && ns[i] == Stream(lower, Suffix(k, depth));
      NameAt(lower, depth, kinds, i);
      StreamInjective(lower, Suffix(k, depth), Suffix(kinds[i], depth));
      SuffixInjective(k, kinds[i], depth);
    }
    if k in kinds {
      var i :| 0 <= i < |kinds| && kinds[i] == k;
      NameAt(lower, depth, kinds, i);
    }
  }

  lemma NamesSnoc(lower: string, depth: string, kinds: seq<StreamKind>, k: StreamKind)
    ensures Names(lower, depth, kinds + [k]) == Names(lower, depth, kinds) + [Stream(lower, Suffix(k, depth))]
  {
    assert (kinds + [k])[..|kinds|] == kinds;
  }

  lemma KlineKindsSnoc(intervals: seq<string>, i: nat)
    requires i < |intervals|
    ensures KlineKinds(intervals[..i + 1]) == KlineKinds(intervals[..i]) + [KlineStream(intervals[i])]
  {
    assert intervals[..i + 1][..i] == intervals[..i];
  }

  /** `if flag { streams.push(format!("{}@{}", s_lower, suffix)) }`, with the kinds pushed so far
      kept alongside. */
  method PushIf(streams: seq<string>, ghost kinds: seq<StreamKind>, flag: bool, lower: string, depth: string, k: StreamKind)
    returns (r: seq<string>, ghost rk: seq<StreamKind>)
    requires streams == Names(lower, depth, kinds)
    ensures rk == kinds + If(flag, k) && r == Names(lower, depth, rk)
  {
    r, rk := streams, kinds;
    if flag {
      NamesSnoc(lower, depth, kinds, k);
      r, rk := r + [Stream(lower, Suffix(k, depth))], rk + [k];
    }
  }

  /** One pass of the kline loop extends the names by the next interval's stream. */
  lemma KlineStep(lower: string, depth: string, kinds: seq<StreamKind>, intervals: seq<string>, i: nat)
    requires i < |intervals|
    ensures Names(lower, depth, kinds + KlineKinds(intervals[..i])) + [Stream(lower, "kline_" + intervals[i])]
         == Names(lower, depth, kinds + KlineKinds(intervals[..i + 1]))
  {
    var k := KlineStream(intervals[i]);
    KlineKindsSnoc(intervals, i);
    NamesSnoc(lower, depth, kinds + KlineKinds(intervals[..i]), k);
    Associative(kinds, KlineKinds(intervals[..i]), [k]);
  }

  /** `for interval in &config.kline_intervals { streams.push(format!("{}@kline_{}", s_lower, interval)) }`. */
  method PushKlines(streams: seq<string>, ghost kinds: seq<StreamKind>, lower: string, depth: string, intervals: seq<string>)
    returns (r: seq<string>, ghost rk: seq<StreamKind>)
    requires streams == Names(lower, depth, kinds)
    ensures rk == kinds + KlineKinds(intervals) && r == Names(lower, depth, rk)
  {
    r := streams;
    assert kinds + KlineKinds(intervals[..0]) == kinds;
    for i := 0 to |intervals|
      invariant r == Names(lower, depth, kinds + KlineKinds(intervals[..i]))
    {
      KlineStep(lower, depth, kinds, intervals, i);
      r := r + [Stream(lower, "kline_" + intervals[i])];
    }
    assert intervals[..|intervals|] == intervals;
    rk := kinds + KlineKinds(intervals);
  }

  /** The depth, trade and aggTrade pushes. */
  method PushEarly(lower: string, depth: string, sel: Selection) returns (r: seq<string>, ghost rk: seq<StreamKind>)
    ensures rk == EarlyKinds(sel) && r == Names(lower, depth, rk)
  {
    r, rk := PushIf([], [], sel.orderBook, lower, depth, DepthStream);
    r, rk := PushIf(r, rk, sel.rawTrades, lower, depth, TradeStream);
    r, rk := PushIf(r, rk, sel.aggTrades, lower, depth, AggTradeStream);
    assert [] + If(sel.orderBook, DepthStream) == If(sel.orderBook, DepthStream);
  }

  /** The ticker, bookTicker, markPrice and forceOrder pushes. */
  method PushLate(streams: seq<string>, ghost kinds: seq<StreamKind>, lower: string, depth: string, sel: Selection)
    returns (r: seq<string>, ghost rk: seq<StreamKind>)
    requires streams == Names(lower, depth, kinds)
    ensures rk == kinds + LateKinds(sel) && r == Names(lower, depth, rk)
  {
    r, rk := PushIf(streams, kinds, sel.ticker, lower, depth, TickerStream);
    r, rk := PushIf(r, rk, sel.bookTicker, lower, depth, BookTickerStream);
    r, rk := PushIf(r, rk, sel.markPrice, lower, depth, MarkPriceStream);
    r, rk := PushIf(r, rk, sel.liquidation, lower, depth, ForceOrderStream);
    var t, b, m, f := If(sel.ticker, TickerStream), If(sel.bookTicker, BookTickerStream),
      If(sel.markPrice, MarkPriceStream), If(sel.liquidation, ForceOrderStream);
    Associative(kinds, t, b);
    Associative(kinds, t + b, m);
    Associative(kinds, t + b + m, f);
  }

  /** The pushes of `connect_binance`, in the order of the source's `if`s and `for`. */
  method BuildStreams(symbol: string, sel: Selection, depth: string) returns (streams: seq<string>)
    ensures streams == StreamList(Lower(symbol), sel, depth)
  {
    var lower := Lower(symbol);
    ghost var kinds: seq<StreamKind>;
    streams, kinds := PushEarly(lower, depth, sel);
    streams, kinds := PushKlines(streams, kinds, lower, depth, sel.klineIntervals);
    streams, kinds := PushLate(streams, kinds, lower, depth, sel);
  }

  /** Whether a selection enables a kind: a fixed kind when its flag is set, a kline stream when
      its interval is configured. */
  predicate Selected(sel: Selection, k: StreamKind) {
    match k
    case DepthStream => sel.orderBook
    case TradeStream => sel.rawTrades
    case AggTradeStream => sel.aggTrades
    case KlineStream(i) => i in sel.klineIntervals
    case TickerStream => sel.ticker
    case BookTickerStream => sel.bookTicker
    case MarkPriceStream => sel.markPrice
    case ForceOrderStream => sel.liquidation
  }

  lemma KlineKindsMember(intervals: seq<string>, k: StreamKind)
    ensures k in KlineKinds(intervals) <==> k.KlineStream? && k.interval in intervals
  {
    var kk := KlineKinds(intervals);
    if k in kk {
      var j :| 0 <= j < |kk| && kk[j] == k;
      assert intervals[j] == k.interval;
    }
    if k.KlineStream? && k.interval in intervals {
      var j :| 0 <= j < |intervals| && intervals[j] == k.interval;
      assert kk[j] == k;
    }
  }

  lemma EarlyKindsMember(sel: Selection, k: StreamKind)
    ensures k in EarlyKinds(sel) <==> (k.DepthStream? || k.TradeStream? || k.AggTradeStream?) && Selected(sel, k)
  {
  }

  lemma LateKindsMember(sel: Selection, k: StreamKind)
    ensures k in LateKinds(sel)
        <==> (k.TickerStream? || k.BookTickerStream? || k.MarkPriceStream? || k.ForceOrderStream?) && Selected(sel, k)
  {
  }

  /** The kinds subscribed to are exactly the selected ones. */
  lemma KindsFollowSelection(sel: Selection, k: StreamKind)
    ensures k in Kinds(sel) <==> Selected(sel, k)
  {
    KlineKindsMember(sel.klineIntervals, k);
    EarlyKindsMember(sel, k);
    LateKindsMember(sel, k);
  }

  /** A stream is subscribed exactly when its kind is selected: each fixed stream when its flag is
      set, a kline stream for each configured interval. */
  lemma StreamListFollowsSelection(lower: string, sel: Selection, depth: string, k: StreamKind)
    ensures Stream(lower, Suffix(k, depth)) in StreamList(lower, sel, depth) <==> Selected(sel, k)
  {
    KindsFollowSelection(sel, k);
    NamesMember(lower, depth, Kinds(sel), k);
  }

  /** Nothing but the selected streams is subscribed: every name is that of a selected kind. */
  lemma StreamListOnlySelected(lower: string, sel: Selection, depth: string)
    ensures forall s :: s in StreamList(lower, sel, depth) ==> exists k :: Selected(sel, k) && s == Stream(lower, Suffix(k, depth))
  {
    var l := StreamList(lower, sel, depth);
    var ks := Kinds(sel);
    forall s | s in l ensures exists k :: Selected(sel, k) && s == Stream(lower, Suffix(k, depth)) {
      var i :| 0 <= i < |l| && l[i] == s;
      NameAt(lower, depth, ks, i);
      KindsFollowSelection(sel, ks[i]);
    }
  }

  /** Every stream name is the lower-cased symbol followed by `@`. */
  lemma StreamsNameTheSymbol(lower: string, sel: Selection, depth: string)
    ensures forall s :: s in StreamList(lower, sel, depth) ==> |s| > |lower| && s[..|lower| + 1] == lower + "@"
  {
    var l := StreamList(lower, sel, depth);
    forall s | s in l ensures |s| > |lower| && s[..|lower| + 1] == lower + "@" {
      var i :| 0 <= i < |l| && l[i] == s;
      NameAt(lower, depth, Kinds(sel), i);
    }
  }

  /** A connector aborts for an empty list, which happens exactly when no stream is enabled. */
  lemma StreamListEmpty(lower: string, sel: Selection, depth: string)
    ensures StreamList(lower, sel, depth) == [] <==>
      !sel.orderBook && !sel.rawTrades && !sel.aggTrades && sel.klineIntervals == []
      && !sel.ticker && !sel.bookTicker && !sel.markPrice && !sel.liquidation
  {
  }

  /** `format!("{}/{}", base, streams.join("/"))`. */
  function CombinedUrl(base: string, streams: seq<string>): string {
    base + "/" + Join(streams, "/")
  }

  /** The URL lists the streams: what follows the base and its slash splits back into the stream
      names, as long as no name holds a slash. */
  lemma UrlListsStreams(base: string, streams: seq<string>)
    requires |streams| >= 1
    requires forall i :: 0 <= i < |streams| ==> '/' !in streams[i]
    ensures CombinedUrl(base, streams)[..|base| + 1] == base + "/"
    ensures Split(CombinedUrl(base, streams)[|base| + 1..], '/') == streams
  {
    assert CombinedUrl(base, streams)[|base| + 1..] == Join(streams, ['/']);
    SplitJoin(streams, '/');
  }

  // ---------------------------------------------------------------------------------------------
  // Reading frames
  // ---------------------------------------------------------------------------------------------

  /** One item of the WebSocket read stream: a frame, or a read error. */
  datatype Frame = TextFrame(text: string) | Binary | Ping | Pong | Close | ReadError

  /** How a read loop treats a frame that is not text. The spot and legacy connectors read
      `while let Some(Ok(Message::Text(..)))`: anything else ends the loop. The futures connector
      ignores ping, pong and binary frames and stops at a close frame or an error. The snapshot
      ingester skips every non-text item and stops only when the stream ends. */
  datatype ReadRule = TextOnly | UntilCloseOrError | EveryText

  predicate Stops(f: Frame, rule: ReadRule) {
    match rule
    case TextOnly => !f.TextFrame?
    case UntilCloseOrError => f.Close? || f.ReadError?
    case EveryText => false
  }

  /** The texts a read loop hands on, in arrival order. */
  function Delivered(frames: seq<Frame>, rule: ReadRule): seq<string> {
    if frames == [] then []
    else if frames[0].TextFrame? then [frames[0].text] + Delivered(frames[1..], rule)
    else if Stops(frames[0], rule) then []
    else Delivered(frames[1..], rule)
  }

  /** The text payloads of all text frames, in order. */
  function Texts(frames: seq<Frame>): seq<string> {
    if frames == [] then []
    else (if frames[0].TextFrame? then [frames[0].text] else []) + Texts(frames[1..])
  }

  /** The read loop: texts are handed on until the rule stops it or the stream ends. */
  method ReadLoop(frames: seq<Frame>, rule: ReadRule) returns (texts: seq<string>)
    ensures texts == Delivered(frames, rule)
  {
    texts := [];
    var i := 0;
    assert frames[i..] == frames;
    while i < |frames|
      invariant 0 <= i <= |frames|
      invariant texts + Delivered(frames[i..], rule) == Delivered(frames, rule)
    {
      var f := frames[i];
      assert frames[i..][0] == f && frames[i..][1..] == frames[i + 1..];
      if f.TextFrame? {
        assert texts + [f.text] + Delivered(frames[i + 1..], rule) == Delivered(frames, rule) by {
          Associative(texts, [f.text], Delivered(frames[i + 1..], rule));
        }
        texts := texts + [f.text];
      } else if Stops(f, rule) {
        assert texts == Delivered(frames, rule) by {
          assert Delivered(frames[i..], rule) == [];
        }
        break;
      }
      i := i + 1;
    }
    if i == |frames| {
      assert frames[i..] == [];
    }
  }

  /** Spot and legacy: the delivered texts are those of the longest run of text frames at the
      start, and the frame after that run, if any, is not text. */
  lemma {:induction false} TextOnlyStopsAtFirstNonText(frames: seq<Frame>)
    ensures var r := Delivered(frames, TextOnly);
      && |r| <= |frames|
      && (forall i :: 0 <= i < |r| ==> frames[i] == TextFrame(r[i]))
      && (|r| < |frames| ==> !frames[|r|].TextFrame?)
  {
    if frames != [] && frames[0].TextFrame? {
      TextOnlyStopsAtFirstNonText(frames[1..]);
    }
  }

  /** Futures: ping, pong and binary frames are skipped, so the texts before the first close or
      error are all delivered, and nothing after it is. */
  lemma {:induction false} UntilCloseOrErrorDeliversTextsBeforeStop(a: seq<Frame>, f: Frame, b: seq<Frame>)
    requires forall i :: 0 <= i < |a| ==> !a[i].Close? && !a[i].ReadError?
    ensures Delivered(a, UntilCloseOrError) == Texts(a)
    ensures f.Close? || f.ReadError? ==> Delivered(a + [f] + b, UntilCloseOrError) == Texts(a)
  {
    if a == [] {
      assert [f] + b == a + [f] + b;
    } else {
      UntilCloseOrErrorDeliversTextsBeforeStop(a[1..], f, b);
      assert (a + [f] + b)[1..] == a[1..] + [f] + b;
    }
  }

  /** Snapshot ingester: every text frame is delivered, whatever comes between. */
  lemma {:induction false} EveryTextDeliversAll(frames: seq<Frame>)
    ensures Delivered(frames, EveryText) == Texts(frames)
  {
    if frames != [] {
      EveryTextDeliversAll(frames[1..]);
    }
  }

  // ---------------------------------------------------------------------------------------------
  // Reconnecting with backoff
  // ---------------------------------------------------------------------------------------------

  /** The backoff update as written: `min(backoff_seconds * 2, cap)` on `u64`, where the product
      wraps modulo 2^64 (the behaviour of a release build; a debug build panics instead). */
  function NextBackoffAsWritten(b: U64, cap: U64): U64 {
    Min((2 * b) % 0x1_0000_0000_0000_0000, cap)
  }

  function Pow2(n: nat): (r: nat)
    ensures r >= 1
  {
    if n == 0 then 1 else 2 * Pow2(n - 1)
  }

  /** The backoff after `n` refused connections in a row, with the update as written. */
  function BackoffAsWrittenAfter(n: nat, cap: U64): U64 {
    if n == 0 then 1 else NextBackoffAsWritten(BackoffAsWrittenAfter(n - 1, cap), cap)
  }

  lemma {:induction false} Pow2Monotone(m: nat, n: nat)
    requires m <= n
    ensures Pow2(m) <= Pow2(n)
  {
    if m < n {
      Pow2Monotone(m, n - 1);
    }
  }

  lemma {:induction false} Pow2Add(a: nat, b: nat)
    ensures Pow2(a + b) == Pow2(a) * Pow2(b)
  {
    if a > 0 {
      Pow2Add(a - 1, b);
    }
  }

  lemma Pow2Of12()
    ensures Pow2(12) == 0x1000
  {
    assert Pow2(3) == 8;
    Pow2Add(3, 3);
    Pow2Add(6, 6);
  }

  lemma Pow2Of48()
    ensures Pow2(48) == 0x1_0000_0000_0000
  {
    Pow2Of12();
    Pow2Add(12, 12);
    Pow2Add(24, 24);
  }

  lemma Pow2Values()
    ensures Pow2(62) == 0x4000_0000_0000_0000 && Pow2(63) == 0x8000_0000_0000_0000
  {
    Pow2Of12();
    Pow2Of48();
    Pow2Add(48, 12);
    Pow2Add(60, 2);
  }

  lemma {:induction false} AsWrittenDoubles(n: nat, cap: U64)
    requires n < 64 && cap == 0xFFFF_FFFF_FFFF_FFFF
    ensures BackoffAsWrittenAfter(n, cap) == Pow2(n)
  {
    if n > 0 {
      AsWrittenDoubles(n - 1, cap);
      Pow2Monotone(n - 1, 62);
      Pow2Values();
    }
  }

  /** With `binance_reconnect_delay = u64::MAX`, the 64th refused connection in a row doubles 2^63
      to 2^64, which wraps to 0: the backoff collapses to zero and stays there, so the connector
      retries without sleeping. */
  lemma AsWrittenBackoffCollapses(n: nat, cap: U64)
    requires n == 63 && cap == 0xFFFF_FFFF_FFFF_FFFF
    ensures BackoffAsWrittenAfter(n, cap) == 0x8000_0000_0000_0000
    ensures BackoffAsWrittenAfter(n + 1, cap) == 0
    ensures BackoffAsWrittenAfter(n + 2, cap) == 0
  {
    assert BackoffAsWrittenAfter(n, cap) == 0x8000_0000_0000_0000 by {
      AsWrittenDoubles(n, cap);
      Pow2Values();
    }
    WrapsToZero(cap);
  }

  lemma WrapsToZero(cap: U64)
    ensures NextBackoffAsWritten(0x8000_0000_0000_0000, cap) == 0
    ensures NextBackoffAsWritten(0, cap) == 0
  {
    assert 2 * 0x8000_0000_0000_0000 == 0x1_0000_0000_0000_0000;
  }

  /** The intended update: the doubled backoff, capped. Since the cap is a `u64`, the result is
      one too, and no wrap-around can occur. */
  function NextBackoff(b: U64, cap: U64): (r: U64)
    ensures r <= cap
  {
    Min(2 * b, cap)
  }

  /** With a positive cap the backoff stays within [1, cap] and never decreases while
      connections keep failing. */
  lemma NextBackoffBounds(b: U64, cap: U64)
    requires 1 <= b <= cap
    ensures 1 <= NextBackoff(b, cap) <= cap
    ensures b <= NextBackoff(b, cap)
  {
  }

  function BackoffAfter(n: nat, cap: U64): U64 {
    if n == 0 then 1 else NextBackoff(BackoffAfter(n - 1, cap), cap)
  }

  /** After `n` refused connections in a row the backoff is `min(2^n, cap)`: it doubles until it
      reaches the cap and then stays there. */
  lemma {:induction false} BackoffDoublesToCap(n: nat, cap: U64)
    requires cap >= 1
    ensures BackoffAfter(n, cap) == Min(Pow2(n), cap)
  {
    if n > 0 {
      BackoffDoublesToCap(n - 1, cap);
    }
  }

  /** The two updates differ only once the doubled value reaches 2^64: below that they agree. */
  lemma AsWrittenAgreesBelowWrap(b: U64, cap: U64)
    requires 2 * b < 0x1_0000_0000_0000_0000
    ensures NextBackoffAsWritten(b, cap) == NextBackoff(b, cap)
  {
  }

  /** A scripted connection attempt: refused, or accepted with the frames read until the stream
      ends. */
  datatype Attempt = Refused | Connected(frames: seq<Frame>)

  /** What a connector does, in order. `Dispatch(text)` hands a text frame to `handle_message`
      (the source spawns a task per frame, so the handler calls themselves may run in any order). */
  datatype Action = Connect(url: string) | Sleep(seconds: U64) | Dispatch(text: string)

  function Dispatches(texts: seq<string>): (r: seq<Action>)
    ensures |r| == |texts|
    ensures forall i :: 0 <= i < |r| ==> r[i] == Dispatch(texts[i])
  {
    if texts == [] then [] else [Dispatch(texts[0])] + Dispatches(texts[1..])
  }

  /** The backoff after an attempt: reset to 1 by a successful connection, then doubled and capped
      at the end of the loop body in either case. */
  function AfterAttempt(a: Attempt, b: U64, cap: U64): U64 {
    NextBackoff(if a.Connected? then 1 else b, cap)
  }

  /** With a cap below 2^63 the loop never reaches the wrap: every backoff it holds is at most
      `max(1, cap)`, and each update equals the source's wrapping `u64` product, capped. */
  lemma AfterAttemptAsWrittenBelowWrap(a: Attempt, b: U64, cap: U64)
    requires cap < 0x8000_0000_0000_0000
    requires b <= 1 || b <= cap
    ensures AfterAttempt(a, b, cap) == NextBackoffAsWritten(if a.Connected? then 1 else b, cap)
    ensures AfterAttempt(a, b, cap) <= cap
  {
    AsWrittenAgreesBelowWrap(if a.Connected? then 1 else b, cap);
  }

  /** One pass of the reconnect loop: connect, then read and dispatch, or sleep for the current
      backoff when the connection is refused. */
  function Block(url: string, a: Attempt, b: U64, rule: ReadRule): seq<Action> {
    [Connect(url)] + (if a.Refused? then [Sleep(b)] else Dispatches(Delivered(a.frames, rule)))
  }

  /** The actions of the reconnect loop over a script of attempts, starting from backoff `b`. */
  function Actions(url: string, attempts: seq<Attempt>, b: U64, cap: U64, rule: ReadRule): seq<Action> {
    if attempts == [] then []
    else Block(url, attempts[0], b, rule) + Actions(url, attempts[1..], AfterAttempt(attempts[0], b, cap), cap, rule)
  }

  /** The loop invariant of `ReconnectLoop` is kept by one pass. */
  lemma ActionsUnfold(url: string, attempts: seq<Attempt>, i: nat, b: U64, cap: U64, rule: ReadRule, done: seq<Action>)
    requires i < |attempts|
    requires done + Actions(url, attempts[i..], b, cap, rule) == Actions(url, attempts, 1, cap, rule)
    ensures done + Block(url, attempts[i], b, rule) + Actions(url, attempts[i + 1..], AfterAttempt(attempts[i], b, cap), cap, rule)
         == Actions(url, attempts, 1, cap, rule)
  {
    var pass := Block(url, attempts[i], b, rule);
    var rest := Actions(url, attempts[i + 1..], AfterAttempt(attempts[i], b, cap), cap, rule);
    assert Actions(url, attempts[i..], b, cap, rule) == pass + rest by {
      assert attempts[i..][0] == attempts[i] && attempts[i..][1..] == attempts[i + 1..];
    }
    Associative(done, pass, rest);
  }

  lemma Associative<T>(x: seq<T>, y: seq<T>, z: seq<T>)
    ensures x + y + z == x + (y + z)
  {
  }

  /** One pass of the loop body: connect; on success reset the backoff and hand on the frames'
      texts, on failure sleep for the current backoff; then double and cap the backoff. */
  method Pass(url: string, attempt: Attempt, backoff: U64, cap: U64, rule: ReadRule) returns (pass: seq<Action>, next: U64)
    ensures pass == Block(url, attempt, backoff, rule)
    ensures next == AfterAttempt(attempt, backoff, cap)
  {
    next := backoff;
    pass := [Connect(url)];
    match attempt {
      case Connected(frames) =>
        next := 1;
        var texts := ReadLoop(frames, rule);
        pass := pass + Dispatches(texts);
      case Refused =>
        pass := pass + [Sleep(next)];
    }
    next := NextBackoff(next, cap);
  }

  /** The reconnect loop of a connector, run over a finite script of attempts. */
  method ReconnectLoop(url: string, attempts: seq<Attempt>, cap: U64, rule: ReadRule) returns (actions: seq<Action>)
    ensures actions == Actions(url, attempts, 1, cap, rule)
  {
    var backoff: U64 := 1;
    actions := [];
    var i := 0;
    while i < |attempts|
      invariant 0 <= i <= |attempts|
      invariant actions + Actions(url, attempts[i..], backoff, cap, rule) == Actions(url, attempts, 1, cap, rule)
    {
      ActionsUnfold(url, attempts, i, backoff, cap, rule, actions);
      var pass, next := Pass(url, attempts[i], backoff, cap, rule);
      actions, backoff := actions + pass, next;
      i := i + 1;
    }
  }

  /** The number of sleeps in a list of actions. */
  function SleepCount(actions: seq<Action>): nat {
    if actions == [] then 0 else (if actions[0].Sleep? then 1 else 0) + SleepCount(actions[1..])
  }

  function ConnectCount(actions: seq<Action>): nat {
    if actions == [] then 0 else (if actions[0].Connect? then 1 else 0) + ConnectCount(actions[1..])
  }

  function RefusedCount(attempts: seq<Attempt>): nat {
    if attempts == [] then 0 else (if attempts[0].Refused? then 1 else 0) + RefusedCount(attempts[1..])
  }

  lemma {:induction false} CountsAppend(a: seq<Action>, b: seq<Action>)
    ensures SleepCount(a + b) == SleepCount(a) + SleepCount(b)
    ensures ConnectCount(a + b) == ConnectCount(a) + ConnectCount(b)
  {
    if a == [] {
      assert a + b == b;
    } else {
      CountsAppend(a[1..], b);
      assert (a + b)[0] == a[0];
      assert (a + b)[1..] == a[1..] + b;
    }
  }

  lemma {:induction false} DispatchesHaveNoSleep(texts: seq<string>)
    ensures SleepCount(Dispatches(texts)) == 0 && ConnectCount(Dispatches(texts)) == 0
  {
    if texts != [] {
      DispatchesHaveNoSleep(texts[1..]);
    }
  }

  /** Every attempt begins with one connect, and the connector sleeps once per refused attempt
      and never after a connection that succeeded. */
  lemma {:induction false} SleepOnlyOnRefusal(url: string, attempts: seq<Attempt>, b: U64, cap: U64, rule: ReadRule)
    ensures ConnectCount(Actions(url, attempts, b, cap, rule)) == |attempts|
    ensures SleepCount(Actions(url, attempts, b, cap, rule)) == RefusedCount(attempts)
  {
    if attempts != [] {
      var a := attempts[0];
      SleepOnlyOnRefusal(url, attempts[1..], AfterAttempt(a, b, cap), cap, rule);
      var tail := if a.Refused? then [Sleep(b)] else Dispatches(Delivered(a.frames, rule));
      if a.Connected? { DispatchesHaveNoSleep(Delivered(a.frames, rule)); }
      CountsAppend([Connect(url)], tail);
      CountsAppend(Block(url, a, b, rule), Actions(url, attempts[1..], AfterAttempt(a, b, cap), cap, rule));
    }
  }

  /** Every sleep in `acts` lasts between one second and `cap`. */
  predicate SleepsBounded(acts: seq<Action>, cap: U64) {
    forall i :: 0 <= i < |acts| && acts[i].Sleep? ==> 1 <= acts[i].seconds <= cap
  }

  lemma {:induction false} DispatchesSleepNever(texts: seq<string>, cap: U64)
    ensures SleepsBounded(Dispatches(texts), cap)
  {
  }

  /** Every sleep lasts between one second and the cap, given a cap of at least one second. */
  lemma {:induction false} SleepsWithinCap(url: string, attempts: seq<Attempt>, b: U64, cap: U64, rule: ReadRule)
    requires 1 <= b <= cap
    ensures SleepsBounded(Actions(url, attempts, b, cap, rule), cap)
  {
    if attempts != [] {
      var a := attempts[0];
      var next := AfterAttempt(a, b, cap);
      assert 1 <= next <= cap;
      SleepsWithinCap(url, attempts[1..], next, cap, rule);
      var tail: seq<Action> := if a.Refused? then [Sleep(b)] else Dispatches(Delivered(a.frames, rule));
      if a.Connected? { DispatchesSleepNever(Delivered(a.frames, rule), cap); }
      assert SleepsBounded(tail, cap);
      AppendSleepsBounded([Connect(url)], tail, cap);
      AppendSleepsBounded(Block(url, a, b, rule), Actions(url, attempts[1..], next, cap, rule), cap);
    }
  }

  lemma AppendSleepsBounded(x: seq<Action>, y: seq<Action>, cap: U64)
    requires SleepsBounded(x, cap) && SleepsBounded(y, cap)
    ensures SleepsBounded(x + y, cap)
  {
    forall i | 0 <= i < |x + y| && (x + y)[i].Sleep? ensures 1 <= (x + y)[i].seconds <= cap {
      if i >= |x| { assert (x + y)[i] == y[i - |x|]; }
    }
  }

  /** Every connect in `acts` goes to `url`. */
  predicate ConnectsTo(acts: seq<Action>, url: string) {
    forall i :: 0 <= i < |acts| && acts[i].Connect? ==> acts[i].url == url
  }

  lemma AppendConnectsTo(x: seq<Action>, y: seq<Action>, url: string)
    requires ConnectsTo(x, url) && ConnectsTo(y, url)
    ensures ConnectsTo(x + y, url)
  {
    forall i | 0 <= i < |x + y| && (x + y)[i].Connect? ensures (x + y)[i].url == url {
      if i >= |x| { assert (x + y)[i] == y[i - |x|]; }
    }
  }

  /** A connector only ever connects to the one URL it built. */
  lemma {:induction false} ConnectsOnlyToUrl(url: string, attempts: seq<Attempt>, b: U64, cap: U64, rule: ReadRule)
    ensures ConnectsTo(Actions(url, attempts, b, cap, rule), url)
  {
    if attempts != [] {
      var a := attempts[0];
      var next := AfterAttempt(a, b, cap);
      ConnectsOnlyToUrl(url, attempts[1..], next, cap, rule);
      var tail: seq<Action> := if a.Refused? then [Sleep(b)] else Dispatches(Delivered(a.frames, rule));
      assert ConnectsTo(tail, url);
      AppendConnectsTo([Connect(url)], tail, url);
      AppendConnectsTo(Block(url, a, b, rule), Actions(url, attempts[1..], next, cap, rule), url);
    }
  }

  lemma ActionsCons(url: string, a: Attempt, rest: seq<Attempt>, b: U64, cap: U64, rule: ReadRule)
    ensures Actions(url, [a] + rest, b, cap, rule) == Block(url, a, b, rule) + Actions(url, rest, AfterAttempt(a, b, cap), cap, rule)
  {
    assert ([a] + rest)[0] == a && ([a] + rest)[1..] == rest;
  }

  /** A successful connection resets the backoff: what a connector does from a successful
      connection on does not depend on the backoff before it. */
  lemma ReconnectResetsBackoff(url: string, frames: seq<Frame>, rest: seq<Attempt>, b1: U64, b2: U64, cap: U64, rule: ReadRule)
    ensures Actions(url, [Connected(frames)] + rest, b1, cap, rule) == Actions(url, [Connected(frames)] + rest, b2, cap, rule)
  {
    ActionsCons(url, Connected(frames), rest, b1, cap, rule);
    ActionsCons(url, Connected(frames), rest, b2, cap, rule);
  }

  /** A refusal right after a successful connection sleeps `min(2, cap)` seconds: the reset value
      1 is doubled at the end of the pass that connected. */
  lemma SleepAfterReset(url: string, frames: seq<Frame>, rest: seq<Attempt>, b: U64, cap: U64, rule: ReadRule)
    ensures Actions(url, [Connected(frames), Refused] + rest, b, cap, rule)
         == [Connect(url)] + Dispatches(Delivered(frames, rule)) + [Connect(url), Sleep(Min(2, cap))]
            + Actions(url, rest, NextBackoff(Min(2, cap), cap), cap, rule)
  {
    var c := Connected(frames);
    var two := Min(2, cap);
    var d := Dispatches(Delivered(frames, rule));
    var tail := Actions(url, rest, NextBackoff(two, cap), cap, rule);
    assert Actions(url, [Refused] + rest, two, cap, rule) == [Connect(url), Sleep(two)] + tail by {
      ActionsCons(url, Refused, rest, two, cap, rule);
    }
    assert Actions(url, [c] + ([Refused] + rest), b, cap, rule) == [Connect(url)] + d + ([Connect(url), Sleep(two)] + tail) by {
      ActionsCons(url, c, [Refused] + rest, b, cap, rule);
    }
    assert [c, Refused] + rest == [c] + ([Refused] + rest);
    Associative([Connect(url)] + d, [Connect(url), Sleep(two)], tail);
  }

  // ---------------------------------------------------------------------------------------------
  // Message normalisation shared by the spot and futures connectors
  // ---------------------------------------------------------------------------------------------

  /** The events a handler recognises, each by a marker it looks for in the raw text. */
  datatype EventKind =
    | TradeEvent | DepthEvent | KlineEvent | AggTradeEvent
    | TickerEvent | BookTickerEvent | MarkPriceEvent | ForceOrderEvent

  /** The substring `text.contains(..)` tests for each kind. */
  function Marker(k: EventKind): string {
    match k
    case TradeEvent => "\"e\":\"trade\""
    case DepthEvent => "\"bids\""
    case KlineEvent => "\"e\":\"kline\""
    case AggTradeEvent => "\"e\":\"aggTrade\""
    case TickerEvent => "\"e\":\"24hrTicker\""
    case BookTickerEvent => "\"e\":\"bookTicker\""
    case MarkPriceEvent => "\"e\":\"markPriceUpdate\""
    case ForceOrderEvent => "\"e\":\"forceOrder\""
  }

  function Markers(kinds: seq<EventKind>): (r: seq<string>)
    ensures |r| == |kinds|
    ensures forall i :: 0 <= i < |r| ==> r[i] == Marker(kinds[i])
  {
    if kinds == [] then [] else [Marker(kinds[0])] + Markers(kinds[1..])
  }

  /** The `if .. else if` chain of a handler: the first kind, in the handler's order, whose marker
      occurs in the text; `None` when no marker occurs. */
  function Classify(kinds: seq<EventKind>, text: string): Option<EventKind> {
    match FirstMatch(text, Markers(kinds))
    case None => None
    case Some(i) => Some(kinds[i])
  }

  /** The text is handled as the first kind whose marker it contains, so a later kind is never
      chosen when an earlier marker also occurs; without any marker it is ignored. */
  lemma ClassifyPicksFirstMarker(kinds: seq<EventKind>, text: string)
    ensures Classify(kinds, text).None? <==> forall j :: 0 <= j < |kinds| ==> !Contains(text, Marker(kinds[j]))
    ensures Classify(kinds, text).Some? ==>
      exists i :: 0 <= i < |kinds| && kinds[i] == Classify(kinds, text).value
        && Contains(text, Marker(kinds[i]))
        && forall j :: 0 <= j < i ==> !Contains(text, Marker(kinds[j]))
  {
    var ms := Markers(kinds);
    if FirstMatch(text, ms).Some? {
      var i := FirstMatch(text, ms).value;
      assert kinds[i] == Classify(kinds, text).value;
    }
  }

  /** The side of the taker: Binance's `m` flag says the buyer was the maker, so the taker sold. */
  function TakerSide(isBuyerMaker: bool): (s: TradeSide)
    ensures s == Sell <==> isBuyerMaker
    ensures s == Buy <==> !isBuyerMaker
  {
    if isBuyerMaker then Sell else Buy
  }

  /** `parse_raw_levels`: each `[price, quantity]` pair of strings becomes one level, in order,
      with a text that does not parse read as 0.0. */
  function ParseRawLevels(num: FloatParser, raw: seq<(string, string)>): (r: seq<PriceLevel>)
    ensures |r| == |raw|
    ensures forall i :: 0 <= i < |raw| ==>
      && (num(raw[i].0).Some? ==> r[i].price == num(raw[i].0).value)
      && (num(raw[i].0).None? ==> r[i].price == 0.0)
      && (num(raw[i].1).Some? ==> r[i].quantity == num(raw[i].1).value)
      && (num(raw[i].1).None? ==> r[i].quantity == 0.0)
  {
    if raw == [] then []
    else [PriceLevel(ParseOrZero(num, raw[0].0), ParseOrZero(num, raw[0].1))] + ParseRawLevels(num, raw[1..])
  }
}
