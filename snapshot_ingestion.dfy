/** The snapshot ingester (ingestion_engine/src/ingestion.rs): one combined-stream connection to
    nine fixed `btcusdt` streams, whose events overwrite the five last-value slots of a shared
    snapshot. Each text frame is a `CombinedEvent` envelope (a stream name and a JSON payload); the
    stream name chooses the slot and the payload must decode as that slot's struct. The structs
    themselves are not part of this model: a slot holds the JSON payload its struct was decoded
    from, and `serde_json` is replaced by decoder parameters. */
module Ingestion {
  import opened Wrappers
  import opened Numbers
  import opened Text
  import opened Json
  import opened Upstream

  // ---------------------------------------------------------------------------------------------
  // The URL
  // ---------------------------------------------------------------------------------------------

  const CombinedBase: string := "wss://fstream.binance.com/stream?streams="

  /** The ingester's symbol, fixed in each of its stream names. */
  const SnapshotSymbol: string := "btcusdt"

  /** The nine streams for a lower-case symbol, in the order they are listed: book ticker,
      aggregate trades, liquidations, mark price, and klines of 1m, 5m, 15m, 1h and 1d. */
  function StreamsOf(lower: string): seq<string> {
    [Stream(lower, "bookTicker"), Stream(lower, "aggTrade"), Stream(lower, "forceOrder"), Stream(lower, "markPrice"),
     Stream(lower, "kline_1m"), Stream(lower, "kline_5m"), Stream(lower, "kline_15m"), Stream(lower, "kline_1h"),
     Stream(lower, "kline_1d")]
  }

  /** `btcusdt@bookTicker`, `btcusdt@aggTrade`, ..., `btcusdt@kline_1d`. */
  const SnapshotStreams: seq<string> := StreamsOf(SnapshotSymbol)

  /** `format!("{}{}", base, streams.join("/"))`: the base already ends in `streams=`, so no slash
      is inserted after it. */
  function SnapshotUrl(): string {
    CombinedBase + Join(SnapshotStreams, "/")
  }

  /** The URL is the base followed by exactly the nine stream names, in order, for any symbol
      free of `/`. */
  lemma UrlListsStreams(lower: string)
    requires '/' !in lower
    ensures (CombinedBase + Join(StreamsOf(lower), "/"))[..|CombinedBase|] == CombinedBase
    ensures Split((CombinedBase + Join(StreamsOf(lower), "/"))[|CombinedBase|..], '/') == StreamsOf(lower)
  {
    var streams := StreamsOf(lower);
    assert (CombinedBase + Join(streams, "/"))[|CombinedBase|..] == Join(streams, ['/']);
    forall i | 0 <= i < |streams| ensures '/' !in streams[i] {
    }
    SplitJoin(streams, '/');
  }

  // ---------------------------------------------------------------------------------------------
  // The snapshot and the routing of one event
  // ---------------------------------------------------------------------------------------------

  /** The five fields of `GlobalSnapshot` the ingester writes. */
  datatype Slot = LastTrade | LastLiquidation | MarkPrice | Ticker | LastKline

  /** The snapshot as a value. */
  datatype SnapshotView = SnapshotView(
    lastTrade: Option<Value>, lastLiquidation: Option<Value>, markPrice: Option<Value>,
    ticker: Option<Value>, lastKline: Option<Value>)

  function Get(v: SnapshotView, s: Slot): Option<Value> {
    match s
    case LastTrade => v.lastTrade
    case LastLiquidation => v.lastLiquidation
    case MarkPrice => v.markPrice
    case Ticker => v.ticker
    case LastKline => v.lastKline
  }

  /** The snapshot with one slot overwritten. */
  function Set(v: SnapshotView, s: Slot, x: Option<Value>): (r: SnapshotView)
    ensures Get(r, s) == x
    ensures forall t: Slot :: t != s ==> Get(r, t) == Get(v, t)
  {
    match s
    case LastTrade => v.(lastTrade := x)
    case LastLiquidation => v.(lastLiquidation := x)
    case MarkPrice => v.(markPrice := x)
    case Ticker => v.(ticker := x)
    case LastKline => v.(lastKline := x)
  }

  /** The envelope of a combined stream. */
  datatype CombinedEvent = CombinedEvent(stream: string, data: Value)

  /** `serde_json::from_str::<CombinedEvent>` on the frame's text, and `serde_json::from_value` of
      the payload as the struct a slot holds (`AggTrade`, `ForceOrder`, `MarkPrice`, `BookTicker`,
      `KlineEvent`). */
  datatype Decoders = Decoders(envelope: string -> Option<CombinedEvent>, payload: (Slot, Value) -> bool)

  /** The guards of the `match` on the stream name, in the order they are tried. */
  function Route(stream: string): Option<Slot> {
    if Contains(stream, "@aggTrade") then Some(LastTrade)
    else if Contains(stream, "@forceOrder") then Some(LastLiquidation)
    else if Contains(stream, "@markPrice") then Some(MarkPrice)
    else if Contains(stream, "@bookTicker") then Some(Ticker)
    else if Contains(stream, "@kline") then Some(LastKline)
    else None
  }

  const RoutePatterns: seq<string> := ["@aggTrade", "@forceOrder", "@markPrice", "@bookTicker", "@kline"]
  const RouteSlots: seq<Slot> := [LastTrade, LastLiquidation, MarkPrice, Ticker, LastKline]

  /** Routing is a first match: the slot of the first pattern the stream name contains, and no
      slot when it contains none. */
  lemma RouteIsFirstMatch(stream: string)
    ensures Route(stream).None? <==> FirstMatch(stream, RoutePatterns).None?
    ensures Route(stream).Some? ==> Route(stream).value == RouteSlots[FirstMatch(stream, RoutePatterns).value]
  {
    var m := FirstMatch(stream, RoutePatterns);
    assert RoutePatterns[0] == "@aggTrade" && RoutePatterns[1] == "@forceOrder" && RoutePatterns[2] == "@markPrice";
    assert RoutePatterns[3] == "@bookTicker" && RoutePatterns[4] == "@kline";
    if m.Some? {
      assert Contains(stream, RoutePatterns[m.value]);
      assert m.value < 5;
      if m.value >= 1 { assert !Contains(stream, RoutePatterns[0]); }
      if m.value >= 2 { assert !Contains(stream, RoutePatterns[1]); }
      if m.value >= 3 { assert !Contains(stream, RoutePatterns[2]); }
      if m.value >= 4 { assert !Contains(stream, RoutePatterns[3]); }
    } else {
      assert !Contains(stream, RoutePatterns[0]) && !Contains(stream, RoutePatterns[1]) && !Contains(stream, RoutePatterns[2]);
      assert !Contains(stream, RoutePatterns[3]) && !Contains(stream, RoutePatterns[4]);
    }
  }

  /** The effect of one text frame on the snapshot: nothing unless the envelope decodes, its
      stream name routes to a slot and its payload decodes as that slot's struct; then that slot
      alone becomes the payload. */
  function Update(v: SnapshotView, dec: Decoders, text: string): SnapshotView {
    match dec.envelope(text)
    case None => v
    case Some(ev) =>
      match Route(ev.stream)
      case None => v
      case Some(s) => if dec.payload(s, ev.data) then Set(v, s, Some(ev.data)) else v
  }

  /** Whether a text frame writes slot `s`. */
  predicate Writes(dec: Decoders, text: string, s: Slot) {
    && dec.envelope(text).Some?
    && Route(dec.envelope(text).value.stream) == Some(s)
    && dec.payload(s, dec.envelope(text).value.data)
  }

  /** A frame writes at most one slot, and writes its own payload there; every other slot, and
      every slot of a frame that writes nothing, keeps its value. */
  lemma UpdateWritesOneSlot(v: SnapshotView, dec: Decoders, text: string)
    ensures forall s: Slot :: Writes(dec, text, s) ==> Get(Update(v, dec, text), s) == Some(dec.envelope(text).value.data)
    ensures forall s: Slot :: !Writes(dec, text, s) ==> Get(Update(v, dec, text), s) == Get(v, s)
    ensures forall s: Slot, t: Slot :: Writes(dec, text, s) && Writes(dec, text, t) ==> s == t
  {
  }

  /** Replaying the same frame changes nothing more. */
  lemma UpdateIdempotent(v: SnapshotView, dec: Decoders, text: string)
    ensures Update(Update(v, dec, text), dec, text) == Update(v, dec, text)
  {
  }

  /** Frames that write different slots, or nothing, may be applied in either order. */
  lemma UpdatesCommute(v: SnapshotView, dec: Decoders, a: string, b: string)
    requires forall s: Slot :: !(Writes(dec, a, s) && Writes(dec, b, s))
    ensures Update(Update(v, dec, a), dec, b) == Update(Update(v, dec, b), dec, a)
  {
    var ab, ba := Update(Update(v, dec, a), dec, b), Update(Update(v, dec, b), dec, a);
    UpdateWritesOneSlot(v, dec, a);
    UpdateWritesOneSlot(v, dec, b);
    UpdateWritesOneSlot(Update(v, dec, a), dec, b);
    UpdateWritesOneSlot(Update(v, dec, b), dec, a);
    assert forall s: Slot :: Get(ab, s) == Get(ba, s);
    assert Get(ab, LastTrade) == Get(ba, LastTrade) && Get(ab, LastLiquidation) == Get(ba, LastLiquidation);
    assert Get(ab, MarkPrice) == Get(ba, MarkPrice) && Get(ab, Ticker) == Get(ba, Ticker);
    assert Get(ab, LastKline) == Get(ba, LastKline);
  }

  /** The slot a stream name `<symbol>@<suffix>` routes to, read off the suffix: the first
      pattern, without its `@`, that begins the suffix. */
  function RouteSuffix(suffix: string): Option<Slot> {
    if "aggTrade" <= suffix then Some(LastTrade)
    else if "forceOrder" <= suffix then Some(LastLiquidation)
    else if "markPrice" <= suffix then Some(MarkPrice)
    else if "bookTicker" <= suffix then Some(Ticker)
    else if "kline" <= suffix then Some(LastKline)
    else None
  }

  /** A symbol without `@`, as Binance's are. */
  predicate PlainSymbol(lower: string) {
    '@' !in lower
  }

  /** In `<symbol>@<suffix>`, with `@` in neither part, a pattern `@p` occurs exactly when the
      suffix begins with `p`: the one `@` is where any occurrence must start. */
  lemma StreamContains(lower: string, suffix: string, p: string)
    requires PlainSymbol(lower) && '@' !in suffix
    ensures Contains(Stream(lower, suffix), "@" + p) <==> p <= suffix
  {
    var s := Stream(lower, suffix);
    var n := |lower|;
    var pat := "@" + p;
    forall i | 0 <= i < |s| && i != n ensures s[i] != '@' {
      if i < n { assert s[i] == lower[i]; } else { assert s[i] == suffix[i - n - 1]; }
    }
    if p <= suffix {
      assert s[n..n + |pat|] == pat;
      ContainsAt(s, pat, n);
    }
    if Contains(s, pat) {
      var i := Occurrence(s, pat);
      assert s[i] == pat[0] == '@';
      assert i == n;
      assert suffix[..|p|] == s[n + 1..n + 1 + |p|] == p;
    }
  }

  /** Routing a stream name of one symbol depends only on its suffix. */
  lemma RouteByPrefix(lower: string, suffix: string)
    requires PlainSymbol(lower) && '@' !in suffix
    ensures Route(Stream(lower, suffix)) == RouteSuffix(suffix)
  {
    StreamContains(lower, suffix, "aggTrade");
    StreamContains(lower, suffix, "forceOrder");
    StreamContains(lower, suffix, "markPrice");
    StreamContains(lower, suffix, "bookTicker");
    StreamContains(lower, suffix, "kline");
    assert "@" + "aggTrade" == "@aggTrade" && "@" + "forceOrder" == "@forceOrder" && "@" + "markPrice" == "@markPrice";
    assert "@" + "bookTicker" == "@bookTicker" && "@" + "kline" == "@kline";
  }

  lemma NotPrefix(a: string, b: string)
    requires |a| > 0 && |b| > 0 && a[0] != b[0]
    ensures !(a <= b)
  {
  }

  /** Every kline stream routes to `last_kline`, whatever its interval: all intervals share the
      one slot, so a kline of any interval replaces one of any other. */
  lemma KlineRoutes(lower: string, suffix: string)
    requires PlainSymbol(lower) && '@' !in suffix && "kline_" <= suffix
    ensures Route(Stream(lower, suffix)) == Some(LastKline)
  {
    assert suffix[0] == 'k' && "kline" == suffix[..5];
    NotPrefix("aggTrade", suffix);
    NotPrefix("forceOrder", suffix);
    NotPrefix("markPrice", suffix);
    NotPrefix("bookTicker", suffix);
    RouteByPrefix(lower, suffix);
  }

  /** Each of the first four subscribed streams routes to its own slot. */
  lemma BookTickerRoutes(lower: string)
    requires PlainSymbol(lower)
    ensures Route(Stream(lower, "bookTicker")) == Some(Ticker)
  {
    NotPrefix("aggTrade", "bookTicker");
    NotPrefix("forceOrder", "bookTicker");
    NotPrefix("markPrice", "bookTicker");
    RouteByPrefix(lower, "bookTicker");
  }

  lemma AggTradeRoutes(lower: string)
    requires PlainSymbol(lower)
    ensures Route(Stream(lower, "aggTrade")) == Some(LastTrade)
  {
    RouteByPrefix(lower, "aggTrade");
  }

  lemma ForceOrderRoutes(lower: string)
    requires PlainSymbol(lower)
    ensures Route(Stream(lower, "forceOrder")) == Some(LastLiquidation)
  {
    NotPrefix("aggTrade", "forceOrder");
    RouteByPrefix(lower, "forceOrder");
  }

  lemma MarkPriceRoutes(lower: string)
    requires PlainSymbol(lower)
    ensures Route(Stream(lower, "markPrice")) == Some(MarkPrice)
  {
    NotPrefix("aggTrade", "markPrice");
    NotPrefix("forceOrder", "markPrice");
    RouteByPrefix(lower, "markPrice");
  }

  /** The five kline streams all route to `last_kline`. */
  lemma SubscribedKlinesRoute(lower: string)
    requires PlainSymbol(lower)
    ensures forall i :: 4 <= i < 9 ==> Route(StreamsOf(lower)[i]) == Some(LastKline)
  {
    KlineRoutes(lower, "kline_1m");
    KlineRoutes(lower, "kline_5m");
    KlineRoutes(lower, "kline_15m");
    KlineRoutes(lower, "kline_1h");
    KlineRoutes(lower, "kline_1d");
  }

  // ---------------------------------------------------------------------------------------------
  // A sequence of frames
  // ---------------------------------------------------------------------------------------------

  /** The snapshot after a sequence of frames, applied in arrival order. */
  function UpdateAll(v: SnapshotView, dec: Decoders, texts: seq<string>): SnapshotView
    decreases |texts|
  {
    if texts == [] then v else UpdateAll(Update(v, dec, texts[0]), dec, texts[1..])
  }

  /** A slot that no frame writes keeps its value. */
  lemma {:induction false} UnwrittenSlotKept(v: SnapshotView, dec: Decoders, texts: seq<string>, s: Slot)
    requires forall i :: 0 <= i < |texts| ==> !Writes(dec, texts[i], s)
    ensures Get(UpdateAll(v, dec, texts), s) == Get(v, s)
    decreases |texts|
  {
    if texts != [] {
      assert !Writes(dec, texts[0], s);
      UpdateWritesOneSlot(v, dec, texts[0]);
      assert forall j :: 0 <= j < |texts[1..]| ==> texts[1..][j] == texts[j + 1];
      UnwrittenSlotKept(Update(v, dec, texts[0]), dec, texts[1..], s);
    }
  }

  /** Last write wins: a slot holds the payload of the last frame that writes it. */
  lemma {:induction false} LastWriteWins(v: SnapshotView, dec: Decoders, texts: seq<string>, s: Slot, i: nat)
    requires i < |texts| && Writes(dec, texts[i], s)
    requires forall j :: i < j < |texts| ==> !Writes(dec, texts[j], s)
    ensures Get(UpdateAll(v, dec, texts), s) == Some(dec.envelope(texts[i]).value.data)
    decreases i
  {
    var rest := texts[1..];
    assert forall j :: 0 <= j < |rest| ==> rest[j] == texts[j + 1];
    if i == 0 {
      UpdateWritesOneSlot(v, dec, texts[0]);
      UnwrittenSlotKept(Update(v, dec, texts[0]), dec, rest, s);
    } else {
      LastWriteWins(Update(v, dec, texts[0]), dec, rest, s, i - 1);
    }
  }

  /** Feeding two batches one after the other is feeding their concatenation. */
  lemma {:induction false} UpdateAllAppend(v: SnapshotView, dec: Decoders, a: seq<string>, b: seq<string>)
    ensures UpdateAll(v, dec, a + b) == UpdateAll(UpdateAll(v, dec, a), dec, b)
    decreases |a|
  {
    if a == [] {
      assert a + b == b;
    } else {
      assert (a + b)[0] == a[0] && (a + b)[1..] == a[1..] + b;
      UpdateAllAppend(Update(v, dec, a[0]), dec, a[1..], b);
    }
  }

  /** The snapshot behind its write lock: the five fields are overwritten in place. */
  class Snapshot {
    var lastTrade: Option<Value>
    var lastLiquidation: Option<Value>
    var markPrice: Option<Value>
    var ticker: Option<Value>
    var lastKline: Option<Value>

    function View(): SnapshotView
      reads this
    {
      SnapshotView(lastTrade, lastLiquidation, markPrice, ticker, lastKline)
    }

    /** An empty snapshot: every slot `None`. */
    constructor ()
      ensures View() == SnapshotView(None, None, None, None, None)
    {
      lastTrade, lastLiquidation, markPrice, ticker, lastKline := None, None, None, None, None;
    }

    /** The body of the read loop for one text frame. */
    method HandleText(dec: Decoders, text: string)
      modifies this
      ensures View() == Update(old(View()), dec, text)
    {
      var wrapper := dec.envelope(text);
      if wrapper.None? {
        return;
      }
      var s := wrapper.value.stream;
      var data := wrapper.value.data;
      if Contains(s, "@aggTrade") {
        if dec.payload(LastTrade, data) { lastTrade := Some(data); }
      } else if Contains(s, "@forceOrder") {
        if dec.payload(LastLiquidation, data) { lastLiquidation := Some(data); }
      } else if Contains(s, "@markPrice") {
        if dec.payload(MarkPrice, data) { markPrice := Some(data); }
      } else if Contains(s, "@bookTicker") {
        if dec.payload(Ticker, data) { ticker := Some(data); }
      } else if Contains(s, "@kline") {
        if dec.payload(LastKline, data) { lastKline := Some(data); }
      }
    }

    /** The read loop of one connection: every text frame is handled, every other item skipped,
        until the stream ends. */
    method ReadAll(dec: Decoders, frames: seq<Frame>)
      modifies this
      ensures View() == UpdateAll(old(View()), dec, Texts(frames))
    {
      var i := 0;
      while i < |frames|
        invariant 0 <= i <= |frames|
        invariant UpdateAll(View(), dec, Texts(frames[i..])) == UpdateAll(old(View()), dec, Texts(frames))
      {
        assert frames[i..][0] == frames[i] && frames[i..][1..] == frames[i + 1..];
        var f := frames[i];
        if f.TextFrame? {
          var later := Texts(frames[i + 1..]);
          assert Texts(frames[i..]) == [f.text] + later;
          assert UpdateAll(View(), dec, [f.text] + later) == UpdateAll(Update(View(), dec, f.text), dec, later) by {
            assert ([f.text] + later)[0] == f.text && ([f.text] + later)[1..] == later;
          }
          HandleText(dec, f.text);
        } else {
          assert Texts(frames[i..]) == Texts(frames[i + 1..]);
        }
        i := i + 1;
      }
    }

    /** `start_ingestion` over a finite script of connection attempts: an unparsable URL panics
        before the first connection; otherwise every attempt connects to the one URL, a refused
        attempt sleeps five seconds and a closed connection reconnects at once. */
    method StartIngestion(dec: Decoders, urlParses: string -> bool, attempts: seq<Attempt>)
      returns (actions: seq<Action>, panicked: bool)
      modifies this
      ensures panicked <==> !urlParses(SnapshotUrl())
      ensures panicked ==> actions == [] && View() == old(View())
      ensures !panicked ==> actions == IngestActions(SnapshotUrl(), attempts) && View() == UpdateAll(old(View()), dec, Fed(attempts))
    {
      var url := SnapshotUrl();
      if !urlParses(url) {
        return [], true;
      }
      actions := ReconnectForever(url, dec, attempts);
      panicked := false;
    }

    /** The outer loop: one pass per attempt. */
    method ReconnectForever(url: string, dec: Decoders, attempts: seq<Attempt>) returns (actions: seq<Action>)
      modifies this
      ensures actions == IngestActions(url, attempts) && View() == UpdateAll(old(View()), dec, Fed(attempts))
    {
      actions := [];
      var i := 0;
      assert attempts[i..] == attempts;
      while i < |attempts|
        invariant 0 <= i <= |attempts|
        invariant actions + IngestActions(url, attempts[i..]) == IngestActions(url, attempts)
        invariant UpdateAll(View(), dec, Fed(attempts[i..])) == UpdateAll(old(View()), dec, Fed(attempts))
      {
        actions := Advance(url, dec, attempts, i, actions);
        i := i + 1;
      }
      assert attempts[i..] == [];
    }

    /** One turn of the reconnect loop, seen against the whole run: the actions so far grow by the
        attempt's block and the attempt's texts leave the pending ones. */
    method Advance(url: string, dec: Decoders, attempts: seq<Attempt>, i: nat, actions: seq<Action>) returns (next: seq<Action>)
      requires i < |attempts|
      requires actions + IngestActions(url, attempts[i..]) == IngestActions(url, attempts)
      modifies this
      ensures next + IngestActions(url, attempts[i + 1..]) == IngestActions(url, attempts)
      ensures UpdateAll(View(), dec, Fed(attempts[i + 1..])) == UpdateAll(old(View()), dec, Fed(attempts[i..]))
    {
      var a := attempts[i];
      ghost var v := View();
      var block := OnePass(url, dec, a);
      next := actions + block;
      assert next + IngestActions(url, attempts[i + 1..]) == IngestActions(url, attempts) by {
        IngestUnfold(url, attempts, i);
        Associative(actions, IngestBlock(url, a), IngestActions(url, attempts[i + 1..]));
      }
      assert UpdateAll(View(), dec, Fed(attempts[i + 1..])) == UpdateAll(v, dec, Fed(attempts[i..])) by {
        IngestUnfold(url, attempts, i);
        UpdateAllAppend(v, dec, FedBy(a), Fed(attempts[i + 1..]));
      }
    }

    /** One pass: connect; read every frame of a connection, or sleep five seconds on an error. */
    method OnePass(url: string, dec: Decoders, a: Attempt) returns (block: seq<Action>)
      modifies this
      ensures block == IngestBlock(url, a) && View() == UpdateAll(old(View()), dec, FedBy(a))
    {
      match a {
        case Connected(frames) =>
          ReadAll(dec, frames);
          block := [Connect(url)] + Dispatches(Texts(frames));
        case Refused =>
          block := [Connect(url), Sleep(5)];
      }
    }
  }

  // ---------------------------------------------------------------------------------------------
  // Reconnecting
  // ---------------------------------------------------------------------------------------------

  /** One pass of the outer loop: connect, then read every frame, or sleep five seconds on a
      connection error. The backoff of the connectors does not exist here. */
  function IngestBlock(url: string, a: Attempt): seq<Action> {
    [Connect(url)] + (if a.Refused? then [Sleep(5)] else Dispatches(Texts(a.frames)))
  }

  function IngestActions(url: string, attempts: seq<Attempt>): seq<Action> {
    if attempts == [] then [] else IngestBlock(url, attempts[0]) + IngestActions(url, attempts[1..])
  }

  /** The texts one attempt hands to the snapshot. */
  function FedBy(a: Attempt): seq<string> {
    if a.Refused? then [] else Texts(a.frames)
  }

  /** The texts a script of attempts hands to the snapshot, in order. */
  function Fed(attempts: seq<Attempt>): seq<string> {
    if attempts == [] then [] else FedBy(attempts[0]) + Fed(attempts[1..])
  }

  /** The run from attempt `i` on is attempt `i`'s block, then the run after it. */
  lemma IngestUnfold(url: string, attempts: seq<Attempt>, i: nat)
    requires i < |attempts|
    ensures IngestActions(url, attempts[i..]) == IngestBlock(url, attempts[i]) + IngestActions(url, attempts[i + 1..])
    ensures Fed(attempts[i..]) == FedBy(attempts[i]) + Fed(attempts[i + 1..])
  {
    assert attempts[i..][0] == attempts[i] && attempts[i..][1..] == attempts[i + 1..];
  }

  lemma IngestBlockIsBlock(url: string, a: Attempt)
    ensures IngestBlock(url, a) == Block(url, a, 5, EveryText)
  {
    if a.Connected? {
      EveryTextDeliversAll(a.frames);
    }
  }

  /** Every attempt connects once to the URL; the ingester sleeps once per refused attempt,
      always for exactly five seconds, and never after a connection that closed. */
  lemma {:induction false} IngestSleepsOnlyOnError(url: string, attempts: seq<Attempt>)
    ensures ConnectCount(IngestActions(url, attempts)) == |attempts|
    ensures SleepCount(IngestActions(url, attempts)) == RefusedCount(attempts)
    ensures forall i :: 0 <= i < |IngestActions(url, attempts)| && IngestActions(url, attempts)[i].Sleep? ==> IngestActions(url, attempts)[i].seconds == 5
    ensures ConnectsTo(IngestActions(url, attempts), url)
  {
    if attempts != [] {
      var a := attempts[0];
      var rest := IngestActions(url, attempts[1..]);
      var blk := IngestBlock(url, a);
      IngestSleepsOnlyOnError(url, attempts[1..]);
      var tail: seq<Action> := if a.Refused? then [Sleep(5)] else Dispatches(Texts(a.frames));
      assert SleepCount(tail) == (if a.Refused? then 1 else 0) && ConnectCount(tail) == 0 by {
        if a.Connected? { DispatchesHaveNoSleep(Texts(a.frames)); } else { assert tail[1..] == []; }
      }
      CountsAppend([Connect(url)], tail);
      CountsAppend(blk, rest);
      assert ConnectsTo(blk, url);
      AppendConnectsTo(blk, rest, url);
      var all := blk + rest;
      forall i | 0 <= i < |all| && all[i].Sleep? ensures all[i].seconds == 5 {
        if i >= |blk| { assert all[i] == rest[i - |blk|]; }
      }
    }
  }

  /** The texts of the dispatch actions, in order. */
  function DispatchedTexts(acts: seq<Action>): seq<string> {
    if acts == [] then [] else (if acts[0].Dispatch? then [acts[0].text] else []) + DispatchedTexts(acts[1..])
  }

  lemma {:induction false} DispatchedTextsAppend(x: seq<Action>, y: seq<Action>)
    ensures DispatchedTexts(x + y) == DispatchedTexts(x) + DispatchedTexts(y)
  {
    if x == [] {
      assert x + y == y;
    } else {
      assert (x + y)[0] == x[0] && (x + y)[1..] == x[1..] + y;
      DispatchedTextsAppend(x[1..], y);
      Associative(if x[0].Dispatch? then [x[0].text] else [], DispatchedTexts(x[1..]), DispatchedTexts(y));
    }
  }

  lemma {:induction false} DispatchedTextsOfDispatches(texts: seq<string>)
    ensures DispatchedTexts(Dispatches(texts)) == texts
  {
    if texts != [] {
      DispatchedTextsOfDispatches(texts[1..]);
    }
  }

  /** The texts the ingester hands to the snapshot are exactly the texts of all its connections,
      in arrival order: nothing is dropped between frames and nothing is read while refused. */
  lemma {:induction false} IngestDispatchesAllTexts(url: string, attempts: seq<Attempt>)
    ensures DispatchedTexts(IngestActions(url, attempts)) == Fed(attempts)
  {
    if attempts != [] {
      var a := attempts[0];
      IngestDispatchesAllTexts(url, attempts[1..]);
      var tail: seq<Action> := if a.Refused? then [Sleep(5)] else Dispatches(Texts(a.frames));
      assert DispatchedTexts(tail) == FedBy(a) by {
        if a.Connected? { DispatchedTextsOfDispatches(Texts(a.frames)); }
      }
      assert DispatchedTexts(IngestBlock(url, a)) == FedBy(a) by {
        DispatchedTextsAppend([Connect(url)], tail);
      }
      DispatchedTextsAppend(IngestBlock(url, a), IngestActions(url, attempts[1..]));
    }
  }
}
