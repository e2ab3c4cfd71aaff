/** The REST history client (ingestion_engine/src/connectors/binance/binance_rest.rs): the klines
    URL of a market, the outcome of the HTTP exchange, and the parser that turns Binance's array
    of arrays into closed candles. The HTTP client is replaced by a function from URL to response;
    the error strings become the variants of `RestError`. */
module RestHistory {
  import opened Wrappers
  import opened Numbers
  import opened Text
  import opened Json
  import opened Models

  datatype RestError =
    | UnsupportedMarket(market: MarketType)
    | RequestFailed
    | ApiError(status: nat)
    | JsonParseError
    | NotAnArray
    | InvalidCandle

  /** The REST host of a market; the markets without one are an error. */
  function BaseUrl(market: MarketType): (r: Result<string, RestError>)
    ensures r.Err? <==> market.OtherMarket?
  {
    match market
    case Spot => Ok("https://api.binance.com")
    case LinearFuture => Ok("https://fapi.binance.com")
    case InverseFuture => Ok("https://dapi.binance.com")
    case OtherMarket => Err(UnsupportedMarket(market))
  }

  /** The klines path of a market; the catch-all arm is never reached, since `BaseUrl` has
      already returned for every other market. */
  function Endpoint(market: MarketType): string {
    match market
    case Spot => "/api/v3/klines"
    case LinearFuture => "/fapi/v1/klines"
    case InverseFuture => "/dapi/v1/klines"
    case OtherMarket => "/api/v3/klines"
  }

  /** `format!("{}{}?symbol={}&interval={}&limit={}", ..)` with the upper-cased symbol. */
  function HistoryUrl(symbol: string, market: MarketType, interval: string, limit: nat): Result<string, RestError> {
    match BaseUrl(market)
    case Err(e) => Err(e)
    case Ok(base) => Ok(base + Endpoint(market) + "?symbol=" + Upper(symbol) + "&interval=" + interval + "&limit=" + NatToString(limit))
  }

  /** Only the unsupported market fails, and the query names the symbol in upper case, so the
      URL does not depend on the case the caller used. */
  lemma HistoryUrlOutcome(symbol: string, market: MarketType, interval: string, limit: nat)
    ensures HistoryUrl(symbol, market, interval, limit).Err? <==> market.OtherMarket?
    ensures HistoryUrl(Upper(symbol), market, interval, limit) == HistoryUrl(symbol, market, interval, limit)
  {
    UpperIdempotent(symbol);
  }

  /** For a supported market the URL starts with the market's host, its klines path and the
      symbol parameter. */
  lemma HistoryUrlStartsWithEndpoint(symbol: string, market: MarketType, interval: string, limit: nat)
    requires !market.OtherMarket?
    ensures BaseUrl(market).value + Endpoint(market) + "?symbol=" <= HistoryUrl(symbol, market, interval, limit).value
  {
    var u := HistoryUrl(symbol, market, interval, limit).value;
    var head := BaseUrl(market).value + Endpoint(market) + "?symbol=";
    assert u == head + (Upper(symbol) + "&interval=" + interval + "&limit=" + NatToString(limit));
  }

  // ---------------------------------------------------------------------------------------------
  // Parsing the response
  // ---------------------------------------------------------------------------------------------

  /** `get_f64`: a price or volume is read only from a JSON string, parsed, or 0.0. */
  function GetF64(num: FloatParser, arr: seq<Value>, idx: nat): real {
    if idx < |arr| && arr[idx].Str? then ParseOrZero(num, arr[idx].s) else 0.0
  }

  /** `get_u64`: a time is read only from a non-negative JSON integer, or 0. */
  function GetU64(arr: seq<Value>, idx: nat): U64 {
    if idx < |arr| then AsU64(arr[idx]).GetOr(0) else 0
  }

  /** The candle of one well-formed entry `[open time, open, high, low, close, volume, close
      time, ..]`; historical candles are always closed. */
  function CandleOf(num: FloatParser, symbol: string, interval: string, arr: seq<Value>): Candle {
    Candle(symbol, interval, GetF64(num, arr, 1), GetF64(num, arr, 2), GetF64(num, arr, 3), GetF64(num, arr, 4),
           GetF64(num, arr, 5), GetU64(arr, 0), GetU64(arr, 6), true)
  }

  /** The entries from the first on: an entry that is not an array fails the whole parse, one
      with fewer than seven fields is skipped, and every other one gives a candle. */
  function ParseEntries(num: FloatParser, symbol: string, interval: string, items: seq<Value>): Result<seq<Candle>, RestError> {
    if items == [] then Ok([])
    else if !items[0].Array? then Err(InvalidCandle)
    else
      match ParseEntries(num, symbol, interval, items[1..])
      case Err(e) => Err(e)
      case Ok(rest) =>
        if |items[0].items| < 7 then Ok(rest) else Ok([CandleOf(num, symbol, interval, items[0].items)] + rest)
  }

  function ParseKlines(num: FloatParser, symbol: string, interval: string, json: Value): Result<seq<Candle>, RestError> {
    match AsArray(json)
    case None => Err(NotAnArray)
    case Some(items) => ParseEntries(num, symbol, interval, items)
  }

  /** `candles` followed by the result of the rest of the parse. */
  function Prefixed(candles: seq<Candle>, r: Result<seq<Candle>, RestError>): Result<seq<Candle>, RestError> {
    match r
    case Err(e) => Err(e)
    case Ok(rest) => Ok(candles + rest)
  }

  /** `parse_kline_array`: the loop over the entries, pushing one candle per well-formed entry and
      returning at the first entry that is not an array. */
  method ParseKlineArray(num: FloatParser, symbol: string, interval: string, json: Value) returns (r: Result<seq<Candle>, RestError>)
    ensures r == ParseKlines(num, symbol, interval, json)
  {
    if !json.Array? {
      return Err(NotAnArray);
    }
    var items := json.items;
    var candles: seq<Candle> := [];
    var i := 0;
    assert Prefixed(candles, ParseEntries(num, symbol, interval, items[i..])) == ParseEntries(num, symbol, interval, items) by {
      assert items[i..] == items;
      var r := ParseEntries(num, symbol, interval, items);
      if r.Ok? { assert candles + r.value == r.value; }
    }
    while i < |items|
      invariant 0 <= i <= |items|
      invariant Prefixed(candles, ParseEntries(num, symbol, interval, items[i..])) == ParseEntries(num, symbol, interval, items)
    {
      assert items[i..][0] == items[i] && items[i..][1..] == items[i + 1..];
      var item := items[i];
      if !item.Array? {
        return Err(InvalidCandle);
      }
      var arr := item.items;
      if |arr| >= 7 {
        var c := CandleOf(num, symbol, interval, arr);
        assert candles + ([c] + []) == candles + [c];
        PrefixedStep(candles, c, ParseEntries(num, symbol, interval, items[i + 1..]));
        candles := candles + [c];
      }
      i := i + 1;
    }
    assert items[i..] == [];
    assert candles + [] == candles;
    r := Ok(candles);
  }

  lemma PrefixedStep(candles: seq<Candle>, c: Candle, r: Result<seq<Candle>, RestError>)
    ensures Prefixed(candles, Prefixed([c], r)) == Prefixed(candles + [c], r)
  {
    if r.Ok? {
      assert candles + ([c] + r.value) == candles + [c] + r.value;
    }
  }

  /** Whether an entry is well formed: an array of at least seven fields. */
  predicate Kept(v: Value) {
    v.Array? && |v.items| >= 7
  }

  /** The parse fails exactly when some entry is not an array. */
  lemma {:induction false} ParseEntriesFails(num: FloatParser, symbol: string, interval: string, items: seq<Value>)
    ensures ParseEntries(num, symbol, interval, items).Err? <==> exists j :: 0 <= j < |items| && !items[j].Array?
  {
    if items != [] {
      ParseEntriesFails(num, symbol, interval, items[1..]);
      assert forall j :: 0 <= j < |items[1..]| ==> items[1..][j] == items[j + 1];
      if (exists j :: 0 <= j < |items| && !items[j].Array?) && items[0].Array? {
        var j :| 0 <= j < |items| && !items[j].Array?;
        assert !items[1..][j - 1].Array?;
      }
    }
  }

  /** `idx` lists, in increasing order, exactly the positions of the well-formed entries. */
  predicate PicksKept(items: seq<Value>, idx: seq<nat>) {
    && |idx| <= |items|
    && (forall k :: 0 <= k < |idx| ==> idx[k] < |items| && Kept(items[idx[k]]))
    && (forall k, l :: 0 <= k < l < |idx| ==> idx[k] < idx[l])
    && (forall j :: 0 <= j < |items| && Kept(items[j]) ==> j in idx)
  }

  /** The candles are those of the entries at `idx`, in that order. */
  predicate CandlesAt(num: FloatParser, symbol: string, interval: string, items: seq<Value>, idx: seq<nat>, cs: seq<Candle>) {
    |cs| == |idx| && forall k :: 0 <= k < |idx| ==> idx[k] < |items| && items[idx[k]].Array? && cs[k] == CandleOf(num, symbol, interval, items[idx[k]].items)
  }

  /** When it succeeds, the candles are those of the well-formed entries, one each, in input
      order: `idx` gives each candle's entry. */
  lemma {:induction false} ParseEntriesCandles(num: FloatParser, symbol: string, interval: string, items: seq<Value>)
    returns (idx: seq<nat>)
    requires ParseEntries(num, symbol, interval, items).Ok?
    ensures PicksKept(items, idx)
    ensures CandlesAt(num, symbol, interval, items, idx, ParseEntries(num, symbol, interval, items).value)
  {
    if items == [] {
      return [];
    }
    var rest := items[1..];
    var tailIdx := ParseEntriesCandles(num, symbol, interval, rest);
    var tail := ParseEntries(num, symbol, interval, rest).value;
    var shifted := seq(|tailIdx|, k requires 0 <= k < |tailIdx| => tailIdx[k] + 1);
    ShiftPicks(items, tailIdx, shifted);
    ShiftCandles(num, symbol, interval, items, tailIdx, shifted, tail);
    if |items[0].items| < 7 {
      idx := shifted;
      DropPicks(items, shifted);
    } else {
      idx := [0] + shifted;
      var c := CandleOf(num, symbol, interval, items[0].items);
      assert ParseEntries(num, symbol, interval, items).value == [c] + tail;
      ConsPicks(items, shifted);
      ConsCandles(num, symbol, interval, items, shifted, tail);
    }
  }

  lemma ShiftPicks(items: seq<Value>, tailIdx: seq<nat>, shifted: seq<nat>)
    requires |items| >= 1 && PicksKept(items[1..], tailIdx)
    requires |shifted| == |tailIdx| && forall k :: 0 <= k < |tailIdx| ==> shifted[k] == tailIdx[k] + 1
    ensures |shifted| < |items|
    ensures forall k :: 0 <= k < |shifted| ==> 1 <= shifted[k] < |items| && Kept(items[shifted[k]])
    ensures forall k, l :: 0 <= k < l < |shifted| ==> shifted[k] < shifted[l]
    ensures forall j :: 1 <= j < |items| && Kept(items[j]) ==> j in shifted
  {
    var rest := items[1..];
    forall k | 0 <= k < |shifted| ensures 1 <= shifted[k] < |items| && Kept(items[shifted[k]]) {
      assert items[shifted[k]] == rest[tailIdx[k]];
    }
    ShiftPicksCover(items, tailIdx, shifted);
  }

  lemma ShiftPicksCover(items: seq<Value>, tailIdx: seq<nat>, shifted: seq<nat>)
    requires |items| >= 1 && PicksKept(items[1..], tailIdx)
    requires |shifted| == |tailIdx| && forall k :: 0 <= k < |tailIdx| ==> shifted[k] == tailIdx[k] + 1
    ensures forall j :: 1 <= j < |items| && Kept(items[j]) ==> j in shifted
  {
    var rest := items[1..];
    forall j | 1 <= j < |items| && Kept(items[j]) ensures j in shifted {
      assert rest[j - 1] == items[j];
      var k :| 0 <= k < |tailIdx| && tailIdx[k] == j - 1;
      assert shifted[k] == j;
    }
  }

  /** Without the first entry kept, the shifted positions are all the kept ones. */
  lemma DropPicks(items: seq<Value>, shifted: seq<nat>)
    requires |items| >= 1 && !Kept(items[0]) && |shifted| < |items|
    requires forall k :: 0 <= k < |shifted| ==> 1 <= shifted[k] < |items| && Kept(items[shifted[k]])
    requires forall k, l :: 0 <= k < l < |shifted| ==> shifted[k] < shifted[l]
    requires forall j :: 1 <= j < |items| && Kept(items[j]) ==> j in shifted
    ensures PicksKept(items, shifted)
  {
  }

  lemma ShiftCandles(num: FloatParser, symbol: string, interval: string, items: seq<Value>, tailIdx: seq<nat>, shifted: seq<nat>, tail: seq<Candle>)
    requires |items| >= 1 && CandlesAt(num, symbol, interval, items[1..], tailIdx, tail)
    requires |shifted| == |tailIdx| && forall k :: 0 <= k < |tailIdx| ==> shifted[k] == tailIdx[k] + 1
    ensures CandlesAt(num, symbol, interval, items, shifted, tail)
  {
    forall k | 0 <= k < |shifted| ensures shifted[k] < |items| && items[shifted[k]].Array? && tail[k] == CandleOf(num, symbol, interval, items[shifted[k]].items) {
      assert items[shifted[k]] == items[1..][tailIdx[k]];
    }
  }

  lemma ConsPicks(items: seq<Value>, shifted: seq<nat>)
    requires |items| >= 1 && Kept(items[0]) && |shifted| < |items|
    requires forall k :: 0 <= k < |shifted| ==> 1 <= shifted[k] < |items| && Kept(items[shifted[k]])
    requires forall k, l :: 0 <= k < l < |shifted| ==> shifted[k] < shifted[l]
    requires forall j :: 1 <= j < |items| && Kept(items[j]) ==> j in shifted
    ensures PicksKept(items, [0] + shifted)
  {
    var idx := [0] + shifted;
    forall k | 1 <= k < |idx| ensures idx[k] == shifted[k - 1] { }
    forall j | 0 <= j < |items| && Kept(items[j]) ensures j in idx {
      if j >= 1 {
        var k :| 0 <= k < |shifted| && shifted[k] == j;
        assert idx[k + 1] == j;
      }
    }
  }

  lemma ConsCandles(num: FloatParser, symbol: string, interval: string, items: seq<Value>, shifted: seq<nat>, tail: seq<Candle>)
    requires |items| >= 1 && items[0].Array? && CandlesAt(num, symbol, interval, items, shifted, tail)
    ensures CandlesAt(num, symbol, interval, items, [0] + shifted, [CandleOf(num, symbol, interval, items[0].items)] + tail)
  {
    var idx, cs := [0] + shifted, [CandleOf(num, symbol, interval, items[0].items)] + tail;
    forall k | 1 <= k < |idx| ensures idx[k] == shifted[k - 1] && cs[k] == tail[k - 1] { }
  }

  /** Every candle of a successful parse is closed and carries the requested symbol and
      interval. */
  lemma {:induction false} ParsedCandlesLabelled(num: FloatParser, symbol: string, interval: string, items: seq<Value>)
    requires ParseEntries(num, symbol, interval, items).Ok?
    ensures forall c :: c in ParseEntries(num, symbol, interval, items).value ==> c.isClosed && c.symbol == symbol && c.interval == interval
  {
    if items != [] {
      ParsedCandlesLabelled(num, symbol, interval, items[1..]);
    }
  }

  /** What the REST exchange returned: the request failed, or a status and, for a body, its JSON
      value or nothing when it did not parse. */
  datatype Response = SendFailed | Replied(status: nat, body: Option<Value>)

  /** `StatusCode::is_success`: a 2xx status. */
  predicate IsSuccess(status: nat) {
    200 <= status <= 299
  }

  /** `fetch_binance_history`: URL for the market, one GET, then the status check, the JSON body
      and the parse. */
  function FetchHistory(num: FloatParser, symbol: string, market: MarketType, interval: string, limit: nat,
                        http: string -> Response): Result<seq<Candle>, RestError> {
    match HistoryUrl(symbol, market, interval, limit)
    case Err(e) => Err(e)
    case Ok(url) =>
      match http(url)
      case SendFailed => Err(RequestFailed)
      case Replied(status, body) =>
        if !IsSuccess(status) then Err(ApiError(status))
        else if body.None? then Err(JsonParseError)
        else ParseKlines(num, symbol, interval, body.value)
  }

  /** No request for an unsupported market; a failed request, a non-2xx status or an unreadable
      body is an error; a 2xx reply is parsed with the caller's symbol and interval. */
  lemma FetchHistoryOutcome(num: FloatParser, symbol: string, market: MarketType, interval: string, limit: nat, http: string -> Response)
    ensures market.OtherMarket? ==> FetchHistory(num, symbol, market, interval, limit, http) == Err(UnsupportedMarket(market))
    ensures !market.OtherMarket? ==>
      var resp := http(HistoryUrl(symbol, market, interval, limit).value);
      var r := FetchHistory(num, symbol, market, interval, limit, http);
      && (resp.SendFailed? ==> r == Err(RequestFailed))
      && (resp.Replied? && !IsSuccess(resp.status) ==> r == Err(ApiError(resp.status)))
      && (resp.Replied? && IsSuccess(resp.status) && resp.body.Some? ==> r == ParseKlines(num, symbol, interval, resp.body.value))
      && (r.Ok? ==> resp.Replied? && IsSuccess(resp.status))
  {
  }
}
