/** The start-up and interactive side of ingestion_engine/src/main.rs: the connectors started for
    the default symbols, the parser of a typed `EXCHANGE:MARKET:SYMBOL` line, and the rule that a
    connector is started only for an id the engine has not yet seen. Loading the settings, the
    server task, reading standard input and what `spawn_connector` does are not part of this model;
    the lines read are a sequence, and the `Display` forms of the exchange and market, which build
    the id, are parameters. */
module Cli {
  import opened Wrappers
  import opened Text
  import opened Models
  import CoreEngine

  /** What a line asks for. */
  datatype Target = Target(exchange: Exchange, market: MarketType, symbol: string)

  /** The `Display` forms of the exchange and the market type. */
  datatype Naming = Naming(exchange: Exchange -> string, market: MarketType -> string)

  /** The first part of a three-part line: BYBIT is Bybit, everything else (BINANCE included) is
      Binance. */
  function ExchangeOf(part: string): (e: Exchange)
    ensures e == Bybit <==> part == "BYBIT"
  {
    if part == "BINANCE" then Binance
    else if part == "BYBIT" then Bybit
    else Binance
  }

  /** The second part: FUTURE and LINEAR are the linear futures market, SPOT and everything else
      the spot market; no line selects the inverse futures market. */
  function MarketOf(part: string): (m: MarketType)
    ensures m == LinearFuture <==> part == "FUTURE" || part == "LINEAR"
    ensures m != LinearFuture ==> m == Spot
  {
    if part == "SPOT" then Spot
    else if part == "FUTURE" || part == "LINEAR" then LinearFuture
    else Spot
  }

  /** The parse of a trimmed, upper-cased line: nothing for an empty one, the three parts when
      there are exactly three, and otherwise the whole line as a Binance spot symbol. */
  function ParseInput(input: string): Option<Target> {
    if input == [] then None
    else
      var parts := Split(input, ':');
      if |parts| == 3 then Some(Target(ExchangeOf(parts[0]), MarketOf(parts[1]), parts[2]))
      else Some(Target(Binance, Spot, input))
  }

  /** A line as typed. */
  function ParseLine(line: string): Option<Target> {
    ParseInput(Upper(Trim(line)))
  }

  /** A line is ignored exactly when it is blank; otherwise the symbol is the upper-cased trimmed
      line itself or its third part, which then holds no ':'. */
  lemma ParseLineOutcome(line: string)
    ensures ParseLine(line).None? <==> Trim(line) == []
    ensures ParseLine(line).Some? ==>
      var input := Upper(Trim(line));
      var t := ParseLine(line).value;
      || (t == Target(Binance, Spot, input) && |Split(input, ':')| != 3)
      || (|Split(input, ':')| == 3 && t.symbol == Split(input, ':')[2] && ':' !in t.symbol)
  {
  }

  /** A line of three colon-free parts names the exchange, market and symbol it spells. */
  lemma ParseThreeParts(exchange: string, market: string, symbol: string)
    requires ':' !in exchange && ':' !in market && ':' !in symbol
    requires exchange + ":" + market + ":" + symbol != []
    ensures ParseInput(exchange + ":" + market + ":" + symbol) == Some(Target(ExchangeOf(exchange), MarketOf(market), symbol))
  {
    var parts := [exchange, market, symbol];
    assert Join(parts[2..], [':']) == symbol;
    assert Join(parts[1..], [':']) == market + [':'] + symbol;
    assert Join(parts, [':']) == exchange + ":" + market + ":" + symbol;
    SplitJoin(parts, ':');
  }

  /** A line with no ':' is a Binance spot symbol. */
  lemma ParseBareSymbol(input: string)
    requires input != [] && ':' !in input
    ensures ParseInput(input) == Some(Target(Binance, Spot, input))
  {
    assert Split(input, ':') == [input];
  }

  /** `format!("{}_{}_{}", exchange, market, symbol)`. */
  function UniqueId(names: Naming, t: Target): string {
    names.exchange(t.exchange) + "_" + names.market(t.market) + "_" + t.symbol
  }

  function IdWith(names: Naming): Target -> string {
    t => UniqueId(names, t)
  }

  /** `format!("BINANCE_SPOT_{}", symbol).to_uppercase()` */
  function DefaultId(symbol: string): string {
    Upper("BINANCE_SPOT_" + symbol)
  }

  /** Two default symbols that differ only in letter case get the same id, and so share one
      connector. */
  lemma DefaultIdIgnoresCase(a: string, b: string)
    requires Upper(a) == Upper(b)
    ensures DefaultId(a) == DefaultId(b)
  {
    UpperAppend("BINANCE_SPOT_", a);
    UpperAppend("BINANCE_SPOT_", b);
  }

  /** The items whose id had not been requested before, in order: those a request-once gate lets
      through. */
  function Admitted<T(==)>(active: set<string>, xs: seq<T>, id: T -> string): seq<T> {
    if xs == [] then []
    else
      var prior := xs[..|xs| - 1];
      var x := xs[|xs| - 1];
      Admitted(active, prior, id) + if id(x) !in active && id(x) !in IdsOf(prior, id) then [x] else []
  }

  /** The ids a request-once gate refuses, in order: those requested before, or earlier in the run. */
  function Refused<T(==)>(active: set<string>, xs: seq<T>, id: T -> string): seq<string> {
    if xs == [] then []
    else
      var prior := xs[..|xs| - 1];
      var x := xs[|xs| - 1];
      Refused(active, prior, id) + if id(x) !in active && id(x) !in IdsOf(prior, id) then [] else [id(x)]
  }

  /** Each request is either admitted or refused, never both. */
  lemma {:induction false} GateSplitsRequests<T>(active: set<string>, xs: seq<T>, id: T -> string)
    ensures |Admitted(active, xs, id)| + |Refused(active, xs, id)| == |xs|
  {
    if xs != [] {
      GateSplitsRequests(active, xs[..|xs| - 1], id);
    }
  }

  function IdsOf<T(==)>(xs: seq<T>, id: T -> string): set<string> {
    set x | x in xs :: id(x)
  }

  /** Every id requested gets exactly one connector over the whole run: the admitted items come
      from the requests, their ids were not active before and are pairwise distinct, and every
      requested id was either active before or is the id of an admitted item. */
  lemma {:induction false} AdmittedOnce<T>(active: set<string>, xs: seq<T>, id: T -> string)
    ensures var a := Admitted(active, xs, id);
      && (forall x :: x in a ==> x in xs && id(x) !in active)
      && (forall i, j :: 0 <= i < j < |a| ==> id(a[i]) != id(a[j]))
      && (forall k :: 0 <= k < |xs| ==> id(xs[k]) in active || id(xs[k]) in IdsOf(a, id))
  {
    if xs != [] {
      var prior := xs[..|xs| - 1];
      var x := xs[|xs| - 1];
      AdmittedOnce(active, prior, id);
      var a0 := Admitted(active, prior, id);
      var a := Admitted(active, xs, id);
      assert forall y :: y in a0 ==> id(y) in IdsOf(prior, id);
      forall k | 0 <= k < |xs| ensures id(xs[k]) in active || id(xs[k]) in IdsOf(a, id) {
        if k < |xs| - 1 {
          assert xs[k] == prior[k];
        } else if id(x) in IdsOf(prior, id) {
          var y :| y in prior && id(y) == id(x);
          var k' :| 0 <= k' < |prior| && prior[k'] == y;
        }
      }
    }
  }

  /** The request-once gate over a sequence of requests: `request_ingestion` for each id, in order,
      keeping the items it admits and the ids it refuses. */
  method Gate<T(==)>(engine: CoreEngine.Engine, xs: seq<T>, id: T -> string) returns (admitted: seq<T>, refused: seq<string>)
    modifies engine`activeIngestions
    ensures admitted == Admitted(old(engine.activeIngestions), xs, id)
    ensures engine.activeIngestions == old(engine.activeIngestions) + IdsOf(xs, id)
    ensures refused == Refused(old(engine.activeIngestions), xs, id)
  {
    admitted, refused := [], [];
    ghost var active := engine.activeIngestions;
    for i := 0 to |xs|
      invariant admitted == Admitted(active, xs[..i], id)
      invariant engine.activeIngestions == active + IdsOf(xs[..i], id)
      invariant refused == Refused(active, xs[..i], id)
    {
      var x := xs[i];
      assert xs[..i + 1][..i] == xs[..i] && xs[..i + 1][i] == x;
      assert IdsOf(xs[..i + 1], id) == IdsOf(xs[..i], id) + {id(x)};
      var isNew := engine.RequestIngestion(id(x));
      if isNew {
        admitted := admitted + [x];
      } else {
        refused := refused + [id(x)];
      }
    }
    assert xs[..|xs|] == xs;
  }

  /** The values `f` finds in the lines, in order. */
  function Found<T>(lines: seq<string>, f: string -> Option<T>): (r: seq<T>)
    ensures |r| <= |lines|
  {
    if lines == [] then []
    else
      var t := f(lines[|lines| - 1]);
      Found(lines[..|lines| - 1], f) + if t.Some? then [t.value] else []
  }

  /** `idx` lists, increasing, exactly the lines in which `f` finds something, and the k-th value
      found is what `f` finds in the k-th of them. */
  lemma {:induction false} FoundFollowsLines<T>(lines: seq<string>, f: string -> Option<T>) returns (idx: seq<nat>)
    ensures |idx| == |Found(lines, f)|
    ensures forall k :: 0 <= k < |idx| ==>
      idx[k] < |lines| && f(lines[idx[k]]).Some? && Found(lines, f)[k] == f(lines[idx[k]]).value
    ensures forall k, l :: 0 <= k < l < |idx| ==> idx[k] < idx[l]
    ensures forall i :: 0 <= i < |lines| && f(lines[i]).Some? ==> i in idx
  {
    if lines == [] {
      idx := [];
    } else {
      var n := |lines| - 1;
      var prior := lines[..n];
      var before := FoundFollowsLines(prior, f);
      var t := f(lines[n]);
      var tail := if t.Some? then [t.value] else [];
      var found := Found(prior, f);
      assert Found(lines, f) == found + tail;
      idx := before + if t.Some? then [n] else [];
      forall k | 0 <= k < |idx|
        ensures idx[k] < |lines| && f(lines[idx[k]]).Some? && Found(lines, f)[k] == f(lines[idx[k]]).value
      {
        if k < |before| {
          assert idx[k] == before[k] && prior[before[k]] == lines[before[k]];
          assert Found(lines, f)[k] == found[k];
        } else {
          assert idx[k] == n && Found(lines, f)[k] == t.value;
        }
      }
      forall i | 0 <= i < |lines| && f(lines[i]).Some? ensures i in idx {
        if i < n {
          assert prior[i] == lines[i];
          assert i in before;
        }
      }
    }
  }

  /** The targets of the non-blank lines, in order. */
  function Requests(lines: seq<string>): seq<Target> {
    Found(lines, ParseLine)
  }

  /** The requests come from the non-blank lines, one each, in order: `idx` lists the lines that
      parse, increasing, and the k-th request is the parse of the k-th of them. */
  lemma RequestsFollowLines(lines: seq<string>) returns (idx: seq<nat>)
    ensures |idx| == |Requests(lines)|
    ensures forall k :: 0 <= k < |idx| ==>
      idx[k] < |lines| && ParseLine(lines[idx[k]]).Some? && Requests(lines)[k] == ParseLine(lines[idx[k]]).value
    ensures forall k, l :: 0 <= k < l < |idx| ==> idx[k] < idx[l]
    ensures forall i :: 0 <= i < |lines| && Trim(lines[i]) != [] ==> i in idx
  {
    idx := FoundFollowsLines(lines, ParseLine);
    forall i | 0 <= i < |lines| && Trim(lines[i]) != [] ensures i in idx {
      ParseLineOutcome(lines[i]);
    }
  }

  /** Start-up: one Binance spot connector per default symbol whose id was not yet requested,
      with the default stream settings. */
  method SpawnDefaults(engine: CoreEngine.Engine, defaults: seq<string>) returns (spawned: seq<Target>)
    modifies engine`activeIngestions
    ensures engine.activeIngestions == old(engine.activeIngestions) + IdsOf(defaults, DefaultId)
    ensures |spawned| == |Admitted(old(engine.activeIngestions), defaults, DefaultId)|
    ensures forall k :: 0 <= k < |spawned| ==>
      spawned[k] == Target(Binance, Spot, Admitted(old(engine.activeIngestions), defaults, DefaultId)[k])
  {
    var symbols, _ := Gate(engine, defaults, DefaultId);
    spawned := [];
    for i := 0 to |symbols|
      invariant |spawned| == i
      invariant forall k :: 0 <= k < i ==> spawned[k] == Target(Binance, Spot, symbols[k])
    {
      spawned := spawned + [Target(Binance, Spot, symbols[i])];
    }
  }

  /** The interactive loop over the lines typed: blank lines are skipped; each other line starts a
      connector when its id is new and is reported as already active otherwise. */
  method ReadLines(engine: CoreEngine.Engine, names: Naming, lines: seq<string>) returns (spawned: seq<Target>, refused: seq<string>)
    modifies engine`activeIngestions
    ensures spawned == Admitted(old(engine.activeIngestions), Requests(lines), IdWith(names))
    ensures refused == Refused(old(engine.activeIngestions), Requests(lines), IdWith(names))
    ensures engine.activeIngestions == old(engine.activeIngestions) + IdsOf(Requests(lines), IdWith(names))
  {
    var requests: seq<Target> := [];
    for i := 0 to |lines|
      invariant requests == Requests(lines[..i])
    {
      assert lines[..i + 1][..i] == lines[..i];
      var t := ParseLine(lines[i]);
      if t.Some? {
        requests := requests + [t.value];
      }
    }
    assert lines[..|lines|] == lines;
    spawned, refused := Gate(engine, requests, IdWith(names));
  }
}
