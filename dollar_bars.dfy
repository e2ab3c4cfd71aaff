/** The dollar-bar aggregator of `quant_core`: a left fold over ticks that accumulates dollar value
    (price times quantity) and closes a bar as soon as the running value reaches the threshold.
    The carried state lets a long tick history be processed chunk by chunk (one day at a time).
    Prices and quantities are `real`; the infinite high/low sentinels are an explicit `Bound`. */
module DollarBars {
  import opened Wrappers

  /** A float that may be one of the two infinities the aggregator uses as "no high/low yet". */
  datatype Bound = NegInf | PosInf | Fin(v: real)

  /** `p > b` on an extended float. */
  predicate Above(p: real, b: Bound) {
    match b
    case NegInf => true
    case PosInf => false
    case Fin(v) => p > v
  }

  /** `p < b` on an extended float. */
  predicate Below(p: real, b: Bound) {
    match b
    case NegInf => false
    case PosInf => true
    case Fin(v) => p < v
  }

  datatype Tick = Tick(ts: int, price: real, qty: real)

  /** The carried state `[cum_dollar, cum_vol, cur_high, cur_low, bar_open]`. */
  datatype State = State(dollar: real, vol: real, high: Bound, low: Bound, open: real)

  /** The state a fresh series starts from: nothing accumulated, sentinels in high and low. */
  const Fresh := State(0.0, 0.0, NegInf, PosInf, 0.0)

  datatype Bar = Bar(ts: int, open: real, high: Bound, low: Bound, close: real, vol: real, dollar: real)

  datatype Output = Output(bars: seq<Bar>, final: State)

  datatype Stepped = Stepped(next: State, bar: Option<Bar>)

  /** The first half of a tick: a bar in progress with nothing accumulated is re-seeded from the
      tick's price (open, high and low); otherwise high and low are widened to the price. Volume
      and dollar value accumulate. */
  function Absorb(st: State, price: real, qty: real): State {
    var reseed := st.dollar == 0.0;
    State(st.dollar + price * qty, st.vol + qty,
          if reseed || Above(price, st.high) then Fin(price) else st.high,
          if reseed || Below(price, st.low) then Fin(price) else st.low,
          if reseed then price else st.open)
  }

  /** The loop body's first half, shared word for word by the Rust and the Numba kernels. */
  method AbsorbTick(curDollar: real, curVol: real, curHigh: Bound, curLow: Bound, barOpen: real, p: real, q: real)
    returns (dollar: real, vol: real, high: Bound, low: Bound, open: real)
    ensures State(dollar, vol, high, low, open) == Absorb(State(curDollar, curVol, curHigh, curLow, barOpen), p, q)
  {
    dollar, vol, high, low, open := curDollar, curVol, curHigh, curLow, barOpen;
    var val := p * q;
    if dollar == 0.0 {
      open := p;
      high := Fin(p);
      low := Fin(p);
    } else {
      if Above(p, high) { high := Fin(p); }
      if Below(p, low) { low := Fin(p); }
    }
    vol := vol + q;
    dollar := dollar + val;
  }

  /** One tick: absorb it, and when the dollar value reaches the threshold emit the bar and reset
      the accumulators and sentinels. */
  function StepTick(st: State, t: Tick, threshold: real): Stepped {
    var a := Absorb(st, t.price, t.qty);
    if a.dollar >= threshold then
      Stepped(State(0.0, 0.0, NegInf, PosInf, a.open), Some(Bar(t.ts, a.open, a.high, a.low, t.price, a.vol, a.dollar)))
    else
      Stepped(a, None)
  }

  /** What one tick does: an emitted bar has reached the threshold and takes its timestamp and
      close from this tick; emitting resets the accumulators and the sentinels but keeps the open
      (so the returned state carries the last bar's open); a tick that emits nothing leaves the
      carried value below the threshold; the tick's dollar value and volume end up either in the
      bar or in the carried state; and a state with nothing accumulated is re-seeded from the
      tick's price. */
  lemma StepTickSpec(st: State, t: Tick, threshold: real)
    ensures var r := StepTick(st, t, threshold);
      && (r.bar.Some? ==>
            && r.bar.value.dollar >= threshold
            && r.bar.value.ts == t.ts && r.bar.value.close == t.price
            && r.next == State(0.0, 0.0, NegInf, PosInf, r.bar.value.open))
      && (r.bar.None? ==> r.next.dollar < threshold)
      && st.dollar + t.price * t.qty == (if r.bar.Some? then r.bar.value.dollar else 0.0) + r.next.dollar
      && st.vol + t.qty == (if r.bar.Some? then r.bar.value.vol else 0.0) + r.next.vol
      && (st.dollar == 0.0 && r.bar.Some? ==>
            r.bar.value.open == t.price && r.bar.value.high == Fin(t.price) && r.bar.value.low == Fin(t.price))
      && (st.dollar == 0.0 && r.bar.None? ==>
            r.next.open == t.price && r.next.high == Fin(t.price) && r.next.low == Fin(t.price))
  {
  }

  function Emitted(s: Stepped): seq<Bar> {
    if s.bar.Some? then [s.bar.value] else []
  }

  /** `process_dollar_bar_chunk` as a left fold: the bars emitted, in tick order, and the final
      state. */
  function Run(st: State, ticks: seq<Tick>, threshold: real): Output {
    if ticks == [] then Output([], st)
    else
      var prior := Run(st, ticks[..|ticks| - 1], threshold);
      var s := StepTick(prior.final, ticks[|ticks| - 1], threshold);
      Output(prior.bars + Emitted(s), s.next)
  }

  /** The ticks given as three parallel columns; only the first `|prices|` entries are read. */
  function Ticks(timestamps: seq<int>, prices: seq<real>, quantities: seq<real>): (r: seq<Tick>)
    requires |timestamps| >= |prices| && |quantities| >= |prices|
    ensures |r| == |prices|
    ensures forall i :: 0 <= i < |r| ==> r[i] == Tick(timestamps[i], prices[i], quantities[i])
  {
    seq(|prices|, i requires 0 <= i < |prices| => Tick(timestamps[i], prices[i], quantities[i]))
  }

  function DollarSum(ticks: seq<Tick>): real {
    if ticks == [] then 0.0 else DollarSum(ticks[..|ticks| - 1]) + ticks[|ticks| - 1].price * ticks[|ticks| - 1].qty
  }

  function VolumeSum(ticks: seq<Tick>): real {
    if ticks == [] then 0.0 else VolumeSum(ticks[..|ticks| - 1]) + ticks[|ticks| - 1].qty
  }

  function BarDollars(bars: seq<Bar>): real {
    if bars == [] then 0.0 else BarDollars(bars[..|bars| - 1]) + bars[|bars| - 1].dollar
  }

  function BarVolumes(bars: seq<Bar>): real {
    if bars == [] then 0.0 else BarVolumes(bars[..|bars| - 1]) + bars[|bars| - 1].vol
  }

  /** At most one bar per tick. */
  lemma {:induction false} RunLength(st: State, ticks: seq<Tick>, threshold: real)
    ensures |Run(st, ticks, threshold).bars| <= |ticks|
  {
    if ticks != [] {
      RunLength(st, ticks[..|ticks| - 1], threshold);
    }
  }

  /** Every emitted bar carries at least the threshold's dollar value. */
  lemma {:induction false} BarsReachThreshold(st: State, ticks: seq<Tick>, threshold: real)
    ensures forall b :: b in Run(st, ticks, threshold).bars ==> b.dollar >= threshold
  {
    if ticks != [] {
      var prior := Run(st, ticks[..|ticks| - 1], threshold);
      BarsReachThreshold(st, ticks[..|ticks| - 1], threshold);
      StepTickSpec(prior.final, ticks[|ticks| - 1], threshold);
    }
  }

  /** With a positive threshold, the carried dollar value after at least one tick is below it. */
  lemma FinalBelowThreshold(st: State, ticks: seq<Tick>, threshold: real)
    requires threshold > 0.0 && ticks != []
    ensures Run(st, ticks, threshold).final.dollar < threshold
  {
    StepTickSpec(Run(st, ticks[..|ticks| - 1], threshold).final, ticks[|ticks| - 1], threshold);
  }

  /** Each bar's timestamp and close are those of a tick of the chunk (the one that crossed the
      threshold). */
  lemma {:induction false} BarsCloseOnTicks(st: State, ticks: seq<Tick>, threshold: real)
    ensures forall b :: b in Run(st, ticks, threshold).bars ==>
      exists i :: 0 <= i < |ticks| && ticks[i].ts == b.ts && ticks[i].price == b.close
  {
    if ticks != [] {
      var n := |ticks| - 1;
      var prior := Run(st, ticks[..n], threshold);
      BarsCloseOnTicks(st, ticks[..n], threshold);
      StepTickSpec(prior.final, ticks[n], threshold);
      forall b | b in Run(st, ticks, threshold).bars
        ensures exists i :: 0 <= i < |ticks| && ticks[i].ts == b.ts && ticks[i].price == b.close
      {
        if b in prior.bars {
          var j :| 0 <= j < n && ticks[..n][j].ts == b.ts && ticks[..n][j].price == b.close;
          assert ticks[j] == ticks[..n][j];
        } else {
          assert ticks[n].ts == b.ts && ticks[n].price == b.close;
        }
      }
    }
  }

  /** Conservation of dollar value and volume: what came in (carried plus ticks) is what went out
      (emitted bars plus carried). */
  lemma {:induction false} Conservation(st: State, ticks: seq<Tick>, threshold: real)
    ensures st.dollar + DollarSum(ticks) == BarDollars(Run(st, ticks, threshold).bars) + Run(st, ticks, threshold).final.dollar
    ensures st.vol + VolumeSum(ticks) == BarVolumes(Run(st, ticks, threshold).bars) + Run(st, ticks, threshold).final.vol
  {
    if ticks != [] {
      var n := |ticks| - 1;
      var prior := Run(st, ticks[..n], threshold);
      var s := StepTick(prior.final, ticks[n], threshold);
      Conservation(st, ticks[..n], threshold);
      StepTickSpec(prior.final, ticks[n], threshold);
      var bars := prior.bars + Emitted(s);
      if s.bar.Some? {
        assert bars[..|bars| - 1] == prior.bars;
      } else {
        assert bars == prior.bars;
      }
    }
  }

  /** Chunk composition: processing `a` and then `b` from the state `a` left behind gives the same
      bars and final state as processing `a + b` in one go. */
  lemma {:induction false} Composition(st: State, a: seq<Tick>, b: seq<Tick>, threshold: real)
    ensures Run(st, a + b, threshold)
         == Output(Run(st, a, threshold).bars + Run(Run(st, a, threshold).final, b, threshold).bars,
                   Run(Run(st, a, threshold).final, b, threshold).final)
  {
    if b == [] {
      assert a + b == a;
    } else {
      var n := |b| - 1;
      var first := Run(st, a, threshold);
      var left := Run(st, a + b[..n], threshold);
      var right := Run(first.final, b[..n], threshold);
      assert left == Output(first.bars + right.bars, right.final) by {
        Composition(st, a, b[..n], threshold);
      }
      var s := StepTick(right.final, b[n], threshold);
      assert Run(st, a + b, threshold) == Output(left.bars + Emitted(s), s.next) by {
        assert a + b == (a + b[..n]) + [b[n]];
        RunSnoc(st, a + b[..n], b[n], threshold);
      }
      assert Run(first.final, b, threshold) == Output(right.bars + Emitted(s), s.next) by {
        assert b == b[..n] + [b[n]];
        RunSnoc(first.final, b[..n], b[n], threshold);
      }
      assert left.bars + Emitted(s) == first.bars + (right.bars + Emitted(s));
    }
  }

  /** One more tick steps the state the run ended in, and appends the bar it closes, if any. */
  lemma RunSnoc(st: State, ticks: seq<Tick>, t: Tick, threshold: real)
    ensures Run(st, ticks + [t], threshold)
         == Output(Run(st, ticks, threshold).bars + Emitted(StepTick(Run(st, ticks, threshold).final, t, threshold)),
                   StepTick(Run(st, ticks, threshold).final, t, threshold).next)
  {
    assert (ticks + [t])[..|ticks|] == ticks;
  }


  /** A bar in progress is coherent when it has accumulated nothing, or has finite high and low
      that bracket its open. */
  predicate Coherent(st: State) {
    st.dollar == 0.0 || (st.high.Fin? && st.low.Fin? && st.low.v <= st.open <= st.high.v)
  }

  /** low <= open <= high and low <= close <= high, with finite high and low. */
  predicate WellFormed(b: Bar) {
    b.high.Fin? && b.low.Fin? && b.low.v <= b.open <= b.high.v && b.low.v <= b.close <= b.high.v
  }

  /** One tick keeps a coherent state coherent, and a bar it emits from one is well-formed. */
  lemma StepKeepsCoherent(st: State, t: Tick, threshold: real)
    requires Coherent(st)
    ensures Coherent(StepTick(st, t, threshold).next)
    ensures StepTick(st, t, threshold).bar.Some? ==> WellFormed(StepTick(st, t, threshold).bar.value)
  {
  }

  /** From a coherent state (such as `Fresh`, or the state just after a bar was emitted) every bar
      emitted is well-formed, and the state stays coherent. */
  lemma {:induction false} CoherentBarsWellFormed(st: State, ticks: seq<Tick>, threshold: real)
    requires Coherent(st)
    ensures Coherent(Run(st, ticks, threshold).final)
    ensures forall b :: b in Run(st, ticks, threshold).bars ==> WellFormed(b)
  {
    if ticks != [] {
      var n := |ticks| - 1;
      CoherentBarsWellFormed(st, ticks[..n], threshold);
      StepKeepsCoherent(Run(st, ticks[..n], threshold).final, ticks[n], threshold);
    }
  }

  /** Whatever state a chunk starts from, every bar after the first one has its first tick inside
      the chunk and is well-formed; once a bar has been emitted the state is coherent. */
  lemma {:induction false} LaterBarsWellFormed(st: State, ticks: seq<Tick>, threshold: real)
    ensures forall k :: 1 <= k < |Run(st, ticks, threshold).bars| ==> WellFormed(Run(st, ticks, threshold).bars[k])
    ensures |Run(st, ticks, threshold).bars| > 0 ==> Coherent(Run(st, ticks, threshold).final)
  {
    if ticks != [] {
      var n := |ticks| - 1;
      var prior := Run(st, ticks[..n], threshold);
      var s := StepTick(prior.final, ticks[n], threshold);
      LaterBarsWellFormed(st, ticks[..n], threshold);
      if |prior.bars| > 0 {
        StepKeepsCoherent(prior.final, ticks[n], threshold);
      } else {
        assert prior.bars + Emitted(s) == Emitted(s);
      }
    }
  }

  /** The fresh starting state is coherent, so a series processed from it only has well-formed
      bars. */
  lemma FreshBarsWellFormed(ticks: seq<Tick>, threshold: real)
    ensures forall b :: b in Run(Fresh, ticks, threshold).bars ==> WellFormed(b)
  {
    CoherentBarsWellFormed(Fresh, ticks, threshold);
  }

  /** `process_dollar_bar_chunk` (Rust): the fold as a loop over the tick columns; each emitted
      bar is pushed as one record (the source pushes its seven fields onto seven vectors). */
  method ProcessDollarBarChunk(timestamps: seq<int>, prices: seq<real>, quantities: seq<real>, threshold: real, state: State)
    returns (out: seq<Bar>, newState: State)
    requires |timestamps| >= |prices| && |quantities| >= |prices|
    ensures out == Run(state, Ticks(timestamps, prices, quantities), threshold).bars
    ensures newState == Run(state, Ticks(timestamps, prices, quantities), threshold).final
  {
    ghost var ticks := Ticks(timestamps, prices, quantities);
    var curDollar, curVol, curHigh, curLow, barOpen := state.dollar, state.vol, state.high, state.low, state.open;
    out := [];
    var n := |prices|;
    for i := 0 to n
      invariant Output(out, State(curDollar, curVol, curHigh, curLow, barOpen)) == Run(state, ticks[..i], threshold)
    {
      var p := prices[i];
      var q := quantities[i];
      assert ticks[i] == Tick(timestamps[i], p, q);
      curDollar, curVol, curHigh, curLow, barOpen := AbsorbTick(curDollar, curVol, curHigh, curLow, barOpen, p, q);
      if curDollar >= threshold {
        out := out + [Bar(timestamps[i], barOpen, curHigh, curLow, p, curVol, curDollar)];
        curDollar := 0.0;
        curVol := 0.0;
        curHigh := NegInf;
        curLow := PosInf;
      }
      assert ticks[..i + 1][..i] == ticks[..i];
    }
    assert ticks[..n] == ticks;
    newState := State(curDollar, curVol, curHigh, curLow, barOpen);
  }
}
