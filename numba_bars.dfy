/** `_process_day_chunk`, the Numba kernel of the dollar-bar aggregator: the same loop body as the
    Rust version, writing bars into a preallocated output buffer that is doubled whenever a
    commit fills it, with the carried state packed as five floats. */
module NumbaBars {
  import opened DollarBars

  /** The state array `[cum_dollar, cum_vol, cur_high, cur_low, bar_open]`. */
  function Pack(st: State): (r: seq<Bound>)
    ensures |r| == 5
  {
    [Fin(st.dollar), Fin(st.vol), st.high, st.low, Fin(st.open)]
  }

  /** Reads a state array back; the accumulators and the open are finite in any state the
      aggregator produces. */
  predicate IsStateArray(a: seq<Bound>) {
    |a| >= 5 && a[0].Fin? && a[1].Fin? && a[4].Fin?
  }

  function Unpack(a: seq<Bound>): State
    requires IsStateArray(a)
  {
    State(a[0].v, a[1].v, a[2], a[3], a[4].v)
  }

  /** Packing and unpacking are inverse: the returned array holds the state's fields in the
      documented order. */
  lemma PackRoundTrip(st: State, a: seq<Bound>)
    ensures IsStateArray(Pack(st)) && Unpack(Pack(st)) == st
    ensures IsStateArray(a) ==> Pack(Unpack(a)) == a[..5]
  {
  }

  /** The initial buffer size `int(n / 10) + 100`. */
  function InitialCapacity(n: nat): (c: nat)
    ensures c >= 100 && c > n / 10
  {
    n / 10 + 100
  }

  /** A zero-filled output row, as `np.zeros` leaves it. */
  const ZeroBar := Bar(0, 0.0, Fin(0.0), Fin(0.0), 0.0, 0.0, 0.0)

  /** The resize step: a zero-filled buffer of twice the size with the old contents copied to the
      front. */
  method Doubled(a: array<Bar>) returns (b: array<Bar>)
    ensures fresh(b)
    ensures b.Length == 2 * a.Length
    ensures b[..a.Length] == a[..]
  {
    b := new Bar[2 * a.Length](_ => ZeroBar);
    for k := 0 to a.Length
      invariant b[..k] == a[..k]
    {
      b[k] := a[k];
    }
  }

  /** A commit: the bar is written at `bar_idx`, which then advances; when that fills the buffer,
      the buffer is doubled, so the next write is in bounds again. */
  method Commit(buf: array<Bar>, barIdx: nat, bar: Bar) returns (next: array<Bar>, nextIdx: nat)
    requires barIdx < buf.Length
    modifies buf
    ensures nextIdx == barIdx + 1 && nextIdx < next.Length
    ensures next[..nextIdx] == old(buf[..barIdx]) + [bar]
    ensures next == buf || fresh(next)
  {
    buf[barIdx] := bar;
    assert buf[..barIdx + 1] == old(buf[..barIdx]) + [bar];
    nextIdx := barIdx + 1;
    next := buf;
    if nextIdx >= buf.Length {
      next := Doubled(buf);
      assert next[..nextIdx] == next[..buf.Length][..nextIdx];
    }
  }

  /** `_process_day_chunk`: returns the first `bar_idx` rows of the buffer and the packed final
      state; after every commit `bar_idx` is inside the buffer, so every write is in bounds. */
  method ProcessDayChunk(timestamps: array<int>, prices: array<real>, quantities: array<real>, threshold: real, state: array<Bound>)
    returns (out: seq<Bar>, newState: seq<Bound>)
    requires timestamps.Length >= prices.Length && quantities.Length >= prices.Length
    requires IsStateArray(state[..])
    ensures out == Run(Unpack(state[..]), Ticks(timestamps[..], prices[..], quantities[..]), threshold).bars
    ensures newState == Pack(Run(Unpack(state[..]), Ticks(timestamps[..], prices[..], quantities[..]), threshold).final)
  {
    ghost var start := Unpack(state[..]);
    ghost var ticks := Ticks(timestamps[..], prices[..], quantities[..]);
    var curDollar, curVol, curHigh, curLow, barOpen := state[0].v, state[1].v, state[2], state[3], state[4].v;
    var n := prices.Length;
    var buf := new Bar[InitialCapacity(n)](_ => ZeroBar);
    var barIdx := 0;
    ghost var acc := Output([], start);
    assert ticks[..0] == [];
    for i := 0 to n
      invariant fresh(buf)
      invariant barIdx < buf.Length
      invariant acc == Run(start, ticks[..i], threshold)
      invariant buf[..barIdx] == acc.bars && State(curDollar, curVol, curHigh, curLow, barOpen) == acc.final
    {
      var p := prices[i];
      var q := quantities[i];
      ghost var s := StepTick(acc.final, ticks[i], threshold);
      assert ticks[i] == Tick(timestamps[i], p, q);
      curDollar, curVol, curHigh, curLow, barOpen := AbsorbTick(curDollar, curVol, curHigh, curLow, barOpen, p, q);
      if curDollar >= threshold {
        buf, barIdx := Commit(buf, barIdx, Bar(timestamps[i], barOpen, curHigh, curLow, p, curVol, curDollar));
        curDollar := 0.0;
        curVol := 0.0;
        curHigh := NegInf;
        curLow := PosInf;
      }
      assert ticks[..i + 1][..i] == ticks[..i];
      acc := Output(acc.bars + Emitted(s), s.next);
    }
    assert ticks[..n] == ticks;
    newState := [Fin(curDollar), Fin(curVol), curHigh, curLow, Fin(barOpen)];
    out := buf[..barIdx];
  }
}
