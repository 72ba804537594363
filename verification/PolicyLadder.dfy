/** The offline policy simulator's exit: a fractional take-profit ladder, a trailing stop, a fixed
    stop and a forced exit at the end of the observation window. */
module PolicyLadder {
  import opened Basics
  import opened Fees
  import opened Sums

  const DEFAULT_SL_PCT := 5.0
  const TRAIL_ARM_PCT := 5.0
  const TRAIL_DD_PCT := 3.0
  const MAX_HOLD_DAYS := 20

  /** A price row; a field that is missing or not a number is None. */
  datatype Bar = Bar(date: int, open: Option<real>, low: Option<real>, high: Option<real>, close: Option<real>)

  datatype Reason = StopLoss | Trailing | TakeProfit(stage: nat) | MaxHolding

  datatype Exit = Exit(date: int, holdingDays: int, netPct: real, reason: Reason)

  /** A part of the position sold at a price. */
  datatype Leg = Leg(fraction: real, price: real)

  datatype State = State(remaining: real, stage: nat, highWm: real, trailArmed: bool, legs: seq<Leg>)

  /** `gap`: sold at the opening price. */
  datatype Verdict = Sold(index: int, reason: Reason, gap: bool, legs: seq<Leg>) | StillOpen(state: State)

  function NetPct(entry: real, price: real): real {
    WonNetPnlPct(entry, price, 1000)
  }

  function LegNet(entry: real, leg: Leg): real {
    leg.fraction * NetPct(entry, leg.price)
  }

  function Realized(entry: real, legs: seq<Leg>): real {
    Sum(legs, (l: Leg) => LegNet(entry, l))
  }

  function Fractions(legs: seq<Leg>): real {
    Sum(legs, (l: Leg) => l.fraction)
  }

  function Above(price: real, pct: real): real {
    price * (1.0 + pct / 100.0)
  }

  function Below(price: real, pct: real): real {
    price * (1.0 - pct / 100.0)
  }

  function Change(entry: real, price: real): real
    requires entry > 0.0
  {
    (price - entry) / entry * 100.0
  }

  function StopLine(entry: real, stopPrice: Option<real>): real {
    if stopPrice.Some? && 0.0 < stopPrice.value < entry then stopPrice.value else Below(entry, DEFAULT_SL_PCT)
  }

  /** The opening price, seen before anything else of the day. */
  function GapReason(stop: real, s: State, opening: Option<real>): Option<Reason> {
    if opening.Some? && opening.value > 0.0 then
      if opening.value <= stop then Some(StopLoss)
      else if s.trailArmed && opening.value <= Below(s.highWm, TRAIL_DD_PCT) then Some(Trailing)
      else None
    else None
  }

  function Rung(entry: real, change: real, s: State, stage: nat, pct: real, fraction: real): State {
    if s.stage < stage && change >= pct && s.remaining > 0.000000001 then
      var sold := Min(s.remaining * fraction, s.remaining);
      s.(remaining := s.remaining - sold, stage := stage, legs := s.legs + [Leg(sold, Above(entry, pct))])
    else s
  }

  function Climb(entry: real, change: real, s: State): State {
    Rung(entry, change, Rung(entry, change, Rung(entry, change, s, 1, 10.0, 0.10), 2, 15.0, 0.50), 3, 25.0, 0.50)
  }

  function Watch(entry: real, s: State, high: real): State
    requires entry > 0.0
  {
    s.(highWm := Max(s.highWm, high), trailArmed := s.trailArmed || Change(entry, high) >= TRAIL_ARM_PCT)
  }

  function SellRest(i: int, s: State, price: real, reason: Reason, gap: bool): Verdict {
    Sold(i, reason, gap, s.legs + [Leg(s.remaining, price)])
  }

  function OneBar(entry: real, stop: real, i: int, bar: Bar, s: State): Verdict
    requires entry > 0.0
  {
    var gap := GapReason(stop, s, bar.open);
    if gap.Some? then SellRest(i, s, bar.open.value, gap.value, true)
    else if bar.low.None? || bar.high.None? then StillOpen(s)
    else
      var w := Watch(entry, s, bar.high.value);
      if bar.low.value <= stop then SellRest(i, w, stop, StopLoss, false)
      else
        var c := Climb(entry, Change(entry, bar.high.value), w);
        if c.remaining <= 0.000000001 then Sold(i, TakeProfit(c.stage), false, c.legs)
        else if c.trailArmed && bar.low.value <= Below(c.highWm, TRAIL_DD_PCT)
        then SellRest(i, c, Below(c.highWm, TRAIL_DD_PCT), Trailing, false)
        else StillOpen(c)
  }

  function Scan(bars: seq<Bar>, i: int, end: int, entry: real, stop: real, s: State): Verdict
    requires entry > 0.0 && 0 <= i && end <= |bars|
    decreases end - i
  {
    if i >= end then StillOpen(s)
    else
      var v := OneBar(entry, stop, i, bars[i], s);
      if v.Sold? then v else Scan(bars, i + 1, end, entry, stop, v.state)
  }

  function Opening(entry: real): State {
    State(1.0, 0, entry, false, [])
  }

  function WindowEnd(bars: seq<Bar>, entryIdx: nat): int {
    if entryIdx + MAX_HOLD_DAYS <= |bars| then entryIdx + MAX_HOLD_DAYS else |bars|
  }

  /** The whole simulation: what was sold, when and why; None when there is nothing to report. */
  function Simulate(bars: seq<Bar>, entryIdx: nat, entry: real, stopPrice: Option<real>,
                    skipEntryBar: bool): Option<Verdict>
  {
    if entry <= 0.0 then None
    else
      var end := WindowEnd(bars, entryIdx);
      var start := if skipEntryBar then entryIdx + 1 else entryIdx;
      var v := Scan(bars, start, end, entry, StopLine(entry, stopPrice), Opening(entry));
      if v.Sold? then Some(v)
      else if end - 1 < start || bars[end - 1].close.None? then None
      else Some(SellRest(end - 1, v.state, bars[end - 1].close.value, MaxHolding, false))
  }

  function Report(bars: seq<Bar>, entryIdx: nat, entry: real, v: Option<Verdict>): Option<Exit> {
    if v.Some? && v.value.Sold? && 0 <= v.value.index < |bars|
    then Some(Exit(bars[v.value.index].date, v.value.index - entryIdx, Realized(entry, v.value.legs), v.value.reason))
    else None
  }

  lemma RealizedSnoc(entry: real, legs: seq<Leg>, fraction: real, price: real)
    ensures Realized(entry, legs + [Leg(fraction, price)]) == Realized(entry, legs) + fraction * NetPct(entry, price)
  {
    SumSnoc(legs, Leg(fraction, price), (l: Leg) => LegNet(entry, l));
  }

  lemma RealizedNothing(entry: real)
    ensures Realized(entry, []) == 0.0
  {
  }

  lemma ScanOneBar(bars: seq<Bar>, i: int, end: int, entry: real, stop: real, s: State)
    requires entry > 0.0 && 0 <= i < end <= |bars|
    ensures var v := OneBar(entry, stop, i, bars[i], s);
            Scan(bars, i, end, entry, stop, s) == if v.Sold? then v else Scan(bars, i + 1, end, entry, stop, v.state)
  {
  }

  lemma ScanNothing(bars: seq<Bar>, i: int, end: int, entry: real, stop: real, s: State)
    requires entry > 0.0 && 0 <= i && end <= i && end <= |bars|
    ensures Scan(bars, i, end, entry, stop, s) == StillOpen(s)
  {
  }

  // ---- the loop itself ----------------------------------------------------------------------------

  method SimulateExit(bars: seq<Bar>, entryIdx: nat, entry: real, stopPrice: Option<real>, skipEntryBar: bool)
    returns (result: Option<Exit>)
    ensures result == Report(bars, entryIdx, entry, Simulate(bars, entryIdx, entry, stopPrice, skipEntryBar))
  {
    hide NetPct, Realized, Below, Above, Change, Climb, StopLine, Scan;
    if entry <= 0.0 { return None; }
    var remaining, realized, stage, highWm, trailArmed := 1.0, 0.0, 0, entry, false;
    ghost var legs: seq<Leg> := [];
    RealizedNothing(entry);
    var stop := StopLine(entry, stopPrice);
    var end := WindowEnd(bars, entryIdx);
    var start := if skipEntryBar then entryIdx + 1 else entryIdx;
    var i := start;
    while i < end
      invariant start <= i && (start <= end ==> i <= end) && (end < start ==> i == start)
      invariant realized == Realized(entry, legs)
      invariant Scan(bars, start, end, entry, stop, Opening(entry))
                == Scan(bars, i, end, entry, stop, State(remaining, stage, highWm, trailArmed, legs))
    {
      var bar := bars[i];
      ghost var s := State(remaining, stage, highWm, trailArmed, legs);
      ScanOneBar(bars, i, end, entry, stop, s);
      var gap := None;
      if bar.open.Some? && bar.open.value > 0.0 {
        if bar.open.value <= stop {
          gap := Some(StopLoss);
        } else if trailArmed && bar.open.value <= Below(highWm, TRAIL_DD_PCT) {
          gap := Some(Trailing);
        }
      }
      assert gap == GapReason(stop, s, bar.open);
      if gap.Some? {
        var opening := bar.open.value;
        RealizedSnoc(entry, legs, remaining, opening);
        realized := realized + remaining * NetPct(entry, opening);
        legs := legs + [Leg(remaining, opening)];
        assert Scan(bars, i, end, entry, stop, s) == Sold(i, gap.value, true, legs);
        return Some(Exit(bar.date, i - entryIdx, realized, gap.value));
      }
      if bar.low.Some? && bar.high.Some? {
        var low, high := bar.low.value, bar.high.value;
        highWm := Max(highWm, high);
        var change := Change(entry, high);
        if change >= TRAIL_ARM_PCT { trailArmed := true; }
        assert State(remaining, stage, highWm, trailArmed, legs) == Watch(entry, s, high);
        if low <= stop {
          RealizedSnoc(entry, legs, remaining, stop);
          realized := realized + remaining * NetPct(entry, stop);
          legs := legs + [Leg(remaining, stop)];
          assert Scan(bars, i, end, entry, stop, s) == Sold(i, StopLoss, false, legs);
          return Some(Exit(bar.date, i - entryIdx, realized, StopLoss));
        }
        remaining, realized, stage, legs :=
          ClimbRungs(entry, change, remaining, realized, stage, highWm, trailArmed, legs);
        if remaining <= 0.000000001 {
          assert Scan(bars, i, end, entry, stop, s) == Sold(i, TakeProfit(stage), false, legs);
          return Some(Exit(bar.date, i - entryIdx, realized, TakeProfit(stage)));
        }
        if trailArmed {
          var trailStop := Below(highWm, TRAIL_DD_PCT);
          if low <= trailStop {
            RealizedSnoc(entry, legs, remaining, trailStop);
            realized := realized + remaining * NetPct(entry, trailStop);
            legs := legs + [Leg(remaining, trailStop)];
            assert Scan(bars, i, end, entry, stop, s) == Sold(i, Trailing, false, legs);
            return Some(Exit(bar.date, i - entryIdx, realized, Trailing));
          }
        }
      }
      i := i + 1;
    }
    ScanNothing(bars, i, end, entry, stop, State(remaining, stage, highWm, trailArmed, legs));
    assert Scan(bars, start, end, entry, stop, Opening(entry))
           == StillOpen(State(remaining, stage, highWm, trailArmed, legs));
    var last := end - 1;
    if last < start { return None; }
    var lastBar := bars[last];
    if lastBar.close.None? { return None; }
    var lastClose := lastBar.close.value;
    RealizedSnoc(entry, legs, remaining, lastClose);
    realized := realized + remaining * NetPct(entry, lastClose);
    legs := legs + [Leg(remaining, lastClose)];
    assert Simulate(bars, entryIdx, entry, stopPrice, skipEntryBar) == Some(Sold(last, MaxHolding, false, legs));
    result := Some(Exit(lastBar.date, last - entryIdx, realized, MaxHolding));
  }

  /** The inner loop over the three rungs. */
  method ClimbRungs(entry: real, change: real, remaining0: real, realized0: real, stage0: nat,
                    ghost highWm: real, ghost trailArmed: bool, ghost legs0: seq<Leg>)
    returns (remaining: real, realized: real, stage: nat, ghost legs: seq<Leg>)
    requires realized0 == Realized(entry, legs0)
    ensures realized == Realized(entry, legs)
    ensures State(remaining, stage, highWm, trailArmed, legs)
            == Climb(entry, change, State(remaining0, stage0, highWm, trailArmed, legs0))
  {
    hide NetPct, Realized, Above;
    remaining, realized, stage, legs := remaining0, realized0, stage0, legs0;
    var rungs := [(1, 10.0, 0.10), (2, 15.0, 0.50), (3, 25.0, 0.50)];
    ghost var s0 := State(remaining0, stage0, highWm, trailArmed, legs0);
    ghost var s1 := Rung(entry, change, s0, 1, 10.0, 0.10);
    ghost var s2 := Rung(entry, change, s1, 2, 15.0, 0.50);
    ghost var steps := [s0, s1, s2, Rung(entry, change, s2, 3, 25.0, 0.50)];
    for k := 0 to 3
      invariant realized == Realized(entry, legs)
      invariant State(remaining, stage, highWm, trailArmed, legs) == steps[k]
    {
      var (stageNo, pct, fraction) := rungs[k];
      if stage < stageNo && change >= pct && remaining > 0.000000001 {
        var sold := Min(remaining * fraction, remaining);
        var price := Above(entry, pct);
        RealizedSnoc(entry, legs, sold, price);
        realized := realized + sold * NetPct(entry, price);
        legs := legs + [Leg(sold, price)];
        remaining := remaining - sold;
        stage := stageNo;
      }
      assert steps[k + 1] == Rung(entry, change, steps[k], stageNo, pct, fraction);
    }
  }
}
