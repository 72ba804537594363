/** What the fractional ladder guarantees for every price history. */
module PolicyLadderFacts {
  import opened Basics
  import opened Fees
  import opened Sums
  import opened PolicyLadder

  // ---- the stage decides what is left and what was sold ---------------------------------------------

  function RemainingAt(stage: nat): real {
    if stage == 0 then 1.0 else if stage == 1 then 0.9 else if stage == 2 then 0.45 else 0.225
  }

  function LegsAt(entry: real, stage: nat): seq<Leg> {
    if stage == 0 then []
    else if stage == 1 then [Leg(0.1, Above(entry, 10.0))]
    else if stage == 2 then [Leg(0.1, Above(entry, 10.0)), Leg(0.45, Above(entry, 15.0))]
    else [Leg(0.1, Above(entry, 10.0)), Leg(0.45, Above(entry, 15.0)), Leg(0.225, Above(entry, 25.0))]
  }

  ghost predicate OnLadder(entry: real, s: State) {
    && s.stage <= 3
    && s.remaining == RemainingAt(s.stage)
    && s.legs == LegsAt(entry, s.stage)
    && s.highWm >= entry
    && (s.trailArmed ==> s.highWm >= Above(entry, TRAIL_ARM_PCT))
  }

  /** Everything was sold: the rungs climbed so far, then the rest at one price. */
  ghost predicate SoldOut(entry: real, v: Verdict, first: int, end: int) {
    && v.Sold?
    && first <= v.index < end
    && !v.reason.TakeProfit?
    && (exists stage: nat, price :: EndsWith(entry, v.legs, stage, price) && stage <= 3
          && (v.reason.Trailing? && !v.gap ==> price >= Below(Above(entry, TRAIL_ARM_PCT), TRAIL_DD_PCT)))
  }

  ghost predicate EndsWith(entry: real, legs: seq<Leg>, stage: nat, price: real) {
    legs == LegsAt(entry, stage) + [Leg(RemainingAt(stage), price)]
  }

  lemma ClimbStaysOnLadder(entry: real, change: real, s: State)
    requires OnLadder(entry, s)
    ensures OnLadder(entry, Climb(entry, change, s))
    ensures Climb(entry, change, s).highWm == s.highWm && Climb(entry, change, s).trailArmed == s.trailArmed
  {
    hide Above;
    var s1 := Rung(entry, change, s, 1, 10.0, 0.10);
    assert OnLadder(entry, s1);
    var s2 := Rung(entry, change, s1, 2, 15.0, 0.50);
    assert OnLadder(entry, s2) && (s2.stage >= 2 || change < 15.0);
  }

  lemma ArmedMeansHigh(entry: real, high: real)
    requires entry > 0.0 && Change(entry, high) >= TRAIL_ARM_PCT
    ensures high >= Above(entry, TRAIL_ARM_PCT)
  {
    var ratio := (high - entry) / entry;
    assert ratio * entry == high - entry;
    MulMono(0.05, ratio, entry);
  }

  lemma WatchStaysOnLadder(entry: real, s: State, high: real)
    requires entry > 0.0 && OnLadder(entry, s)
    ensures OnLadder(entry, Watch(entry, s, high))
  {
    hide Above, LegsAt;
    if Change(entry, high) >= TRAIL_ARM_PCT { ArmedMeansHigh(entry, high); }
  }

  lemma SellRestSellsOut(entry: real, i: int, s: State, price: real, reason: Reason, gap: bool)
    requires OnLadder(entry, s) && !reason.TakeProfit?
    requires reason.Trailing? && !gap ==> price >= Below(Above(entry, TRAIL_ARM_PCT), TRAIL_DD_PCT)
    ensures SoldOut(entry, SellRest(i, s, price, reason, gap), i, i + 1)
  {
    hide Above, Below, LegsAt, RemainingAt;
    assert EndsWith(entry, SellRest(i, s, price, reason, gap).legs, s.stage, price);
  }

  lemma BarStaysOnLadder(entry: real, stop: real, i: int, bar: Bar, s: State)
    requires entry > 0.0 && OnLadder(entry, s)
    ensures var v := OneBar(entry, stop, i, bar, s);
            if v.Sold? then SoldOut(entry, v, i, i + 1) else OnLadder(entry, v.state)
  {
    hide Above, LegsAt, Climb, Watch, SoldOut;
    var gap := GapReason(stop, s, bar.open);
    if gap.Some? {
      SellRestSellsOut(entry, i, s, bar.open.value, gap.value, true);
    } else if bar.low.Some? && bar.high.Some? {
      WatchStaysOnLadder(entry, s, bar.high.value);
      var w := Watch(entry, s, bar.high.value);
      if bar.low.value <= stop {
        SellRestSellsOut(entry, i, w, stop, StopLoss, false);
      } else {
        var change := Change(entry, bar.high.value);
        ClimbStaysOnLadder(entry, change, w);
        var c := Climb(entry, change, w);
        if c.trailArmed && bar.low.value <= Below(c.highWm, TRAIL_DD_PCT) {
          SellRestSellsOut(entry, i, c, Below(c.highWm, TRAIL_DD_PCT), Trailing, false);
        }
      }
    }
  }

  lemma {:induction false} ScanStaysOnLadder(bars: seq<Bar>, i: int, end: int, entry: real, stop: real, s: State)
    requires entry > 0.0 && 0 <= i && end <= |bars| && OnLadder(entry, s)
    ensures var v := Scan(bars, i, end, entry, stop, s);
            if v.Sold? then SoldOut(entry, v, i, end) else OnLadder(entry, v.state)
    decreases end - i
  {
    hide OneBar, OnLadder;
    if i < end {
      BarStaysOnLadder(entry, stop, i, bars[i], s);
      var v := OneBar(entry, stop, i, bars[i], s);
      if v.StillOpen? {
        ScanStaysOnLadder(bars, i + 1, end, entry, stop, v.state);
      }
    }
  }

  lemma FractionsOfALadder(entry: real, stage: nat, price: real)
    requires stage <= 3
    ensures Fractions(LegsAt(entry, stage) + [Leg(RemainingAt(stage), price)]) == 1.0
  {
    var f := (l: Leg) => l.fraction;
    var last := Leg(RemainingAt(stage), price);
    SumSnoc(LegsAt(entry, stage), last, f);
    var a, b, c := Leg(0.1, Above(entry, 10.0)), Leg(0.45, Above(entry, 15.0)), Leg(0.225, Above(entry, 25.0));
    SumSnoc([], a, f);
    SumSnoc([a], b, f);
    SumSnoc([a, b], c, f);
    assert [] + [a] == [a] && [a] + [b] == [a, b] && [a, b] + [c] == [a, b, c];
  }

  /** Every reported exit sold the whole position: a run of rungs and one last leg, whose weights add up
      to one; it never ends on a take-profit, and it ends within the observation window. */
  lemma EveryReportSellsEverything(bars: seq<Bar>, entryIdx: nat, entry: real, stopPrice: Option<real>, skip: bool)
    ensures var v := Simulate(bars, entryIdx, entry, stopPrice, skip);
            v.Some? ==>
              && entry > 0.0 && v.value.Sold?
              && SoldOut(entry, v.value, entryIdx, WindowEnd(bars, entryIdx))
              && Fractions(v.value.legs) == 1.0
              && !v.value.reason.TakeProfit?
              && 0 <= v.value.index - entryIdx < MAX_HOLD_DAYS
  {
    hide Scan, Fractions, StopLine, OnLadder;
    var v := Simulate(bars, entryIdx, entry, stopPrice, skip);
    if v.Some? {
      var end := WindowEnd(bars, entryIdx);
      var start := if skip then entryIdx + 1 else entryIdx;
      assert OnLadder(entry, Opening(entry)) by { StartsOnLadder(entry); }
      ScanStaysOnLadder(bars, start, end, entry, StopLine(entry, stopPrice), Opening(entry));
      var u := Scan(bars, start, end, entry, StopLine(entry, stopPrice), Opening(entry));
      if u.StillOpen? {
        SellRestSellsOut(entry, end - 1, u.state, bars[end - 1].close.value, MaxHolding, false);
      }
      var stage: nat, price :| EndsWith(entry, v.value.legs, stage, price) && stage <= 3;
      FractionsOfALadder(entry, stage, price);
    }
  }

  lemma StartsOnLadder(entry: real)
    requires entry > 0.0
    ensures OnLadder(entry, Opening(entry))
  {
  }

  // ---- bars after the exit ----------------------------------------------------------------------------

  lemma {:induction false} ScanReadsNoFurther(bars: seq<Bar>, others: seq<Bar>, i: int, end: int, otherEnd: int,
                                              entry: real, stop: real, s: State)
    requires entry > 0.0 && 0 <= i && end <= |bars| && otherEnd <= |others|
    requires var v := Scan(bars, i, end, entry, stop, s);
             v.Sold? && v.index < otherEnd && forall k :: i <= k <= v.index && k < end ==> others[k] == bars[k]
    ensures Scan(others, i, otherEnd, entry, stop, s) == Scan(bars, i, end, entry, stop, s)
    decreases end - i
  {
    hide OneBar;
    var v := OneBar(entry, stop, i, bars[i], s);
    ScanIndex(bars, i, end, entry, stop, s);
    if v.StillOpen? {
      ScanReadsNoFurther(bars, others, i + 1, end, otherEnd, entry, stop, v.state);
    }
  }

  lemma {:induction false} ScanIndex(bars: seq<Bar>, i: int, end: int, entry: real, stop: real, s: State)
    requires entry > 0.0 && 0 <= i && end <= |bars|
    ensures var v := Scan(bars, i, end, entry, stop, s); v.Sold? ==> i <= v.index < end
    decreases end - i
  {
    if i < end {
      var v := OneBar(entry, stop, i, bars[i], s);
      if v.StillOpen? { ScanIndex(bars, i + 1, end, entry, stop, v.state); }
    }
  }

  /** A triggered exit is settled by the bars up to it: any history that agrees so far reports the same. */
  lemma LaterBarsNeverMatter(bars: seq<Bar>, others: seq<Bar>, entryIdx: nat, entry: real, stopPrice: Option<real>,
                             skip: bool)
    requires var v := Simulate(bars, entryIdx, entry, stopPrice, skip);
             v.Some? && v.value.Sold? && v.value.reason != MaxHolding
             && v.value.index < |others| && v.value.index < |bars|
             && forall k :: 0 <= k <= v.value.index ==> others[k] == bars[k]
    ensures Simulate(others, entryIdx, entry, stopPrice, skip) == Simulate(bars, entryIdx, entry, stopPrice, skip)
  {
    hide Scan, StopLine;
    var start := if skip then entryIdx + 1 else entryIdx;
    ScanIndex(bars, start, WindowEnd(bars, entryIdx), entry, StopLine(entry, stopPrice), Opening(entry));
    ScanReadsNoFurther(bars, others, start, WindowEnd(bars, entryIdx), WindowEnd(others, entryIdx),
                       entry, StopLine(entry, stopPrice), Opening(entry));
  }

  // ---- a trailing exit at its line is a gain ------------------------------------------------------------

  /** Fees are at most twice their rate, and nothing at all on small amounts. */
  lemma RoundedFee(x: real)
    requires x >= 0.0
    ensures RoundHalfUp(x) as real <= 2.0 * x && RoundHalfUp(x) >= 0 && (x < 0.5 ==> RoundHalfUp(x) == 0)
  {
  }

  lemma AtLeastHalfRoundsUp(x: real)
    ensures x >= 0.5 ==> RoundHalfUp(x) >= 1
    ensures 0.0 <= x < 0.5 ==> RoundHalfUp(x) == 0
  {
  }

  /** Won-rounded on 1000 shares, 1.85 per cent up is a gain exactly from an entry of 1/37 on. */
  lemma SmallestTrailingGain(entry: real, price: real)
    requires 37.0 * entry >= 1.0 && price >= 1.0185 * entry
    ensures WonNetPnl(entry, price, 1000) >= 1
    ensures NetPct(entry, price) > 0.0
  {
    hide RoundHalfUp;
    var buy, sell := Amount(entry, 1000), Amount(price, 1000);
    assert buy == 1000.0 * entry && sell == 1000.0 * price;
    RoundedFee(buy * 0.000140527);
    RoundedFee(sell * 0.000130527 + sell * 0.002);
    var net := (sell - WonSellFee(sell) as real) - (buy + WonBuyFee(buy) as real);
    assert net >= 0.5;
    AtLeastHalfRoundsUp(net);
    var cost := buy + WonBuyFee(buy) as real;
    var pnl := WonNetPnl(entry, price, 1000) as real;
    assert cost > 0.0 && pnl >= 1.0;
    assert pnl / cost > 0.0 by {
      assert pnl / cost * cost == pnl;
      if pnl / cost <= 0.0 { MulMono(pnl / cost, 0.0, cost); }
    }
  }

  lemma {:induction false} AllLegsGain(entry: real, legs: seq<Leg>)
    requires legs != [] && forall l :: l in legs ==> l.fraction > 0.0 && NetPct(entry, l.price) > 0.0
    ensures Realized(entry, legs) > 0.0
  {
    hide NetPct;
    var init, last := legs[..|legs| - 1], legs[|legs| - 1];
    assert legs == init + [last];
    RealizedSnoc(entry, init, last.fraction, last.price);
    var net := NetPct(entry, last.price);
    assert last.fraction * net > 0.0;
    if init == [] { RealizedNothing(entry); } else { AllLegsGain(entry, init); }
  }

  ghost predicate TrailedAtItsLine(v: Option<Verdict>) {
    v.Some? && v.value.Sold? && v.value.reason == Trailing && !v.value.gap
  }

  /** For entries of at least 1/37, every trailing exit that is not a gap nets a gain after fees. */
  lemma TrailingExitGains(bars: seq<Bar>, entryIdx: nat, entry: real, stopPrice: Option<real>, skip: bool)
    requires 37.0 * entry >= 1.0
    requires TrailedAtItsLine(Simulate(bars, entryIdx, entry, stopPrice, skip))
    ensures Realized(entry, Simulate(bars, entryIdx, entry, stopPrice, skip).value.legs) > 0.0
  {
    hide Simulate, Realized, NetPct, Fractions;
    var v := Simulate(bars, entryIdx, entry, stopPrice, skip).value;
    EveryReportSellsEverything(bars, entryIdx, entry, stopPrice, skip);
    var stage: nat, price :| EndsWith(entry, v.legs, stage, price) && stage <= 3
                             && price >= Below(Above(entry, TRAIL_ARM_PCT), TRAIL_DD_PCT);
    forall l | l in v.legs ensures l.fraction > 0.0 && NetPct(entry, l.price) > 0.0 {
      assert l.price >= 1.0185 * entry;
      SmallestTrailingGain(entry, l.price);
    }
    AllLegsGain(entry, v.legs);
  }

  function OneDay(entry: real): Bar {
    Bar(0, None, Some(entry), Some(Above(entry, 5.0)), None)
  }

  /** Below 1/37 rounding eats it: one day up 5 per cent and back sells at the trailing line for nothing. */
  lemma TinyEntryGainsNothing(entry: real)
    requires 0.0 < entry && 37.0 * entry < 1.0
    ensures var v := Simulate([OneDay(entry)], 0, entry, None, false);
            TrailedAtItsLine(v) && Realized(entry, v.value.legs) == 0.0
  {
    var bars := [OneDay(entry)];
    var price := Below(Above(entry, 5.0), 3.0);
    assert price == 1.0185 * entry;
    var high := Above(entry, 5.0);
    assert Change(entry, high) == 5.0 by {
      assert high - entry == 0.05 * entry;
      assert (0.05 * entry) / entry == 0.05;
    }
    var stop := StopLine(entry, None);
    assert OneBar(entry, stop, 0, bars[0], Opening(entry)) == Sold(0, Trailing, false, [Leg(1.0, price)]);
    NothingLeft(entry, price);
    RealizedNothing(entry);
    RealizedSnoc(entry, [], 1.0, price);
    assert [] + [Leg(1.0, price)] == [Leg(1.0, price)];
  }

  lemma NothingLeft(entry: real, price: real)
    requires 0.0 < entry && 37.0 * entry < 1.0 && price == 1.0185 * entry
    ensures NetPct(entry, price) == 0.0
  {
    hide RoundHalfUp;
    var buy, sell := Amount(entry, 1000), Amount(price, 1000);
    assert buy == 1000.0 * entry && sell == 1018.5 * entry;
    AtLeastHalfRoundsUp(buy * 0.000140527);
    AtLeastHalfRoundsUp(sell * 0.000130527 + sell * 0.002);
    AtLeastHalfRoundsUp(sell - buy);
    assert WonNetPnl(entry, price, 1000) == 0;
  }

  ghost predicate TrailingAlwaysGains(entry: real) {
    forall bars, entryIdx, stopPrice, skip :: TrailedAtItsLine(Simulate(bars, entryIdx, entry, stopPrice, skip)) ==>
      Realized(entry, Simulate(bars, entryIdx, entry, stopPrice, skip).value.legs) > 0.0
  }

  /** The exact condition on the entry price. */
  lemma TrailingGainsExactlyFrom(entry: real)
    requires entry > 0.0
    ensures TrailingAlwaysGains(entry) <==> 37.0 * entry >= 1.0
  {
    hide Simulate, Realized;
    if 37.0 * entry >= 1.0 {
      forall bars, entryIdx, stopPrice, skip | TrailedAtItsLine(Simulate(bars, entryIdx, entry, stopPrice, skip))
        ensures Realized(entry, Simulate(bars, entryIdx, entry, stopPrice, skip).value.legs) > 0.0
      {
        TrailingExitGains(bars, entryIdx, entry, stopPrice, skip);
      }
    } else {
      TinyEntryGainsNothing(entry);
    }
  }
}
