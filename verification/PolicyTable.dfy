/** The policy simulator's exit read off the bars: on which bar, for which reason, at what price and with
    which rungs already sold, in terms of prices and the highest high since entry alone. */
module PolicyTable {
  import opened Basics
  import opened PolicyLadder
  import Fees

  // ---- what the bars show ---------------------------------------------------------------------------------

  /** A bar with a range; only its open counts otherwise. */
  predicate Traded(bar: Bar) {
    bar.low.Some? && bar.high.Some?
  }

  /** The highest price from entry through the bars `first` to `k - 1`. */
  function HighSince(bars: seq<Bar>, first: nat, k: nat, entry: real): (high: real)
    requires k <= |bars|
    ensures high >= entry
    decreases k
  {
    if k <= first then entry
    else
      var before := HighSince(bars, first, k - 1, entry);
      if Traded(bars[k - 1]) && bars[k - 1].high.value > before then bars[k - 1].high.value else before
  }

  /** How many rungs a price has climbed. */
  function StageOf(entry: real, high: real): nat {
    if high >= 1.25 * entry then 3 else if high >= 1.15 * entry then 2 else if high >= 1.1 * entry then 1 else 0
  }

  /** The stop of the plan where it lies below a positive entry, else 5 per cent below the entry. */
  function PlannedStop(entry: real, stopPrice: Option<real>): real {
    match stopPrice
    case Some(stop) => if 0.0 < stop < entry then stop else 0.95 * entry
    case None => 0.95 * entry
  }

  /** A trailing stop is armed 5 per cent up and lies 3 per cent below the high. */
  predicate AtTrail(entry: real, high: real, price: real) {
    high >= 1.05 * entry && price <= 0.97 * high
  }

  // ---- the four ways out --------------------------------------------------------------------------------------

  predicate GapsBelowStop(bar: Bar, stop: real) {
    bar.open.Some? && 0.0 < bar.open.value <= stop
  }

  predicate GapsBelowTrail(bar: Bar, entry: real, before: real) {
    bar.open.Some? && bar.open.value > 0.0 && AtTrail(entry, before, bar.open.value)
  }

  predicate FallsToStop(bar: Bar, stop: real) {
    Traded(bar) && bar.low.value <= stop
  }

  predicate FallsToTrail(bar: Bar, entry: real, after: real) {
    Traded(bar) && AtTrail(entry, after, bar.low.value)
  }

  /** Nothing on the `i`-th bar ends the position. */
  predicate Quiet(bars: seq<Bar>, first: nat, i: nat, entry: real, stop: real)
    requires i < |bars|
  {
    && !GapsBelowStop(bars[i], stop) && !GapsBelowTrail(bars[i], entry, HighSince(bars, first, i, entry))
    && !FallsToStop(bars[i], stop) && !FallsToTrail(bars[i], entry, HighSince(bars, first, i + 1, entry))
  }

  /** The rungs sold by a stage, then the rest at `price`. */
  function Sale(entry: real, stage: nat, price: real): seq<Leg> {
    Rungs(entry, stage) + [Leg(Rest(stage), price)]
  }

  function Rungs(entry: real, stage: nat): seq<Leg> {
    (if stage >= 1 then [Leg(0.1, 1.1 * entry)] else [])
    + (if stage >= 2 then [Leg(0.45, 1.15 * entry)] else [])
    + (if stage >= 3 then [Leg(0.225, 1.25 * entry)] else [])
  }

  function Rest(stage: nat): real {
    if stage == 0 then 1.0 else if stage == 1 then 0.9 else if stage == 2 then 0.45 else 0.225
  }

  /** Why the rest is sold, whether at the open, how many rungs were sold before, and the price of the rest. */
  datatype Ending = Ending(reason: Reason, gap: bool, stage: nat, price: real)

  function SoldAs(entry: real, i: nat, e: Ending): Verdict {
    Sold(i, e.reason, e.gap, Sale(entry, e.stage, e.price))
  }

  /** How the position ends on a bar that is not quiet: the open is seen first, and a stop in the range of the
      day goes before the rungs of the day. */
  function EndOn(bars: seq<Bar>, first: nat, i: nat, entry: real, stop: real): Ending
    requires i < |bars|
  {
    var bar, before, after := bars[i], HighSince(bars, first, i, entry), HighSince(bars, first, i + 1, entry);
    if GapsBelowStop(bar, stop) then
      Ending(StopLoss, true, StageOf(entry, before), bar.open.value)
    else if GapsBelowTrail(bar, entry, before) then
      Ending(Trailing, true, StageOf(entry, before), bar.open.value)
    else if FallsToStop(bar, stop) then
      Ending(StopLoss, false, StageOf(entry, before), stop)
    else
      Ending(Trailing, false, StageOf(entry, after), 0.97 * after)
  }

  // ---- the scan goes by them ------------------------------------------------------------------------------------

  /** The state of an open position: a function of the highest high. */
  function StateAt(entry: real, high: real): State {
    var stage := StageOf(entry, high);
    State(Rest(stage), stage, high, high >= 1.05 * entry, Rungs(entry, stage))
  }

  lemma Scaled(x: real, y: real, k: real)
    requires k > 0.0
    ensures x >= y <==> x * k >= y * k
  {
    if x < y { assert (y - x) * k > 0.0; } else { MulMono(y, x, k); }
  }

  lemma ChangeAtLeast(entry: real, high: real, pct: real)
    requires entry > 0.0
    ensures Change(entry, high) >= pct <==> high >= (1.0 + pct / 100.0) * entry
  {
    var ratio := (high - entry) / entry;
    assert ratio * entry == high - entry;
    Scaled(ratio, pct / 100.0, entry);
    assert (1.0 + pct / 100.0) * entry == entry + pct / 100.0 * entry;
  }

  /** The thresholds of the ladder on the day's high. */
  lemma Thresholds(entry: real, high: real)
    requires entry > 0.0
    ensures Change(entry, high) >= 5.0 <==> high >= 1.05 * entry
    ensures Change(entry, high) >= 10.0 <==> high >= 1.1 * entry
    ensures Change(entry, high) >= 15.0 <==> high >= 1.15 * entry
    ensures Change(entry, high) >= 25.0 <==> high >= 1.25 * entry
  {
    hide Change;
    ChangeAtLeast(entry, high, 5.0);
    ChangeAtLeast(entry, high, 10.0);
    ChangeAtLeast(entry, high, 15.0);
    ChangeAtLeast(entry, high, 25.0);
  }

  /** A traded bar that does not stop the position out takes it to the stage of the new highest high. */
  lemma ClimbByHigh(entry: real, before: real, high: real)
    requires entry > 0.0 && before >= entry
    ensures Watch(entry, StateAt(entry, before), high)
            == StateAt(entry, before).(highWm := Max(before, high), trailArmed := Max(before, high) >= 1.05 * entry)
    ensures Climb(entry, Change(entry, high), Watch(entry, StateAt(entry, before), high))
            == StateAt(entry, Max(before, high))
  {
    hide Change;
    Thresholds(entry, high);
    var w := Watch(entry, StateAt(entry, before), high);
    var s1 := Rung(entry, Change(entry, high), w, 1, 10.0, 0.10);
    assert s1.stage == (if high >= 1.1 * entry && w.stage < 1 then 1 else w.stage);
    assert s1.remaining == Rest(s1.stage) && s1.legs == Rungs(entry, s1.stage);
    var s2 := Rung(entry, Change(entry, high), s1, 2, 15.0, 0.50);
    assert s2.stage == (if high >= 1.15 * entry && s1.stage < 2 then 2 else s1.stage);
    assert s2.remaining == Rest(s2.stage) && s2.legs == Rungs(entry, s2.stage);
  }

  lemma BarByTable(bars: seq<Bar>, first: nat, i: nat, entry: real, stop: real)
    requires entry > 0.0 && first <= i < |bars|
    ensures OneBar(entry, stop, i, bars[i], StateAt(entry, HighSince(bars, first, i, entry)))
            == if Quiet(bars, first, i, entry, stop)
               then StillOpen(StateAt(entry, HighSince(bars, first, i + 1, entry)))
               else SoldAs(entry, i, EndOn(bars, first, i, entry, stop))
  {
    hide Change, Climb, Watch, Rungs;
    var before, bar := HighSince(bars, first, i, entry), bars[i];
    if Traded(bar) {
      ClimbByHigh(entry, before, bar.high.value);
      assert HighSince(bars, first, i + 1, entry) == Max(before, bar.high.value);
    }
  }

  /** The scan ends on the first bar that is not quiet. */
  lemma {:induction false} ScanByTable(bars: seq<Bar>, first: nat, i: nat, end: nat, entry: real, stop: real)
    returns (last: nat)
    requires entry > 0.0 && first <= i <= end <= |bars|
    requires forall j :: first <= j < i ==> Quiet(bars, first, j, entry, stop)
    ensures i <= last <= end && forall j :: first <= j < last ==> Quiet(bars, first, j, entry, stop)
    ensures last < end ==> !Quiet(bars, first, last, entry, stop)
    ensures Scan(bars, i, end, entry, stop, StateAt(entry, HighSince(bars, first, i, entry)))
            == if last < end then SoldAs(entry, last, EndOn(bars, first, last, entry, stop))
               else StillOpen(StateAt(entry, HighSince(bars, first, end, entry)))
    decreases end - i
  {
    hide OneBar, Quiet, StateAt;
    if i == end {
      last := end;
    } else {
      BarByTable(bars, first, i, entry, stop);
      if Quiet(bars, first, i, entry, stop) {
        last := ScanByTable(bars, first, i + 1, end, entry, stop);
      } else {
        last := i;
      }
    }
  }

  // ---- the report -------------------------------------------------------------------------------------------------

  /** What the rungs and the rest net, each weighted with its share of the position. */
  function NetPaid(entry: real, stage: nat, price: real): real {
    (if stage >= 1 then 0.1 * NetPct(entry, 1.1 * entry) else 0.0)
    + (if stage >= 2 then 0.45 * NetPct(entry, 1.15 * entry) else 0.0)
    + (if stage >= 3 then 0.225 * NetPct(entry, 1.25 * entry) else 0.0)
    + Rest(stage) * NetPct(entry, price)
  }

  lemma RungsNet(entry: real, stage: nat)
    ensures Realized(entry, Rungs(entry, stage))
            == (if stage >= 1 then 0.1 * NetPct(entry, 1.1 * entry) else 0.0)
               + (if stage >= 2 then 0.45 * NetPct(entry, 1.15 * entry) else 0.0)
               + (if stage >= 3 then 0.225 * NetPct(entry, 1.25 * entry) else 0.0)
  {
    hide NetPct, Realized;
    RealizedNothing(entry);
    assert Rungs(entry, 0) == [];
    if stage >= 1 {
      RealizedSnoc(entry, [], 0.1, 1.1 * entry);
      assert Rungs(entry, 1) == [] + [Leg(0.1, 1.1 * entry)];
    }
    if stage >= 2 {
      RealizedSnoc(entry, Rungs(entry, 1), 0.45, 1.15 * entry);
      assert Rungs(entry, 2) == Rungs(entry, 1) + [Leg(0.45, 1.15 * entry)];
    }
    if stage >= 3 {
      RealizedSnoc(entry, Rungs(entry, 2), 0.225, 1.25 * entry);
      assert Rungs(entry, 3) == Rungs(entry, 2) + [Leg(0.225, 1.25 * entry)];
      assert Rungs(entry, stage) == Rungs(entry, 3);
    }
  }

  lemma SaleNets(entry: real, stage: nat, price: real)
    ensures Realized(entry, Sale(entry, stage, price)) == NetPaid(entry, stage, price)
  {
    hide NetPct, Realized, Rungs;
    RungsNet(entry, stage);
    RealizedSnoc(entry, Rungs(entry, stage), Rest(stage), price);
  }

  lemma StopByPlan(entry: real, stopPrice: Option<real>)
    ensures StopLine(entry, stopPrice) == PlannedStop(entry, stopPrice)
  {
  }

  /** For every history and entry: the position ends on the first bar that is not quiet, for that bar's reason,
      at that reason's price; without one, at the last close of 20 days; and what is reported is the date and
      age of that bar and what rungs and rest net there. */
  lemma ReportByTable(bars: seq<Bar>, entryIdx: nat, entry: real, stopPrice: Option<real>, skip: bool)
    returns (last: nat)
    requires entry > 0.0
    ensures var first := if skip then entryIdx + 1 else entryIdx;
            var end := if entryIdx + 20 <= |bars| then entryIdx + 20 else |bars|;
            var stop := PlannedStop(entry, stopPrice);
            var report := Report(bars, entryIdx, entry, Simulate(bars, entryIdx, entry, stopPrice, skip));
            if end <= first then report == None
            else
              && first <= last <= end && (forall j :: first <= j < last ==> Quiet(bars, first, j, entry, stop))
              && if last < end then
                   var e := EndOn(bars, first, last, entry, stop);
                   && !Quiet(bars, first, last, entry, stop)
                   && report == Some(Exit(bars[last].date, last - entryIdx, NetPaid(entry, e.stage, e.price), e.reason))
                 else if bars[end - 1].close.None? then report == None
                 else
                   var stage := StageOf(entry, HighSince(bars, first, end, entry));
                   report == Some(Exit(bars[end - 1].date, end - 1 - entryIdx,
                                       NetPaid(entry, stage, bars[end - 1].close.value), MaxHolding))
  {
    hide Quiet, EndOn, Scan, NetPaid, NetPct, Realized, StageOf, Rungs, Rest;
    var first := if skip then entryIdx + 1 else entryIdx;
    var end := if entryIdx + 20 <= |bars| then entryIdx + 20 else |bars|;
    var stop := PlannedStop(entry, stopPrice);
    StopByPlan(entry, stopPrice);
    last := first;
    if first < end {
      StartsAtEntry(entry);
      last := ScanByTable(bars, first, first, end, entry, stop);
      if last < end {
        var e := EndOn(bars, first, last, entry, stop);
        SaleNets(entry, e.stage, e.price);
      } else if bars[end - 1].close.Some? {
        SaleNets(entry, StageOf(entry, HighSince(bars, first, end, entry)), bars[end - 1].close.value);
      }
    } else {
      NothingToScan(bars, first, end, entry, stop);
    }
  }

  lemma StartsAtEntry(entry: real)
    requires entry > 0.0
    ensures Opening(entry) == StateAt(entry, entry)
  {
  }

  lemma NothingToScan(bars: seq<Bar>, first: nat, end: nat, entry: real, stop: real)
    requires entry > 0.0 && end <= first && end <= |bars|
    ensures Scan(bars, first, end, entry, stop, Opening(entry)).StillOpen?
  {
  }

  /** Whole-won rounding moves the result by at most a won and a half, and the cost it is a percentage of by at
      most half a won. */
  lemma RoundingMovesLittle(entry: real, price: real) returns (cost: real)
    requires entry > 0.0 && price >= 0.0
    ensures cost > 0.0 && Abs(cost - 1000.140527 * entry) <= 0.5
    ensures Abs(NetPct(entry, price) * cost / 100.0 - (997.869473 * price - 1000.140527 * entry)) <= 1.5
  {
    cost := 1000.0 * entry + Fees.WonBuyFee(1000.0 * entry) as real;
    var pnl := Fees.WonNetPnl(entry, price, 1000) as real;
    assert NetPct(entry, price) == pnl / cost * 100.0;
    assert pnl / cost * cost == pnl;
    NetWithinAWonAndAHalf(entry, price);
  }

  lemma NetWithinAWonAndAHalf(entry: real, price: real)
    requires entry >= 0.0 && price >= 0.0
    ensures Abs(Fees.WonNetPnl(entry, price, 1000) as real - (997.869473 * price - 1000.140527 * entry)) <= 1.5
  {
  }
}
