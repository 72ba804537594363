/** Both arms of the gate study read off the bars: on which bar each ends, at what price, and what it reports. */
module GateTable {
  import opened Basics
  import opened Market
  import opened Exits
  import opened Sums
  import ChannelGate
  import EngineGate

  /** The highest price from entry through the bars `first` to `k - 1`. */
  function HighSince(bars: seq<Bar>, first: nat, k: nat, entry: real): (high: real)
    requires k <= |bars|
    ensures high >= entry
    decreases k
  {
    if k <= first then entry
    else
      var before := HighSince(bars, first, k - 1, entry);
      if bars[k - 1].high > before then bars[k - 1].high else before
  }

  // ---- the channel arm ----------------------------------------------------------------------------------------

  /** The channel of a bar: the 20-day low once the price has been 30 per cent up, that bar included. */
  function ChannelOf(bars: seq<Bar>, first: nat, k: nat, entry: real): Option<real>
    requires k < |bars|
  {
    if HighSince(bars, first, k + 1, entry) >= 1.3 * entry then bars[k].low20 else bars[k].low10
  }

  /** The stop in force on bar `k`: 4 per cent below the entry, raised to just under each channel since. */
  function StopOn(bars: seq<Bar>, first: nat, k: nat, entry: real): real
    requires k <= |bars|
    decreases k
  {
    if k <= first then 0.96 * entry
    else
      var before := StopOn(bars, first, k - 1, entry);
      match ChannelOf(bars, first, k - 1, entry)
      case None => before
      case Some(low) => Max(before, 0.999 * Max(low, before))
  }

  predicate ChannelQuiet(bars: seq<Bar>, first: nat, k: nat, entry: real)
    requires k < |bars|
  {
    var stop := StopOn(bars, first, k, entry);
    && bars[k].open > stop && bars[k].low > stop
    && (ChannelOf(bars, first, k, entry).Some? ==>
          bars[k].close >= stop && bars[k].close >= ChannelOf(bars, first, k, entry).value)
  }

  /** A gap sells at the open, a touch at the stop, a close under the channel at the close. */
  function ChannelPrice(bars: seq<Bar>, first: nat, k: nat, entry: real): real
    requires k < |bars|
  {
    var stop := StopOn(bars, first, k, entry);
    if bars[k].open <= stop then bars[k].open else if bars[k].low <= stop then stop else bars[k].close
  }

  lemma ChannelBarByTable(bars: seq<Bar>, first: nat, k: nat, entry: real)
    requires first <= k < |bars| && entry > 0.0
    ensures var s := ChannelState(StopOn(bars, first, k, entry), HighSince(bars, first, k, entry) >= 1.3 * entry);
            var out := ChannelStep(entry, s, bars[k]);
            && (out.hit.None? <==> ChannelQuiet(bars, first, k, entry))
            && (out.hit.Some? ==> out.hit.value.price == ChannelPrice(bars, first, k, entry))
            && (out.hit.None? ==>
                  out.state == ChannelState(StopOn(bars, first, k + 1, entry),
                                            HighSince(bars, first, k + 1, entry) >= 1.3 * entry))
  {
  }

  lemma {:induction false} ChannelWalkByTable(bars: seq<Bar>, first: nat, k: nat, entry: real) returns (last: nat)
    requires first <= k <= |bars| && entry > 0.0
    requires forall j :: first <= j < k ==> ChannelQuiet(bars, first, j, entry)
    ensures k <= last <= |bars| && forall j :: first <= j < last ==> ChannelQuiet(bars, first, j, entry)
    ensures last < |bars| ==> !ChannelQuiet(bars, first, last, entry)
    ensures var s := ChannelState(StopOn(bars, first, k, entry), HighSince(bars, first, k, entry) >= 1.3 * entry);
            var walk := ChannelGate.ChannelWalk(bars, entry, k, s);
            if last < |bars| then walk.Some? && walk.value.index == last
                                  && walk.value.price == ChannelPrice(bars, first, last, entry)
            else walk.None?
    decreases |bars| - k
  {
    hide ChannelStep, ChannelQuiet, ChannelPrice, StopOn, HighSince;
    last := k;
    if k < |bars| {
      ChannelBarByTable(bars, first, k, entry);
      if ChannelQuiet(bars, first, k, entry) { last := ChannelWalkByTable(bars, first, k + 1, entry); }
    }
  }

  lemma ChannelStart(bars: seq<Bar>, first: nat, entry: real)
    requires first <= |bars| && entry > 0.0
    ensures ChannelState(ChannelGate.GateStop(entry), false)
            == ChannelState(StopOn(bars, first, first, entry), HighSince(bars, first, first, entry) >= 1.3 * entry)
  {
  }

  lemma QuotientTimes(y: real, d: real)
    requires d != 0.0
    ensures y / d * d == y
  {
  }

  /** What a price nets: its change from the entry in per cent, less 0.6. */
  lemma NetTimesEntry(entry: real, price: real)
    requires entry > 0.0
    ensures (ChannelGate.NetPct(entry, price) + 0.6) * entry == (price - entry) * 100.0
  {
    QuotientTimes(price - entry, entry);
    var change := (price - entry) / entry;
    assert ChannelGate.NetPct(entry, price) + 0.6 == change * 100.0;
    assert change * 100.0 * entry == change * entry * 100.0;
  }

  /** The channel arm ends on the first bar after the entry that is not quiet, at that bar's price, and at the
      last close of the data without one; it reports the change from the entry in per cent, less 0.6. */
  lemma ChannelArmByTable(bars: seq<Bar>, ei: nat, entry: real) returns (last: nat)
    requires ei < |bars| && entry > 0.0
    ensures var first := ei + 1;
            first <= last <= |bars| && forall j :: first <= j < last ==> ChannelQuiet(bars, first, j, entry)
    ensures last < |bars| ==> !ChannelQuiet(bars, ei + 1, last, entry)
    ensures var price := if last < |bars| then ChannelPrice(bars, ei + 1, last, entry) else bars[|bars| - 1].close;
            && ChannelGate.GatePrice(bars, entry, ei) == price
            && (ChannelGate.NetPct(entry, price) + 0.6) * entry == (price - entry) * 100.0
  {
    hide ChannelGate.ChannelWalk, ChannelQuiet, ChannelPrice, StopOn, HighSince, ChannelGate.NetPct;
    ChannelStart(bars, ei + 1, entry);
    last := ChannelWalkByTable(bars, ei + 1, ei + 1, entry);
    NetTimesEntry(entry, ChannelGate.GatePrice(bars, entry, ei));
  }

  // ---- the comparison arm -------------------------------------------------------------------------------------

  function StageOf(entry: real, high: real): nat {
    if high >= 1.25 * entry then 3 else if high >= 1.15 * entry then 2 else if high >= 1.1 * entry then 1 else 0
  }

  function RestOf(stage: nat): real {
    if stage == 0 then 1.0 else if stage == 1 then 0.9 else if stage == 2 then 0.45 else 0.225
  }

  /** What the rungs have brought, in per cent of the position: a tenth at 10, 45 per cent at 15, 22.5 at 25. */
  function RungGain(stage: nat): real {
    (if stage >= 1 then 1.0 else 0.0) + (if stage >= 2 then 6.75 else 0.0) + (if stage >= 3 then 5.625 else 0.0)
  }

  predicate EngineQuiet(bars: seq<Bar>, first: nat, k: nat, entry: real)
    requires k < |bars|
  {
    var high := HighSince(bars, first, k + 1, entry);
    && bars[k].open > 0.96 * entry && bars[k].low > 0.96 * entry
    && !(high >= 1.05 * entry && bars[k].low <= 0.955 * high)
  }

  /** A stop goes before the rungs of the day, the trailing line after them. */
  function EngineStage(bars: seq<Bar>, first: nat, k: nat, entry: real): nat
    requires k < |bars|
  {
    if bars[k].open <= 0.96 * entry || bars[k].low <= 0.96 * entry
    then StageOf(entry, HighSince(bars, first, k, entry)) else StageOf(entry, HighSince(bars, first, k + 1, entry))
  }

  function EnginePrice(bars: seq<Bar>, first: nat, k: nat, entry: real): real
    requires k < |bars|
  {
    if bars[k].open <= 0.96 * entry then bars[k].open
    else if bars[k].low <= 0.96 * entry then 0.96 * entry
    else Max(0.955 * HighSince(bars, first, k + 1, entry), 0.96 * entry)
  }

  function RungLegs(entry: real, stage: nat): seq<EngineGate.Leg> {
    (if stage >= 1 then [EngineGate.Leg(0.1, 1.1 * entry)] else [])
    + (if stage >= 2 then [EngineGate.Leg(0.45, 1.15 * entry)] else [])
    + (if stage >= 3 then [EngineGate.Leg(0.225, 1.25 * entry)] else [])
  }

  function Sale(entry: real, stage: nat, price: real): seq<EngineGate.Leg> {
    RungLegs(entry, stage) + [EngineGate.Leg(RestOf(stage), price)]
  }

  function StateAt(entry: real, high: real): EngineGate.State {
    EngineGate.State(RestOf(StageOf(entry, high)), StageOf(entry, high), high, RungLegs(entry, StageOf(entry, high)))
  }

  lemma ClimbByHigh(entry: real, before: real, high: real)
    requires entry > 0.0 && before >= entry
    ensures EngineGate.Climb(entry, high, StateAt(entry, before).(highest := Max(before, high)))
            == StateAt(entry, Max(before, high))
  {
    var w := StateAt(entry, before).(highest := Max(before, high));
    var s1 := EngineGate.Rung(entry, high, w, 1.10, 0.10, 1);
    assert s1.stage == (if high >= 1.1 * entry && w.stage < 1 then 1 else w.stage);
    assert s1.remaining == RestOf(s1.stage) && s1.legs == RungLegs(entry, s1.stage);
    var s2 := EngineGate.Rung(entry, high, s1, 1.15, 0.50, 2);
    assert s2.stage == (if high >= 1.15 * entry && s1.stage < 2 then 2 else s1.stage);
    assert s2.remaining == RestOf(s2.stage) && s2.legs == RungLegs(entry, s2.stage);
  }

  lemma EngineBarByTable(bars: seq<Bar>, first: nat, k: nat, entry: real)
    requires first <= k < |bars| && entry > 0.0
    ensures var (out, next) := EngineGate.OneBar(entry, 0.96 * entry, bars[k],
                                                 StateAt(entry, HighSince(bars, first, k, entry)));
            if EngineQuiet(bars, first, k, entry) then
              out.None? && next == StateAt(entry, HighSince(bars, first, k + 1, entry))
            else
              && out.Some? && out.value.legs == Sale(entry, EngineStage(bars, first, k, entry),
                                                     EnginePrice(bars, first, k, entry))
              && (out.value.gapped <==> bars[k].open <= 0.96 * entry)
  {
    hide EngineGate.Climb, RungLegs;
    ClimbByHigh(entry, HighSince(bars, first, k, entry), bars[k].high);
    assert HighSince(bars, first, k + 1, entry) == Max(HighSince(bars, first, k, entry), bars[k].high);
  }

  lemma {:induction false} EngineWalkByTable(bars: seq<Bar>, first: nat, k: nat, end: nat, entry: real)
    returns (last: nat)
    requires first <= k <= end + 1 && end < |bars| && entry > 0.0
    requires forall j :: first <= j < k ==> EngineQuiet(bars, first, j, entry)
    ensures k <= last <= end + 1 && forall j :: first <= j < last ==> EngineQuiet(bars, first, j, entry)
    ensures last <= end ==> !EngineQuiet(bars, first, last, entry)
    ensures EngineGate.Walk(bars, k, end, entry, 0.96 * entry, StateAt(entry, HighSince(bars, first, k, entry))).legs
            == if last <= end then Sale(entry, EngineStage(bars, first, last, entry),
                                        EnginePrice(bars, first, last, entry))
               else Sale(entry, StageOf(entry, HighSince(bars, first, end + 1, entry)), bars[end].close)
    ensures EngineGate.Walk(bars, k, end, entry, 0.96 * entry, StateAt(entry, HighSince(bars, first, k, entry))).gapped
            <==> last <= end && bars[last].open <= 0.96 * entry
    decreases end + 1 - k
  {
    hide EngineGate.OneBar, EngineQuiet, EngineStage, EnginePrice, RungLegs, HighSince;
    last := k;
    if k <= end {
      EngineBarByTable(bars, first, k, entry);
      if EngineQuiet(bars, first, k, entry) { last := EngineWalkByTable(bars, first, k + 1, end, entry); }
    }
  }

  lemma GainIs(entry: real, fraction: real, price: real)
    requires entry > 0.0
    ensures fraction * (price - entry) / entry * 100.0 * entry == fraction * (price - entry) * 100.0
  {
    var y := fraction * (price - entry);
    QuotientTimes(y, entry);
    var x := y / entry;
    assert x * 100.0 * entry == x * entry * 100.0;
  }

  lemma RungGainIs(entry: real, fraction: real, pct: real)
    requires entry > 0.0
    ensures fraction * ((1.0 + pct / 100.0) * entry - entry) / entry * 100.0 == fraction * pct
  {
    var y := fraction * ((1.0 + pct / 100.0) * entry - entry);
    assert y == fraction * pct / 100.0 * entry;
    EngineGate.CancelDivision(fraction * pct / 100.0, entry);
  }

  lemma RungsGain(entry: real, stage: nat)
    requires entry > 0.0
    ensures EngineGate.Gains(entry, RungLegs(entry, stage)) == RungGain(stage)
  {
    hide EngineGate.Gains;
    EngineGate.NoGains(entry);
    assert RungLegs(entry, 0) == [];
    RungGainIs(entry, 0.1, 10.0);
    RungGainIs(entry, 0.45, 15.0);
    RungGainIs(entry, 0.225, 25.0);
    EngineGate.GainsSnoc(entry, [], 0.1, 1.1 * entry);
    assert RungLegs(entry, 1) == [] + [EngineGate.Leg(0.1, 1.1 * entry)];
    EngineGate.GainsSnoc(entry, RungLegs(entry, 1), 0.45, 1.15 * entry);
    assert RungLegs(entry, 2) == RungLegs(entry, 1) + [EngineGate.Leg(0.45, 1.15 * entry)];
    EngineGate.GainsSnoc(entry, RungLegs(entry, 2), 0.225, 1.25 * entry);
    assert RungLegs(entry, 3) == RungLegs(entry, 2) + [EngineGate.Leg(0.225, 1.25 * entry)];
    assert stage >= 3 ==> RungLegs(entry, stage) == RungLegs(entry, 3);
  }

  /** The comparison arm ends on the first of at most 20 bars that is not quiet, at that bar's price, and at the
      close of the last of them without one; it reports what its rungs have brought and the change of the rest,
      less 0.6. */
  lemma EngineArmByTable(bars: seq<Bar>, ei: nat, entry: real) returns (last: nat)
    requires ei < |bars| && entry > 0.0
    ensures var first := ei + 1; var end := if ei + 20 < |bars| then ei + 20 else |bars| - 1;
            && first <= last <= end + 1 && (forall j :: first <= j < last ==> EngineQuiet(bars, first, j, entry))
            && (last <= end ==> !EngineQuiet(bars, first, last, entry))
            && var price := if last <= end then EnginePrice(bars, first, last, entry) else bars[end].close;
            var stage := if last <= end then EngineStage(bars, first, last, entry)
                         else StageOf(entry, HighSince(bars, first, end + 1, entry));
            var net := EngineGate.Gains(entry, EngineGate.Simulate(bars, ei, entry).legs) - ChannelGate.FEE_RT;
            && (net + 0.6 - RungGain(stage)) * entry == RestOf(stage) * (price - entry) * 100.0
            && (EngineGate.Simulate(bars, ei, entry).gapped <==> last <= end && bars[last].open <= 0.96 * entry)
  {
    hide EngineGate.Walk, EngineQuiet, EngineStage, EnginePrice, RungLegs, RestOf, StageOf, RungGain, EngineGate.Gains;
    var end := if ei + 20 < |bars| then ei + 20 else |bars| - 1;
    StartsFlat(bars, ei + 1, entry);
    last := EngineWalkByTable(bars, ei + 1, ei + 1, end, entry);
    var price := if last <= end then EnginePrice(bars, ei + 1, last, entry) else bars[end].close;
    var stage := if last <= end then EngineStage(bars, ei + 1, last, entry)
                 else StageOf(entry, HighSince(bars, ei + 1, end + 1, entry));
    RungsGain(entry, stage);
    EngineGate.GainsSnoc(entry, RungLegs(entry, stage), RestOf(stage), price);
    GainIs(entry, RestOf(stage), price);
  }

  lemma StartsFlat(bars: seq<Bar>, first: nat, entry: real)
    requires first <= |bars| && entry > 0.0
    ensures StateAt(entry, HighSince(bars, first, first, entry)) == EngineGate.State(1.0, 0, entry, [])
  {
  }
}
