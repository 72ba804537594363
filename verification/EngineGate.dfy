/** The gate study's comparison arm: fractional take-profits, a trailing stop and a 20-day limit, with
    the same four per cent at risk as the channel arm. */
module EngineGate {
  import opened Basics
  import opened Market
  import opened Sums
  import ChannelGate

  datatype Leg = Leg(fraction: real, price: real)

  datatype State = State(remaining: real, stage: nat, highest: real, legs: seq<Leg>)

  /** What was sold in all, and whether a bar opened through the stop. */
  datatype Outcome = Outcome(legs: seq<Leg>, gapped: bool)

  function Gain(entry: real, leg: Leg): real
    requires entry != 0.0
  {
    leg.fraction * (leg.price - entry) / entry * 100.0
  }

  function Gains(entry: real, legs: seq<Leg>): real
    requires entry != 0.0
  {
    Sum(legs, (l: Leg) => Gain(entry, l))
  }

  function Weights(legs: seq<Leg>): real {
    Sum(legs, (l: Leg) => l.fraction)
  }

  function Rung(entry: real, high: real, s: State, target: real, ratio: real, stage: nat): State {
    if s.stage < stage && high >= entry * target && s.remaining > 0.0 then
      var wanted := if stage > 1 then s.remaining * ratio else 0.10;
      var sold := Min(wanted, s.remaining);
      s.(remaining := s.remaining - sold, stage := stage, legs := s.legs + [Leg(sold, entry * target)])
    else s
  }

  function Climb(entry: real, high: real, s: State): State {
    Rung(entry, high, Rung(entry, high, Rung(entry, high, s, 1.10, 0.10, 1), 1.15, 0.50, 2), 1.25, 0.50, 3)
  }

  function Rest(s: State, price: real, gapped: bool): Outcome {
    Outcome(s.legs + [Leg(s.remaining, price)], gapped)
  }

  function LastDay(bars: seq<Bar>, ei: nat): int {
    if ei + 20 <= |bars| - 1 then ei + 20 else |bars| - 1
  }

  /** One bar: the stop, then the rungs, then the trailing line. */
  function OneBar(entry: real, stop: real, bar: Bar, s: State): (Option<Outcome>, State) {
    if bar.open <= stop then (Some(Rest(s, bar.open, true)), s)
    else if bar.low <= stop then (Some(Rest(s, stop, false)), s)
    else
      var c := Climb(entry, bar.high, s.(highest := Max(s.highest, bar.high)));
      var trail := c.highest * 0.955;
      if c.highest >= entry * 1.05 && c.remaining > 0.0 && bar.low <= trail
      then (Some(Rest(c, Max(trail, stop), false)), c)
      else (None, c)
  }

  function Walk(bars: seq<Bar>, j: nat, end: nat, entry: real, stop: real, s: State): Outcome
    requires end < |bars|
    decreases end + 1 - j
  {
    if j > end then (if s.remaining > 0.0 then Rest(s, bars[end].close, false) else Outcome(s.legs, false))
    else
      var (out, next) := OneBar(entry, stop, bars[j], s);
      if out.Some? then out.value else Walk(bars, j + 1, end, entry, stop, next)
  }

  function Simulate(bars: seq<Bar>, ei: nat, entry: real): Outcome
    requires ei < |bars|
  {
    Walk(bars, ei + 1, LastDay(bars, ei), entry, entry * 0.96, State(1.0, 0, entry, []))
  }

  lemma GainsSnoc(entry: real, legs: seq<Leg>, fraction: real, price: real)
    requires entry != 0.0
    ensures Gains(entry, legs + [Leg(fraction, price)])
            == Gains(entry, legs) + fraction * (price - entry) / entry * 100.0
  {
    SumSnoc(legs, Leg(fraction, price), (l: Leg) => Gain(entry, l));
  }

  method ClimbRungs(entry: real, high: real, remaining0: real, realized0: real, stage0: nat,
                    ghost highest: real, ghost legs0: seq<Leg>)
    returns (remaining: real, realized: real, stage: nat, ghost legs: seq<Leg>)
    requires entry > 0.0 && realized0 == Gains(entry, legs0)
    ensures realized == Gains(entry, legs)
    ensures State(remaining, stage, highest, legs) == Climb(entry, high, State(remaining0, stage0, highest, legs0))
  {
    hide Gains;
    remaining, realized, stage, legs := remaining0, realized0, stage0, legs0;
    var rungs := [(1.10, 0.10, 1), (1.15, 0.50, 2), (1.25, 0.50, 3)];
    ghost var s0 := State(remaining0, stage0, highest, legs0);
    ghost var s1 := Rung(entry, high, s0, 1.10, 0.10, 1);
    ghost var s2 := Rung(entry, high, s1, 1.15, 0.50, 2);
    ghost var steps := [s0, s1, s2, Rung(entry, high, s2, 1.25, 0.50, 3)];
    for k := 0 to 3
      invariant realized == Gains(entry, legs)
      invariant State(remaining, stage, highest, legs) == steps[k]
    {
      var (target, ratio, stageNo) := rungs[k];
      if stage < stageNo && high >= entry * target && remaining > 0.0 {
        var sell := if stageNo > 1 then remaining * ratio else 0.10;
        sell := Min(sell, remaining);
        var price := entry * target;
        GainsSnoc(entry, legs, sell, price);
        realized := realized + sell * (price - entry) / entry * 100.0;
        legs := legs + [Leg(sell, price)];
        remaining := remaining - sell;
        stage := stageNo;
      }
      assert steps[k + 1] == Rung(entry, high, steps[k], target, ratio, stageNo);
    }
  }

  /** simulate_exit_engine, against the walk. */
  method SimulateExitEngine(bars: seq<Bar>, ei: nat, entry: real) returns (netPct: real)
    requires ei < |bars| && entry > 0.0
    ensures netPct == Gains(entry, Simulate(bars, ei, entry).legs) - ChannelGate.FEE_RT
  {
    hide Gains, Climb;
    var stop := entry * 0.96;
    var remaining, realized, stage, highest := 1.0, 0.0, 0, entry;
    ghost var legs: seq<Leg> := [];
    assert Gains(entry, []) == 0.0 by { NoGains(entry); }
    var end := LastDay(bars, ei);
    var j := ei + 1;
    while j <= end
      invariant ei + 1 <= j <= end + 1
      invariant realized == Gains(entry, legs)
      invariant Simulate(bars, ei, entry) == Walk(bars, j, end, entry, stop, State(remaining, stage, highest, legs))
      decreases end + 1 - j
    {
      var bar := bars[j];
      ghost var s := State(remaining, stage, highest, legs);
      if bar.open <= stop || bar.low <= stop {
        var px := if bar.open <= stop then bar.open else stop;
        GainsSnoc(entry, legs, remaining, px);
        realized := realized + remaining * (px - entry) / entry * 100.0;
        legs := legs + [Leg(remaining, px)];
        assert Walk(bars, j, end, entry, stop, s).legs == legs;
        return realized - ChannelGate.FEE_RT;
      }
      highest := Max(highest, bar.high);
      remaining, realized, stage, legs := ClimbRungs(entry, bar.high, remaining, realized, stage, highest, legs);
      if highest >= entry * 1.05 && remaining > 0.0 {
        var trail := highest * 0.955;
        if bar.low <= trail {
          var px := Max(trail, stop);
          ghost var c := State(remaining, stage, highest, legs);
          GainsSnoc(entry, legs, remaining, px);
          realized := realized + remaining * (px - entry) / entry * 100.0;
          legs := legs + [Leg(remaining, px)];
          assert Walk(bars, j, end, entry, stop, s).legs == legs;
          return realized - ChannelGate.FEE_RT;
        }
      }
      j := j + 1;
    }
    ghost var s := State(remaining, stage, highest, legs);
    if remaining > 0.0 {
      var close := bars[end].close;
      GainsSnoc(entry, legs, remaining, close);
      realized := realized + remaining * (close - entry) / entry * 100.0;
      legs := legs + [Leg(remaining, close)];
    }
    assert Walk(bars, j, end, entry, stop, s).legs == legs;
    netPct := realized - ChannelGate.FEE_RT;
  }

  lemma NoGains(entry: real)
    requires entry != 0.0
    ensures Gains(entry, []) == 0.0
  {
  }

  // ---- every position is sold once, at no less than the stop ------------------------------------------

  function RemainingAt(stage: nat): real {
    if stage == 0 then 1.0 else if stage == 1 then 0.9 else if stage == 2 then 0.45 else 0.225
  }

  ghost predicate LegsAbove(legs: seq<Leg>, floor: real) {
    forall i :: 0 <= i < |legs| ==> legs[i].fraction > 0.0 && legs[i].price >= floor
  }

  /** Between bars: what is left follows from the stage, and what was sold went above the stop. */
  ghost predicate Between(entry: real, s: State) {
    && s.stage <= 3 && s.remaining == RemainingAt(s.stage)
    && Weights(s.legs) + s.remaining == 1.0
    && LegsAbove(s.legs, entry * 0.96)
  }

  ghost predicate Complete(entry: real, o: Outcome) {
    Weights(o.legs) == 1.0 && (o.gapped || LegsAbove(o.legs, entry * 0.96))
  }

  lemma WeightsSnoc(legs: seq<Leg>, leg: Leg)
    ensures Weights(legs + [leg]) == Weights(legs) + leg.fraction
  {
    SumSnoc(legs, leg, (l: Leg) => l.fraction);
  }

  lemma RungKeeps(entry: real, high: real, s: State, target: real, ratio: real, stage: nat)
    requires entry > 0.0 && Between(entry, s)
    requires (target, ratio, stage) == (1.10, 0.10, 1) || (target, ratio, stage) == (1.15, 0.50, 2)
             || (target, ratio, stage) == (1.25, 0.50, 3)
    requires high >= entry * target ==> s.stage >= stage - 1
    ensures Between(entry, Rung(entry, high, s, target, ratio, stage))
    ensures high >= entry * target ==> Rung(entry, high, s, target, ratio, stage).stage >= stage
    ensures Rung(entry, high, s, target, ratio, stage).highest == s.highest
  {
    hide Weights;
    var wanted := if stage > 1 then s.remaining * ratio else 0.10;
    WeightsSnoc(s.legs, Leg(Min(wanted, s.remaining), entry * target));
  }

  lemma ClimbKeeps(entry: real, high: real, s: State)
    requires entry > 0.0 && Between(entry, s)
    ensures Between(entry, Climb(entry, high, s)) && Climb(entry, high, s).highest == s.highest
  {
    hide Between, Rung;
    RungKeeps(entry, high, s, 1.10, 0.10, 1);
    var s1 := Rung(entry, high, s, 1.10, 0.10, 1);
    RungKeeps(entry, high, s1, 1.15, 0.50, 2);
    RungKeeps(entry, high, Rung(entry, high, s1, 1.15, 0.50, 2), 1.25, 0.50, 3);
  }

  lemma RestCompletes(entry: real, s: State, price: real, gapped: bool)
    requires Between(entry, s) && (gapped || price >= entry * 0.96)
    ensures Complete(entry, Rest(s, price, gapped))
  {
    hide Weights;
    WeightsSnoc(s.legs, Leg(s.remaining, price));
  }

  lemma {:induction false} WalkCompletes(bars: seq<Bar>, j: nat, end: nat, entry: real, s: State)
    requires end < |bars| && entry > 0.0 && Between(entry, s)
    requires j <= end || bars[end].close >= entry * 0.96
    requires forall i :: j <= i <= end ==> ChannelGate.WellFormed(bars[i])
    ensures Complete(entry, Walk(bars, j, end, entry, entry * 0.96, s))
    decreases end + 1 - j
  {
    hide Weights, Climb, LegsAbove;
    var stop := entry * 0.96;
    if j > end {
      RestCompletes(entry, s, bars[end].close, false);
    } else {
      var bar := bars[j];
      if bar.open <= stop {
        RestCompletes(entry, s, bar.open, true);
      } else if bar.low <= stop {
        RestCompletes(entry, s, stop, false);
      } else {
        var c := Climb(entry, bar.high, s.(highest := Max(s.highest, bar.high)));
        ClimbKeeps(entry, bar.high, s.(highest := Max(s.highest, bar.high)));
        var trail := c.highest * 0.955;
        if c.highest >= entry * 1.05 && bar.low <= trail {
          RestCompletes(entry, c, Max(trail, stop), false);
        } else {
          WalkCompletes(bars, j + 1, end, entry, c);
        }
      }
    }
  }

  lemma CancelDivision(y: real, d: real)
    requires d != 0.0
    ensures y * d / d == y
  {
  }

  lemma LegGain(entry: real, leg: Leg)
    requires entry > 0.0 && leg.fraction > 0.0 && leg.price >= entry * 0.96
    ensures Gain(entry, leg) >= -4.0 * leg.fraction
  {
    var change := (leg.price - entry) / entry;
    assert change * entry == leg.price - entry;
    assert change >= -0.04 by { if change < -0.04 { MulMono(change, -0.04, entry); } }
    MulMono(-0.04, change, leg.fraction);
    var y := leg.fraction * change;
    assert leg.fraction * (leg.price - entry) == y * entry by {
      assert leg.fraction * (change * entry) == (leg.fraction * change) * entry;
    }
    CancelDivision(y, entry);
    var d := leg.fraction * (leg.price - entry);
    assert d / entry == y;
    assert y >= -0.04 * leg.fraction;
    assert Gain(entry, leg) == d / entry * 100.0;
  }

  lemma {:induction false} GainsAtLeast(entry: real, legs: seq<Leg>)
    requires entry > 0.0 && LegsAbove(legs, entry * 0.96)
    ensures Gains(entry, legs) >= -4.0 * Weights(legs)
  {
    if legs == [] {
      NoGains(entry);
    } else {
      var init, last := legs[..|legs| - 1], legs[|legs| - 1];
      assert legs == init + [last];
      GainsAtLeast(entry, init);
      GainsSnoc(entry, init, last.fraction, last.price);
      WeightsSnoc(init, last);
      LegGain(entry, last);
    }
  }

  /** The comparison arm sells the whole position and, unless a bar opened through the stop, loses at most
      the same risk plus cost as the channel arm. */
  lemma SameRiskAsTheChannel(bars: seq<Bar>, ei: nat, entry: real)
    requires ei + 1 < |bars| && entry > 0.0
    requires forall i :: ei < i < |bars| ==> ChannelGate.WellFormed(bars[i])
    ensures var o := Simulate(bars, ei, entry);
            && Weights(o.legs) == 1.0
            && (o.gapped || Gains(entry, o.legs) - ChannelGate.FEE_RT >= -ChannelGate.RISK_PCT - ChannelGate.FEE_RT)
  {
    hide Gains, Walk;
    WalkCompletes(bars, ei + 1, LastDay(bars, ei), entry, State(1.0, 0, entry, []));
    var o := Simulate(bars, ei, entry);
    if !o.gapped { GainsAtLeast(entry, o.legs); }
  }
}
