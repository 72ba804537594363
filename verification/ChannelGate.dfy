/** The channel exit exists three times: as the gate study's own loop, as `channel_exit` called
    once a day, and inside `check_exit`.  They are one exit, and its stop is a ratchet. */
module ChannelGate {
  import opened Basics
  import opened Market
  import opened Config
  import opened Exits

  const RISK_PCT: real := 4.0
  const FEE_RT: real := 0.6

  /** Where a walk through the bars ended. */
  datatype ExitPoint = ExitPoint(index: int, price: real, reason: Reason)

  function GateStop(entry: real): real {
    entry * (1.0 - RISK_PCT / 100.0)
  }

  function NetPct(entry: real, price: real): real
    requires entry != 0.0
  {
    (price - entry) / entry * 100.0 - FEE_RT
  }

  /** `channel_exit` once per bar from `j` on, until it reports an exit. */
  function ChannelWalk(bars: seq<Bar>, entry: real, j: nat, s: ChannelState): Option<ExitPoint>
    decreases |bars| - j
  {
    if j >= |bars| then None
    else
      var out := ChannelStep(entry, s, bars[j]);
      match out.hit
      case Some(hit) => Some(ExitPoint(j, hit.price, hit.reason))
      case None => ChannelWalk(bars, entry, j + 1, out.state)
  }

  /** The price a position is closed at: the channel's, or the last close of the data. */
  function GatePrice(bars: seq<Bar>, entry: real, ei: nat): real
    requires bars != []
  {
    match ChannelWalk(bars, entry, ei + 1, ChannelState(GateStop(entry), false))
    case Some(point) => point.price
    case None => bars[|bars| - 1].close
  }

  /** simulate_exit of the gate study. Its own loop leaves at the bar and price at which calling
      `channel_exit` day by day, from a stop four percent below entry, would leave. */
  method SimulateExit(bars: seq<Bar>, ei: nat, entry: real) returns (netPct: real, ghost point: Option<ExitPoint>)
    requires ei < |bars| && entry > 0.0
    ensures point == ChannelWalk(bars, entry, ei + 1, ChannelState(GateStop(entry), false))
    ensures netPct == NetPct(entry, GatePrice(bars, entry, ei))
  {
    var stop := entry * (1.0 - RISK_PCT / 100.0);
    var runner := false;
    var n := |bars|;
    var exitPx := bars[n - 1].close;
    point := None;
    var j := ei + 1;
    while j < n
      invariant ei + 1 <= j <= n
      invariant point == None && exitPx == bars[n - 1].close
      invariant ChannelWalk(bars, entry, ei + 1, ChannelState(GateStop(entry), false))
             == ChannelWalk(bars, entry, j, ChannelState(stop, runner))
    {
      var bar := bars[j];
      if bar.open <= stop {
        exitPx := bar.open;
        point := Some(ExitPoint(j, exitPx, StopGap));
        break;
      }
      if bar.low <= stop {
        exitPx := stop;
        point := Some(ExitPoint(j, exitPx, StopHit));
        break;
      }
      if bar.high >= entry * 1.30 {
        runner := true;
      }
      var ch := if runner then bar.low20 else bar.low10;
      if ch.Some? {
        var floor := Max(ch.value, stop);
        if bar.close < floor {
          exitPx := bar.close;
          point := Some(ExitPoint(j, exitPx, ChannelBreak));
          break;
        }
        stop := Max(stop, floor * 0.999);
      }
      j := j + 1;
    }
    netPct := (exitPx - entry) / entry * 100.0 - FEE_RT;
  }

  // ---- the same exit inside check_exit ----------------------------------------------------------

  /** `check_exit` once per bar until it sells something. */
  function PositionWalk(rules: ExitRules, p: Pos, bars: seq<Bar>, j: nat, regime: Option<Regime>): Option<ExitPoint>
    decreases |bars| - j
  {
    if j >= |bars| then None
    else
      var v := CheckExit(rules, p, bars[j], regime);
      if v.actions != [] then Some(ExitPoint(j, v.actions[0].price, v.actions[0].reason))
      else PositionWalk(rules, v.pos, bars, j + 1, regime)
  }

  /** A channel position under the "none" holding policy, with no more days since its high than
      days held. */
  ghost predicate ChannelPosition(rules: ExitRules, p: Pos) {
    && rules.exitPolicy.Channel? && HoldingPolicyNone(rules)
    && !p.entry.strategy.Core? && p.remaining > 0
    && 0 <= p.daysSinceHigh <= p.holdingDays < 999
  }

  /** What `check_exit` does to a channel position on one bar: the channel's verdict first, and
      failing that only the 999-day limit. */
  lemma ChannelBar(rules: ExitRules, p: Pos, bar: Bar, regime: Option<Regime>)
    requires ChannelPosition(rules, p)
    ensures var v := CheckExit(rules, p, bar, regime);
      var out := ChannelStep(p.entry.price, ChannelState(p.stopPrice, p.runner), bar);
      && (out.hit.Some? ==> v.actions == [Action(p.remaining, out.hit.value.price, out.hit.value.reason)])
      && (out.hit.None? && p.holdingDays == 998 ==> v.actions == [Action(p.remaining, bar.close, MaxHolding)])
      && (out.hit.None? && p.holdingDays < 998 ==>
            && v.actions == [] && ChannelPosition(rules, v.pos)
            && v.pos.entry == p.entry && v.pos.holdingDays == p.holdingDays + 1
            && v.pos.stopPrice == out.state.stop && v.pos.runner == out.state.runner)
  {
    hide ChannelStep;
    var seen := Observe(p, bar);
    var out := ChannelStep(p.entry.price, ChannelState(p.stopPrice, p.runner), bar);
    HoldingNone(rules, seen.(stopPrice := out.state.stop, runner := out.state.runner), bar.close);
    forall a: Action
      ensures [] + [a] == [a]
    {
    }
  }

  lemma HoldingNone(rules: ExitRules, p: Pos, close: real)
    requires HoldingPolicyNone(rules) && p.daysSinceHigh <= p.holdingDays
    ensures p.holdingDays < 999 ==> HoldingRules(rules, p, close, []) == Verdict(p, [])
    ensures p.holdingDays >= 999 ==>
      HoldingRules(rules, p, close, []).actions == [Action(p.remaining, close, MaxHolding)]
  {
    assert [] + [Action(p.remaining, close, MaxHolding)] == [Action(p.remaining, close, MaxHolding)];
  }

  /** Two channel exits are one, for any bars: `check_exit` leaves exactly where the channel walk
      leaves if that happens within the position's first 999 days, and at the close of day 999
      otherwise; on shorter data the two never differ. */
  lemma {:induction false} CheckExitIsChannelWalk(rules: ExitRules, p: Pos, bars: seq<Bar>, j: nat,
                                                  regime: Option<Regime>)
    requires ChannelPosition(rules, p)
    ensures var walk := ChannelWalk(bars, p.entry.price, j, ChannelState(p.stopPrice, p.runner));
      var limit := j + 998 - p.holdingDays;
      PositionWalk(rules, p, bars, j, regime)
        == if walk.Some? && walk.value.index <= limit then walk
           else if limit < |bars| then Some(ExitPoint(limit, bars[limit].close, MaxHolding))
           else None
    ensures |bars| - j < 999 - p.holdingDays ==>
      PositionWalk(rules, p, bars, j, regime)
      == ChannelWalk(bars, p.entry.price, j, ChannelState(p.stopPrice, p.runner))
    decreases |bars| - j
  {
    if j < |bars| {
      hide ChannelStep, CheckExit;
      ChannelBar(rules, p, bars[j], regime);
      WalkIndex(bars, p.entry.price, j, ChannelState(p.stopPrice, p.runner));
      var out := ChannelStep(p.entry.price, ChannelState(p.stopPrice, p.runner), bars[j]);
      WalkIndex(bars, p.entry.price, j + 1, out.state);
      if out.hit.None? && p.holdingDays < 998 {
        CheckExitIsChannelWalk(rules, CheckExit(rules, p, bars[j], regime).pos, bars, j + 1, regime);
      }
    }
  }

  lemma {:induction false} WalkIndex(bars: seq<Bar>, entry: real, j: nat, s: ChannelState)
    ensures var walk := ChannelWalk(bars, entry, j, s); walk.Some? ==> j <= walk.value.index < |bars|
    decreases |bars| - j
  {
    if j < |bars| {
      hide ChannelStep;
      WalkIndex(bars, entry, j + 1, ChannelStep(entry, s, bars[j]).state);
    }
  }

  // ---- the ratchet ------------------------------------------------------------------------------

  ghost predicate WellFormed(bar: Bar) {
    bar.low <= bar.open <= bar.high && bar.low <= bar.close <= bar.high
  }

  /** The channel state once bars `j` to `k - 1` have been survived. */
  function StateAfter(bars: seq<Bar>, entry: real, j: nat, s: ChannelState, k: nat): ChannelState
    requires j <= k <= |bars|
    decreases k - j
  {
    if j == k then s else StateAfter(bars, entry, j + 1, ChannelStep(entry, s, bars[j]).state, k)
  }

  /** No exit on bars `j` to `k - 1`. */
  ghost predicate Survives(bars: seq<Bar>, entry: real, j: nat, s: ChannelState, k: nat)
    requires j <= k <= |bars|
    decreases k - j
  {
    j == k || (ChannelStep(entry, s, bars[j]).hit.None?
               && Survives(bars, entry, j + 1, ChannelStep(entry, s, bars[j]).state, k))
  }

  /** One bar: the stop does not fall, whichever channel applies, and a surviving bar closes at or
      above it; an exit that is not a gap sells at or above the stop. */
  lemma StepRatchets(entry: real, s: ChannelState, bar: Bar)
    requires s.stop > 0.0 && WellFormed(bar)
    ensures var out := ChannelStep(entry, s, bar);
      && out.state.stop >= s.stop
      && (out.hit.None? ==> out.state.stop <= bar.close)
      && (out.hit.Some? && !out.hit.value.reason.StopGap? ==> out.hit.value.price >= s.stop)
      && (s.runner ==> out.state.runner)
  {
  }

  /** Over any run of well-formed bars the stop never falls, and it is at or below the close of
      every bar the position survives. */
  lemma {:induction false} StopNeverFalls(bars: seq<Bar>, entry: real, j: nat, s: ChannelState, k: nat)
    requires j <= k <= |bars| && s.stop > 0.0
    requires forall i :: j <= i < k ==> WellFormed(bars[i])
    requires Survives(bars, entry, j, s, k)
    ensures s.stop <= StateAfter(bars, entry, j, s, k).stop
    ensures k > j ==> StateAfter(bars, entry, j, s, k).stop <= bars[k - 1].close
    decreases k - j
  {
    if j < k {
      hide ChannelStep, WellFormed;
      StepRatchets(entry, s, bars[j]);
      StopNeverFalls(bars, entry, j + 1, ChannelStep(entry, s, bars[j]).state, k);
    }
  }

  /** Every exit except a gap-through sells at or above the initial stop, and if no exit comes the
      last close is at or above it. */
  lemma {:induction false} WalkAboveStop(bars: seq<Bar>, entry: real, j: nat, s: ChannelState)
    requires j < |bars| && s.stop > 0.0
    requires forall i :: j <= i < |bars| ==> WellFormed(bars[i])
    ensures match ChannelWalk(bars, entry, j, s)
      case Some(point) => point.reason.StopGap? || point.price >= s.stop
      case None => bars[|bars| - 1].close >= s.stop
    decreases |bars| - j
  {
    hide ChannelStep, WellFormed;
    StepRatchets(entry, s, bars[j]);
    if j + 1 < |bars| {
      WalkAboveStop(bars, entry, j + 1, ChannelStep(entry, s, bars[j]).state);
    }
  }

  lemma NetAtStop(entry: real, price: real)
    requires entry > 0.0 && price >= GateStop(entry)
    ensures NetPct(entry, price) >= -RISK_PCT - FEE_RT
  {
    var change := (price - entry) / entry;
    assert change * entry == price - entry;
    assert GateStop(entry) == entry * 0.96;
    assert change * entry >= -0.04 * entry;
    assert change >= -0.04;
  }

  /** With at least one later bar, the gate study's result is never worse than the risk plus the
      round-trip cost unless the exit gapped through the stop. */
  lemma LossIsBounded(bars: seq<Bar>, ei: nat, entry: real)
    requires ei + 1 < |bars| && entry > 0.0
    requires forall i :: ei < i < |bars| ==> WellFormed(bars[i])
    ensures var walk := ChannelWalk(bars, entry, ei + 1, ChannelState(GateStop(entry), false));
      (walk.Some? && walk.value.reason.StopGap?)
      || NetPct(entry, GatePrice(bars, entry, ei)) >= -RISK_PCT - FEE_RT
  {
    assert GateStop(entry) == entry * 0.96;
    WalkAboveStop(bars, entry, ei + 1, ChannelState(GateStop(entry), false));
    if GatePrice(bars, entry, ei) >= GateStop(entry) {
      NetAtStop(entry, GatePrice(bars, entry, ei));
    }
  }
}
