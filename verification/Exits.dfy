/** Exit decisions of the backtester: the ATR channel, the holding rules, and the ladder of
    partial exits.  The pure functions say what one daily bar does to a position; the class
    `BTPosition` and the methods of `BTExitManager` do it in place. */
module Exits {
  import opened Basics
  import opened Market
  import opened Config
  import Fees

  datatype Reason =
    | StopGap | StopHit | ChannelBreak | MaxHolding | Stale | TrendInvalid | StopLoss
    | Breakeven | FirstTarget | SecondTarget | ThirdTarget | TrailingStop
    | CompositeMa5 | CompositePrevLow | LowEfficiency | EndOfTest | EntryFill

  datatype Action = Action(qty: int, price: real, reason: Reason)

  /** What is fixed when a position is opened. */
  datatype Entry = Entry(symbol: string, strategy: Strategy, date: int, price: real, quantity: int,
                         costBasis: real, atrStopPct: real, atrPct: real, initialRisk: real)

  /** A position as a value. */
  datatype Pos = Pos(entry: Entry, remaining: int, stage: Stage, highest: real,
                     liveStopPct: real, regimeSeen: Option<Regime>, trailing: bool, breakeven: bool,
                     holdingDays: int, daysSinceHigh: int, stopPrice: real, runner: bool)

  /** The position after a bar, and what was sold. */
  datatype Verdict = Verdict(pos: Pos, actions: seq<Action>)

  // ---- channel policy -----------------------------------------------------------------------

  datatype ChannelState = ChannelState(stop: real, runner: bool)
  datatype ChannelHit = ChannelHit(price: real, reason: Reason)
  datatype ChannelOutcome = ChannelOutcome(state: ChannelState, hit: Option<ChannelHit>)

  /** One bar against the hard stop and the 10/20-day low channel. */
  function ChannelStep(entryPrice: real, s: ChannelState, bar: Bar): ChannelOutcome {
    if bar.open <= s.stop then ChannelOutcome(s, Some(ChannelHit(bar.open, StopGap)))
    else if bar.low <= s.stop then ChannelOutcome(s, Some(ChannelHit(s.stop, StopHit)))
    else
      var runner := s.runner || bar.high >= entryPrice * 1.30;
      match if runner then bar.low20 else bar.low10
      case None => ChannelOutcome(ChannelState(s.stop, runner), None)
      case Some(low) =>
        var channel := Max(low, s.stop);
        if bar.close < channel then
          ChannelOutcome(ChannelState(s.stop, runner), Some(ChannelHit(bar.close, ChannelBreak)))
        else
          ChannelOutcome(ChannelState(Max(s.stop, channel * 0.999), runner), None)
  }

  // ---- shared pieces ------------------------------------------------------------------------

  function SellOut(p: Pos, actions: seq<Action>, price: real, reason: Reason): Verdict {
    Verdict(p.(remaining := 0), actions + [Action(p.remaining, price, reason)])
  }

  /** The day's bookkeeping that precedes every check: peak, days since it, days held. */
  function Observe(p: Pos, bar: Bar): Pos {
    p.(highest := if bar.high > p.highest then bar.high else p.highest,
       daysSinceHigh := if bar.high > p.highest then 0 else p.daysSinceHigh + 1,
       holdingDays := p.holdingDays + 1)
  }

  function HoldingRules(rules: ExitRules, p: Pos, close: real, actions: seq<Action>): Verdict {
    var maxDays := if p.entry.strategy.Sepa? then rules.sepaMaxHoldingDays else rules.rsi2MaxHoldingDays;
    var pnl := Fees.NetPnlPct(p.entry.price, close, 1);
    if p.holdingDays >= maxDays then
      SellOut(p, actions, close, MaxHolding)
    else if p.holdingDays >= rules.staleExitDays && Abs(pnl) < rules.staleExitPnlPct then
      SellOut(p, actions, close, Stale)
    else if p.daysSinceHigh >= rules.staleHighDays && pnl < rules.staleHighMinPnlPct then
      SellOut(p, actions, close, TrendInvalid)
    else
      Verdict(p, actions)
  }

  // ---- ladder policy ------------------------------------------------------------------------

  function ActiveTargets(rules: ExitRules, p: Pos, regime: Option<Regime>): Option<RegimeTargets> {
    if regime.Some? && !p.entry.strategy.Core? && rules.regimeExit
    then Some(TargetsOf(regime.value)) else None
  }

  /** live_policy: a change of regime after the first one seen replaces the stop distance. */
  function TrackRegime(rules: ExitRules, p: Pos, regime: Option<Regime>): Pos {
    var targets := ActiveTargets(rules, p, regime);
    if p.entry.strategy.Core? || !rules.entryStopMode.LivePolicy? then p
    else if targets.Some? && regime != p.regimeSeen then
      p.(liveStopPct := if p.regimeSeen.Some? then targets.value.stopLossPct else p.liveStopPct,
         regimeSeen := regime)
    else p
  }

  /** The stop distance in force today. */
  function StopPct(rules: ExitRules, p: Pos, bar: Bar, targets: Option<RegimeTargets>): real {
    if p.entry.strategy.Core? then rules.coreStopLossPct
    else if rules.entryStopMode.LivePolicy? then
      if p.liveStopPct > 0.0 then p.liveStopPct else p.entry.atrStopPct
    else if bar.atrPct.Some? && bar.atrPct.value > 0.0 then
      Max(rules.minStopPct, Min(rules.maxStopPct, bar.atrPct.value * rules.atrMultiplier))
    else if targets.Some? then targets.value.stopLossPct
    else if p.entry.strategy.Sepa? then rules.sepaStopLossPct
    else rules.rsi2StopLossPct
  }

  function StopLevel(rules: ExitRules, p: Pos, bar: Bar, targets: Option<RegimeTargets>): real {
    p.entry.price * (1.0 - StopPct(rules, p, bar, targets) / 100.0)
  }

  function StopFill(stopPrice: real, open: real): real {
    if open > 0.0 then Min(open, stopPrice) else stopPrice
  }

  function Portion(remaining: int, ratio: real): int {
    var part := Trunc(remaining as real * ratio);
    if part >= 1 then part else 1
  }

  function TakePartial(p: Pos, ratio: real, next: Stage): Pos {
    p.(remaining := p.remaining - Portion(p.remaining, ratio), stage := next)
  }

  /** At most one rung of the ladder per bar. */
  function LadderRung(rules: ExitRules, p: Pos, bar: Bar, targets: Option<RegimeTargets>): Verdict {
    var gain := Fees.NetPnlPct(p.entry.price, bar.high, 1);
    var firstPct := if targets.Some? then targets.value.firstExitPct else rules.firstExitPct;
    var secondPct := if targets.Some? then targets.value.secondExitPct else rules.secondExitPct;
    var thirdPct := if targets.Some? then targets.value.thirdExitPct else rules.thirdExitPct;
    if p.stage.NoExit? && gain >= firstPct then
      Verdict(TakePartial(p, rules.firstExitRatio, First).(breakeven := true),
              [Action(Portion(p.remaining, rules.firstExitRatio), bar.close, FirstTarget)])
    else if p.stage.First? && gain >= secondPct then
      Verdict(TakePartial(p, rules.secondExitRatio, Second),
              [Action(Portion(p.remaining, rules.secondExitRatio), bar.close, SecondTarget)])
    else if p.stage.Second? && gain >= thirdPct then
      Verdict(TakePartial(p, rules.thirdExitRatio, Third),
              [Action(Portion(p.remaining, rules.thirdExitRatio), bar.close, ThirdTarget)])
    else Verdict(p, [])
  }

  /** A position that has just taken the third rung trails from the same bar on. */
  function PromoteThird(p: Pos): Pos {
    if p.stage.Third? then p.(stage := Trailing, trailing := true) else p
  }

  function TrailPct(rules: ExitRules, p: Pos, targets: Option<RegimeTargets>): real {
    if p.entry.strategy.Core? then rules.coreTrailingStopPct
    else
      var base := if targets.Some? then targets.value.trailingStopPct else rules.trailingStopPct;
      if rules.atrLinked && p.entry.atrPct > 0.0
      then Min(Max(base, p.entry.atrPct * rules.atrLinkMultiplier), rules.atrLinkCapPct)
      else base
  }

  function TrailActivatePct(rules: ExitRules, p: Pos): real {
    if p.entry.strategy.Core? then rules.coreTrailingActivatePct else rules.trailingActivatePct
  }

  function ArmTrailing(rules: ExitRules, p: Pos): Pos {
    if Fees.NetPnlPct(p.entry.price, p.highest, 1) >= TrailActivatePct(rules, p)
    then p.(trailing := true) else p
  }

  function CompositeReason(rules: ExitRules, p: Pos, bar: Bar): Option<Reason> {
    var buffer := if p.entry.strategy.Rsi2? then 0.3 else rules.compositeMa5BufferPct;
    if bar.ma5.Some? && bar.ma5.value > 0.0 && bar.close < bar.ma5.value * (1.0 - buffer / 100.0)
    then Some(CompositeMa5)
    else if rules.compositePrevLow && bar.prevLow.Some? && bar.prevLow.value > 0.0 && bar.low > 0.0
            && bar.low < bar.prevLow.value && bar.close < bar.prevLow.value
    then Some(CompositePrevLow)
    else None
  }

  predicate CompositeApplies(rules: ExitRules, p: Pos) {
    rules.compositeExit && Rank(p.stage) >= Rank(rules.compositeMinStage) && p.remaining > 0
  }

  predicate LowEfficiencyHit(rules: ExitRules, p: Pos, close: real) {
    && rules.postExitStaleDays > 0
    && (p.stage.First? || p.stage.Second?)
    && p.holdingDays >= rules.postExitStaleDays
    && p.daysSinceHigh >= 3
    && 0.0 < Fees.NetPnlPct(p.entry.price, close, 1) < rules.postExitStalePnlPct
  }

  /** Composite exit, low efficiency after a partial exit, holding rules: in that order. */
  function LateRules(rules: ExitRules, p: Pos, bar: Bar, actions: seq<Action>): Verdict {
    if p.entry.strategy.Core? then Verdict(p, actions)
    else if CompositeApplies(rules, p) && CompositeReason(rules, p, bar).Some? then
      SellOut(p, actions, bar.close, CompositeReason(rules, p, bar).value)
    else if LowEfficiencyHit(rules, p, bar.close) then
      SellOut(p, actions, bar.close, LowEfficiency)
    else HoldingRules(rules, p, bar.close, actions)
  }

  /** Trailing stop, then the late rules. */
  function TrailOrLater(rules: ExitRules, p: Pos, bar: Bar, targets: Option<RegimeTargets>,
                        actions: seq<Action>): Verdict {
    var armed := ArmTrailing(rules, p);
    if armed.trailing && armed.remaining > 0
       && bar.close <= armed.highest * (1.0 - TrailPct(rules, armed, targets) / 100.0)
    then SellOut(armed, actions, bar.close, TrailingStop)
    else LateRules(rules, armed, bar, actions)
  }

  /** The ladder policy once the bar has been observed. */
  function LadderExit(rules: ExitRules, p: Pos, bar: Bar, regime: Option<Regime>): Verdict {
    var targets := ActiveTargets(rules, p, regime);
    var q := TrackRegime(rules, p, regime);
    var stopPrice := StopLevel(rules, q, bar, targets);
    if bar.low <= stopPrice then SellOut(q, [], StopFill(stopPrice, bar.open), StopLoss)
    else if q.holdingDays < rules.minHoldingDays then Verdict(q, [])
    else if q.breakeven && Fees.NetPnlPct(q.entry.price, bar.close, 1) <= -0.25 then
      SellOut(q, [], bar.close, Breakeven)
    else if q.entry.strategy.Core? then TrailOrLater(rules, q, bar, targets, [])
    else
      var rung := LadderRung(rules, q, bar, targets);
      TrailOrLater(rules, PromoteThird(rung.pos), bar, targets, rung.actions)
  }

  /** The channel policy once the bar has been observed. */
  function ChannelExit(rules: ExitRules, p: Pos, bar: Bar): Verdict {
    var out := ChannelStep(p.entry.price, ChannelState(p.stopPrice, p.runner), bar);
    var q := p.(stopPrice := out.state.stop, runner := out.state.runner);
    match out.hit
    case Some(hit) => SellOut(q, [], hit.price, hit.reason)
    case None =>
      if q.holdingDays < rules.minHoldingDays then Verdict(q, [])
      else HoldingRules(rules, q, bar.close, [])
  }

  /** check_exit: everything one daily bar does to a position. */
  function CheckExit(rules: ExitRules, p: Pos, bar: Bar, regime: Option<Regime>): Verdict {
    if p.remaining <= 0 then Verdict(p, [])
    else
      var seen := Observe(p, bar);
      if rules.exitPolicy.Channel? && !p.entry.strategy.Core? then ChannelExit(rules, seen, bar)
      else LadderExit(rules, seen, bar, regime)
  }

  // ---- the mutable position and the methods that work on it ----------------------------------

  class BTPosition {
    const entry: Entry
    var remaining: int
    var stage: Stage
    var highest: real
    var liveStopPct: real
    var regimeSeen: Option<Regime>
    var trailing: bool
    var breakeven: bool
    var holdingDays: int
    var daysSinceHigh: int
    var stopPrice: real
    var runner: bool

    function View(): Pos
      reads this
    {
      Pos(entry, remaining, stage, highest, liveStopPct, regimeSeen, trailing, breakeven,
          holdingDays, daysSinceHigh, stopPrice, runner)
    }

    constructor (entry: Entry, highest: real, stopPrice: real, regimeSeen: Option<Regime>)
      ensures View() == OpenedPos(entry, highest, stopPrice, regimeSeen)
    {
      this.entry := entry;
      remaining := entry.quantity;
      stage := NoExit;
      this.highest := highest;
      liveStopPct := 0.0;
      this.regimeSeen := regimeSeen;
      trailing := false;
      breakeven := false;
      holdingDays := 0;
      daysSinceHigh := 0;
      this.stopPrice := stopPrice;
      runner := false;
    }
  }

  /** A position the moment it is filled. */
  function OpenedPos(entry: Entry, highest: real, stopPrice: real, regimeSeen: Option<Regime>): Pos {
    Pos(entry, entry.quantity, NoExit, highest, 0.0, regimeSeen, false, false, 0, 0, stopPrice, false)
  }

  method RunChannelExit(pos: BTPosition, bar: Bar) returns (hit: Option<ChannelHit>)
    modifies pos
    ensures var out := ChannelStep(pos.entry.price, ChannelState(old(pos.stopPrice), old(pos.runner)), bar);
      && hit == out.hit
      && pos.View() == old(pos.View()).(stopPrice := out.state.stop, runner := out.state.runner)
  {
    var stop := pos.stopPrice;
    if bar.open <= stop {
      return Some(ChannelHit(bar.open, StopGap));
    }
    if bar.low <= stop {
      return Some(ChannelHit(stop, StopHit));
    }
    if bar.high >= pos.entry.price * 1.30 {
      pos.runner := true;
    }
    var low := if pos.runner then bar.low20 else bar.low10;
    if low.Some? {
      var channel := Max(low.value, stop);
      if bar.close < channel {
        return Some(ChannelHit(bar.close, ChannelBreak));
      }
      pos.stopPrice := Max(stop, channel * 0.999);
    }
    return None;
  }

  class BTExitManager {
    const rules: ExitRules

    constructor (rules: ExitRules)
      ensures this.rules == rules
    {
      this.rules := rules;
    }

    method RunHoldingRules(pos: BTPosition, close: real, before: seq<Action>) returns (actions: seq<Action>)
      modifies pos
      ensures var v := HoldingRules(rules, old(pos.View()), close, before);
        actions == v.actions && pos.View() == v.pos
    {
      actions := before;
      var maxDays := if pos.entry.strategy.Sepa? then rules.sepaMaxHoldingDays else rules.rsi2MaxHoldingDays;
      if pos.holdingDays >= maxDays {
        actions := actions + [Action(pos.remaining, close, MaxHolding)];
        pos.remaining := 0;
        return;
      }
      if pos.holdingDays >= rules.staleExitDays {
        var pnl := Fees.NetPnlPct(pos.entry.price, close, 1);
        if Abs(pnl) < rules.staleExitPnlPct {
          actions := actions + [Action(pos.remaining, close, Stale)];
          pos.remaining := 0;
          return;
        }
      }
      if pos.daysSinceHigh >= rules.staleHighDays {
        var pnl := Fees.NetPnlPct(pos.entry.price, close, 1);
        if pnl < rules.staleHighMinPnlPct {
          actions := actions + [Action(pos.remaining, close, TrendInvalid)];
          pos.remaining := 0;
          return;
        }
      }
    }

    /** Trailing stop, composite exit, low efficiency and holding rules of the ladder policy. */
    method RunTrailOrLater(pos: BTPosition, bar: Bar, targets: Option<RegimeTargets>, before: seq<Action>)
      returns (actions: seq<Action>)
      modifies pos
      ensures var v := TrailOrLater(rules, old(pos.View()), bar, targets, before);
        actions == v.actions && pos.View() == v.pos
    {
      hide TrailPct, TrailActivatePct, HoldingRules, CompositeReason, CompositeApplies, LowEfficiencyHit,
           Fees.NetPnlPct;
      actions := before;
      if Fees.NetPnlPct(pos.entry.price, pos.highest, 1) >= TrailActivatePct(rules, pos.View()) {
        pos.trailing := true;
      }
      if pos.trailing && pos.remaining > 0 {
        var trailPrice := pos.highest * (1.0 - TrailPct(rules, pos.View(), targets) / 100.0);
        if bar.close <= trailPrice {
          actions := actions + [Action(pos.remaining, bar.close, TrailingStop)];
          pos.remaining := 0;
          return;
        }
      }
      if pos.entry.strategy.Core? {
        return;
      }
      if CompositeApplies(rules, pos.View()) {
        var reason := CompositeReason(rules, pos.View(), bar);
        if reason.Some? {
          actions := actions + [Action(pos.remaining, bar.close, reason.value)];
          pos.remaining := 0;
          return;
        }
      }
      if LowEfficiencyHit(rules, pos.View(), bar.close) {
        actions := actions + [Action(pos.remaining, bar.close, LowEfficiency)];
        pos.remaining := 0;
        return;
      }
      actions := RunHoldingRules(pos, bar.close, actions);
    }

    /** One rung of the partial-exit ladder, and the promotion of THIRD to TRAILING. */
    method RunLadderRung(pos: BTPosition, bar: Bar, targets: Option<RegimeTargets>) returns (actions: seq<Action>)
      modifies pos
      ensures var rung := LadderRung(rules, old(pos.View()), bar, targets);
        actions == rung.actions && pos.View() == PromoteThird(rung.pos)
    {
      actions := [];
      var gain := Fees.NetPnlPct(pos.entry.price, bar.high, 1);
      var firstPct := if targets.Some? then targets.value.firstExitPct else rules.firstExitPct;
      var secondPct := if targets.Some? then targets.value.secondExitPct else rules.secondExitPct;
      var thirdPct := if targets.Some? then targets.value.thirdExitPct else rules.thirdExitPct;
      if pos.stage.NoExit? && gain >= firstPct {
        var qty := Portion(pos.remaining, rules.firstExitRatio);
        actions := [Action(qty, bar.close, FirstTarget)];
        pos.remaining := pos.remaining - qty;
        pos.stage := First;
        pos.breakeven := true;
      } else if pos.stage.First? && gain >= secondPct {
        var qty := Portion(pos.remaining, rules.secondExitRatio);
        actions := [Action(qty, bar.close, SecondTarget)];
        pos.remaining := pos.remaining - qty;
        pos.stage := Second;
      } else if pos.stage.Second? && gain >= thirdPct {
        var qty := Portion(pos.remaining, rules.thirdExitRatio);
        actions := [Action(qty, bar.close, ThirdTarget)];
        pos.remaining := pos.remaining - qty;
        pos.stage := Third;
      }
      if pos.stage.Third? {
        pos.stage := Trailing;
        pos.trailing := true;
      }
    }

    /** live_policy: a change of regime replaces the stop distance. */
    method RunTrackRegime(pos: BTPosition, regime: Option<Regime>)
      modifies pos
      ensures pos.View() == TrackRegime(rules, old(pos.View()), regime)
    {
      hide TargetsOf;
      var targets := ActiveTargets(rules, pos.View(), regime);
      if !pos.entry.strategy.Core? && rules.entryStopMode.LivePolicy? && targets.Some? && regime != pos.regimeSeen {
        if pos.regimeSeen.Some? {
          pos.liveStopPct := targets.value.stopLossPct;
        }
        pos.regimeSeen := regime;
      }
    }

    method RunLadderExit(pos: BTPosition, bar: Bar, regime: Option<Regime>) returns (actions: seq<Action>)
      modifies pos
      ensures var v := LadderExit(rules, old(pos.View()), bar, regime);
        actions == v.actions && pos.View() == v.pos
    {
      hide TrailOrLater, LadderRung, StopLevel, StopFill, Fees.NetPnlPct, TrackRegime, ActiveTargets, PromoteThird;
      actions := [];
      var isCore := pos.entry.strategy.Core?;
      var targets := ActiveTargets(rules, pos.View(), regime);
      RunTrackRegime(pos, regime);
      ghost var q := pos.View();
      var stopPrice := StopLevel(rules, pos.View(), bar, targets);
      if bar.low <= stopPrice {
        var fill := StopFill(stopPrice, bar.open);
        actions := actions + [Action(pos.remaining, fill, StopLoss)];
        pos.remaining := 0;
        assert pos.View() == q.(remaining := 0);
        return;
      }
      if pos.holdingDays < rules.minHoldingDays {
        return;
      }
      if pos.breakeven {
        if Fees.NetPnlPct(pos.entry.price, bar.close, 1) <= -0.25 {
          actions := actions + [Action(pos.remaining, bar.close, Breakeven)];
          pos.remaining := 0;
          return;
        }
      }
      if !isCore {
        actions := RunLadderRung(pos, bar, targets);
      }
      actions := RunTrailOrLater(pos, bar, targets, actions);
    }

    method RunCheckExit(pos: BTPosition, bar: Bar, regime: Option<Regime>) returns (actions: seq<Action>)
      modifies pos
      ensures var v := CheckExit(rules, old(pos.View()), bar, regime);
        actions == v.actions && pos.View() == v.pos
    {
      actions := [];
      if pos.remaining <= 0 {
        return;
      }
      if bar.high > pos.highest {
        pos.highest := bar.high;
        pos.daysSinceHigh := 0;
      } else {
        pos.daysSinceHigh := pos.daysSinceHigh + 1;
      }
      pos.holdingDays := pos.holdingDays + 1;
      assert pos.View() == Observe(old(pos.View()), bar);
      if rules.exitPolicy.Channel? && !pos.entry.strategy.Core? {
        var hit := RunChannelExit(pos, bar);
        if hit.Some? {
          actions := actions + [Action(pos.remaining, hit.value.price, hit.value.reason)];
          pos.remaining := 0;
          return;
        }
        if pos.holdingDays < rules.minHoldingDays {
          return;
        }
        actions := RunHoldingRules(pos, bar.close, actions);
        return;
      }
      actions := RunLadderExit(pos, bar, regime);
    }
  }
}
