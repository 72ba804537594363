/** What every exit decision keeps: shares are conserved between the position and the actions,
    stages only advance, and no share is sold at a negative price. */
module ExitFacts {
  import opened Basics
  import opened Market
  import opened Config
  import opened Exits
  import Fees

  function SumQty(actions: seq<Action>): int {
    if actions == [] then 0 else SumQty(actions[..|actions| - 1]) + actions[|actions| - 1].qty
  }

  lemma SumQtySnoc(actions: seq<Action>, a: Action)
    ensures SumQty(actions + [a]) == SumQty(actions) + a.qty
  {
    assert (actions + [a])[..|actions|] == actions;
  }

  /** The verdict splits `total` shares between actions and the position, and leaves everything
      fixed at entry alone. */
  ghost predicate Splits(total: int, from: Pos, v: Verdict) {
    && v.pos.entry == from.entry
    && 0 <= v.pos.remaining
    && SumQty(v.actions) + v.pos.remaining == total
    && (forall a :: a in v.actions ==> a.qty >= 0)
    && Rank(from.stage) <= Rank(v.pos.stage)
  }

  lemma SellOutSplits(total: int, from: Pos, p: Pos, actions: seq<Action>, price: real, reason: Reason)
    requires Splits(total, from, Verdict(p, actions))
    ensures Splits(total, from, SellOut(p, actions, price, reason))
  {
    SumQtySnoc(actions, Action(p.remaining, price, reason));
  }

  lemma HoldingRulesSplit(rules: ExitRules, total: int, from: Pos, p: Pos, close: real, actions: seq<Action>)
    requires Splits(total, from, Verdict(p, actions))
    ensures Splits(total, from, HoldingRules(rules, p, close, actions))
  {
    hide Fees.NetPnlPct, SellOut;
    SellOutSplits(total, from, p, actions, close, MaxHolding);
    SellOutSplits(total, from, p, actions, close, Stale);
    SellOutSplits(total, from, p, actions, close, TrendInvalid);
  }

  lemma LateRulesSplit(rules: ExitRules, total: int, from: Pos, p: Pos, bar: Bar, actions: seq<Action>)
    requires Splits(total, from, Verdict(p, actions))
    ensures Splits(total, from, LateRules(rules, p, bar, actions))
  {
    hide CompositeReason, CompositeApplies, LowEfficiencyHit, HoldingRules, SellOut;
    HoldingRulesSplit(rules, total, from, p, bar.close, actions);
    SellOutSplits(total, from, p, actions, bar.close, LowEfficiency);
    if CompositeReason(rules, p, bar).Some? {
      SellOutSplits(total, from, p, actions, bar.close, CompositeReason(rules, p, bar).value);
    }
  }

  lemma TrailOrLaterSplits(rules: ExitRules, total: int, from: Pos, p: Pos, bar: Bar,
                           targets: Option<RegimeTargets>, actions: seq<Action>)
    requires Splits(total, from, Verdict(p, actions))
    ensures Splits(total, from, TrailOrLater(rules, p, bar, targets, actions))
  {
    hide Fees.NetPnlPct, LateRules, TrailPct;
    var armed := ArmTrailing(rules, p);
    SellOutSplits(total, from, armed, actions, bar.close, TrailingStop);
    LateRulesSplit(rules, total, from, armed, bar, actions);
  }

  /** A fraction of a positive holding is between one share and the whole holding. */
  lemma PortionInRange(remaining: int, ratio: real)
    requires remaining >= 1 && 0.0 <= ratio <= 1.0
    ensures 1 <= Portion(remaining, ratio) <= remaining
  {
    MulMono(ratio, 1.0, remaining as real);
    assert remaining as real * ratio <= remaining as real;
  }

  /** One rung of the ladder sells a portion and keeps the rest. */
  lemma PartialSplits(p: Pos, ratio: real, next: Stage, price: real, reason: Reason, breakeven: bool)
    requires p.remaining >= 1 && 0.0 <= ratio <= 1.0 && Rank(p.stage) <= Rank(next)
    ensures Splits(p.remaining, p, Verdict(TakePartial(p, ratio, next).(breakeven := breakeven),
                                           [Action(Portion(p.remaining, ratio), price, reason)]))
  {
    PortionInRange(p.remaining, ratio);
    hide Portion;
    var a := Action(Portion(p.remaining, ratio), price, reason);
    SumQtySnoc([], a);
    assert [] + [a] == [a];
  }

  lemma RungSplits(rules: ExitRules, p: Pos, bar: Bar, targets: Option<RegimeTargets>)
    requires RatiosAreFractions(rules) && p.remaining >= 1
    ensures Splits(p.remaining, p, LadderRung(rules, p, bar, targets))
  {
    hide Fees.NetPnlPct, Portion, Splits, SumQty;
    var v := LadderRung(rules, p, bar, targets);
    match p.stage
    case NoExit =>
      PartialSplits(p, rules.firstExitRatio, First, bar.close, FirstTarget, true);
      NothingSplits(p);
    case First =>
      PartialSplits(p, rules.secondExitRatio, Second, bar.close, SecondTarget, p.breakeven);
      NothingSplits(p);
    case Second =>
      PartialSplits(p, rules.thirdExitRatio, Third, bar.close, ThirdTarget, p.breakeven);
      NothingSplits(p);
    case _ =>
      NothingSplits(p);
  }

  lemma NothingSplits(p: Pos)
    requires p.remaining >= 0
    ensures Splits(p.remaining, p, Verdict(p, []))
  {
  }

  /** Noting the regime moves no share and no stage. */
  lemma TrackRegimeSplits(rules: ExitRules, p: Pos, regime: Option<Regime>)
    requires p.remaining >= 1
    ensures TrackRegime(rules, p, regime).entry == p.entry
    ensures TrackRegime(rules, p, regime).remaining == p.remaining
    ensures Splits(p.remaining, p, Verdict(TrackRegime(rules, p, regime), []))
    ensures forall v :: Splits(p.remaining, TrackRegime(rules, p, regime), v) ==> Splits(p.remaining, p, v)
  {
    hide ActiveTargets;
  }

  lemma PromoteThirdSplits(total: int, from: Pos, v: Verdict)
    requires Splits(total, from, v)
    ensures Splits(total, from, Verdict(PromoteThird(v.pos), v.actions))
  {
  }

  lemma LadderExitSplits(rules: ExitRules, p: Pos, bar: Bar, regime: Option<Regime>)
    requires RatiosAreFractions(rules) && p.remaining >= 1
    ensures Splits(p.remaining, p, LadderExit(rules, p, bar, regime))
  {
    hide Fees.NetPnlPct, LadderRung, TrailOrLater, StopLevel, StopFill, TrackRegime, ActiveTargets, PromoteThird,
         SellOut, Splits;
    var targets := ActiveTargets(rules, p, regime);
    var q := TrackRegime(rules, p, regime);
    TrackRegimeSplits(rules, p, regime);
    SellOutSplits(p.remaining, p, q, [], StopFill(StopLevel(rules, q, bar, targets), bar.open), StopLoss);
    SellOutSplits(p.remaining, p, q, [], bar.close, Breakeven);
    TrailOrLaterSplits(rules, p.remaining, p, q, bar, targets, []);
    var rung := LadderRung(rules, q, bar, targets);
    RungSplits(rules, q, bar, targets);
    PromoteThirdSplits(p.remaining, p, rung);
    TrailOrLaterSplits(rules, p.remaining, p, PromoteThird(rung.pos), bar, targets, rung.actions);
  }

  lemma ChannelExitSplits(rules: ExitRules, p: Pos, bar: Bar)
    requires p.remaining >= 1
    ensures Splits(p.remaining, p, ChannelExit(rules, p, bar))
  {
    hide ChannelStep, HoldingRules;
    var out := ChannelStep(p.entry.price, ChannelState(p.stopPrice, p.runner), bar);
    var q := p.(stopPrice := out.state.stop, runner := out.state.runner);
    if out.hit.Some? {
      SellOutSplits(p.remaining, p, q, [], out.hit.value.price, out.hit.value.reason);
    }
    HoldingRulesSplit(rules, p.remaining, p, q, bar.close, []);
  }

  /** However a bar exits a position, what is sold and what is left add up to what was held, no
      action sells a negative amount, and the exit stage never goes back. */
  lemma CheckExitConserves(rules: ExitRules, p: Pos, bar: Bar, regime: Option<Regime>)
    requires RatiosAreFractions(rules) && p.remaining >= 0
    ensures Splits(p.remaining, p, CheckExit(rules, p, bar, regime))
  {
    hide LadderExit, ChannelExit;
    if p.remaining > 0 {
      ChannelExitSplits(rules, Observe(p, bar), bar);
      LadderExitSplits(rules, Observe(p, bar), bar, regime);
    }
  }

  // ---- sell prices ----------------------------------------------------------------------------

  ghost predicate PosSane(p: Pos) {
    && p.entry.price >= 0.0 && p.stopPrice >= 0.0
    && p.liveStopPct <= 100.0 && p.entry.atrStopPct <= 100.0
  }

  ghost predicate FairPrices(v: Verdict) {
    PosSane(v.pos) && forall a :: a in v.actions ==> a.price >= 0.0
  }

  lemma StopLevelNonNegative(rules: ExitRules, p: Pos, bar: Bar, targets: Option<RegimeTargets>)
    requires PosSane(p) && StopsAreFractions(rules)
    requires targets.Some? ==> targets.value.stopLossPct <= 100.0
    ensures StopLevel(rules, p, bar, targets) >= 0.0
  {
    assert StopPct(rules, p, bar, targets) <= 100.0;
    var room := 1.0 - StopPct(rules, p, bar, targets) / 100.0;
    MulMono(0.0, p.entry.price, room);
    assert StopLevel(rules, p, bar, targets) == p.entry.price * room;
  }

  lemma HoldingRulesFair(rules: ExitRules, p: Pos, close: real, actions: seq<Action>)
    requires FairPrices(Verdict(p, actions)) && close >= 0.0
    ensures FairPrices(HoldingRules(rules, p, close, actions))
  {
    hide Fees.NetPnlPct;
  }

  lemma LateRulesFair(rules: ExitRules, p: Pos, bar: Bar, targets: Option<RegimeTargets>, actions: seq<Action>)
    requires FairPrices(Verdict(p, actions)) && BarNonNegative(bar)
    ensures FairPrices(TrailOrLater(rules, p, bar, targets, actions))
  {
    hide Fees.NetPnlPct, CompositeReason, CompositeApplies, LowEfficiencyHit, TrailPct, TrailActivatePct, HoldingRules;
    HoldingRulesFair(rules, ArmTrailing(rules, p), bar.close, actions);
  }

  lemma RungFair(rules: ExitRules, p: Pos, bar: Bar, targets: Option<RegimeTargets>)
    requires PosSane(p) && BarNonNegative(bar)
    ensures FairPrices(Verdict(PromoteThird(LadderRung(rules, p, bar, targets).pos),
                               LadderRung(rules, p, bar, targets).actions))
  {
    hide Fees.NetPnlPct, Portion;
  }

  lemma LadderExitFair(rules: ExitRules, p: Pos, bar: Bar, regime: Option<Regime>)
    requires PosSane(p) && StopsAreFractions(rules) && BarNonNegative(bar)
    ensures FairPrices(LadderExit(rules, p, bar, regime))
  {
    hide Fees.NetPnlPct, TrailOrLater, StopLevel, LadderRung;
    var targets := ActiveTargets(rules, p, regime);
    var q := TrackRegime(rules, p, regime);
    StopLevelNonNegative(rules, q, bar, targets);
    LateRulesFair(rules, q, bar, targets, []);
    RungFair(rules, q, bar, targets);
    var rung := LadderRung(rules, q, bar, targets);
    LateRulesFair(rules, PromoteThird(rung.pos), bar, targets, rung.actions);
  }

  /** On a tape of non-negative prices no exit ever sells below zero. */
  lemma CheckExitFair(rules: ExitRules, p: Pos, bar: Bar, regime: Option<Regime>)
    requires PosSane(p) && StopsAreFractions(rules) && BarNonNegative(bar)
    ensures FairPrices(CheckExit(rules, p, bar, regime))
  {
    hide LadderExit, HoldingRules;
    var seen := Observe(p, bar);
    LadderExitFair(rules, seen, bar, regime);
    var out := ChannelStep(p.entry.price, ChannelState(p.stopPrice, p.runner), bar);
    HoldingRulesFair(rules, seen.(stopPrice := out.state.stop, runner := out.state.runner), bar.close, []);
  }

  // ---- slot weights ---------------------------------------------------------------------------

  /** live_slot_weight: what share of a slot a position still occupies. */
  function SlotWeight(remaining: int, original: int, stage: Stage): real {
    var orig := if original >= 1 then original else 1;
    var remain := if remaining >= 0 then remaining else 0;
    var weight := remain as real / orig as real;
    if stage.Trailing? then Max(0.1, Min(1.0, weight * 0.5))
    else if stage.Second? || stage.Third? then Max(0.15, Min(1.0, weight * 0.7))
    else Max(0.2, Min(1.0, weight))
  }

  lemma DivMono(a: real, b: real, d: real)
    requires a <= b && d > 0.0
    ensures a / d <= b / d
  {
  }

  /** Fewer shares left, or a later stage, never weigh more. */
  lemma SlotWeightMonotone(r1: int, r2: int, original: int, s1: Stage, s2: Stage)
    requires r2 <= r1 && Rank(s1) <= Rank(s2)
    ensures SlotWeight(r2, original, s2) <= SlotWeight(r1, original, s1)
  {
    var orig := if original >= 1 then original else 1;
    var a := if r1 >= 0 then r1 else 0;
    var b := if r2 >= 0 then r2 else 0;
    DivMono(b as real, a as real, orig as real);
    DivMono(0.0, b as real, orig as real);
  }

  /** A slot is never worth less than a tenth or more than one. */
  lemma SlotWeightRange(remaining: int, original: int, stage: Stage)
    ensures 0.1 <= SlotWeight(remaining, original, stage) <= 1.0
  {
  }

  /** A position's slot weight never increases along its life. */
  lemma ExitNeverAddsWeight(rules: ExitRules, p: Pos, bar: Bar, regime: Option<Regime>)
    requires RatiosAreFractions(rules) && p.remaining >= 0
    ensures var q := CheckExit(rules, p, bar, regime).pos;
      SlotWeight(q.remaining, q.entry.quantity, q.stage)
      <= SlotWeight(p.remaining, p.entry.quantity, p.stage)
  {
    hide CheckExit, SlotWeight;
    CheckExitConserves(rules, p, bar, regime);
    var v := CheckExit(rules, p, bar, regime);
    SumQtyNonNegative(v.actions);
    SlotWeightMonotone(p.remaining, v.pos.remaining, p.entry.quantity, p.stage, v.pos.stage);
  }

  lemma {:induction false} SumQtyNonNegative(actions: seq<Action>)
    requires forall a :: a in actions ==> a.qty >= 0
    ensures SumQty(actions) >= 0
  {
    if actions != [] {
      SumQtyNonNegative(actions[..|actions| - 1]);
    }
  }
}
