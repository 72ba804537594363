/** The exit rules as the program documents them: for every reason the condition on position and bar, the
    order in which conditions count, the price, and what a bar changes about a position it leaves alive.
    Everything is written from the fields; that `check_exit` decides by this table is the theorem. */
module ExitTable {
  import opened Basics
  import opened Market
  import opened Config
  import opened Exits
  import Fees

  // ---- the day, as position and bar show it -----------------------------------------------------------

  /** Per cent gained on a share bought at `entry` and sold at `price`, both fees paid. */
  function Net(entry: real, price: real): real {
    if entry > 0.0 then (price * 0.997869473 / (entry * 1.000140527) - 1.0) * 100.0 else 0.0
  }

  function Gain(p: Pos, price: real): real {
    Net(p.entry.price, price)
  }

  function Peak(p: Pos, bar: Bar): real {
    Max(p.highest, bar.high)
  }

  function DaysHeld(p: Pos): int {
    p.holdingDays + 1
  }

  /** Days since the last new high. */
  function IdleDays(p: Pos, bar: Bar): int {
    if bar.high > p.highest then 0 else p.daysSinceHigh + 1
  }

  predicate OnChannel(rules: ExitRules, p: Pos) {
    rules.exitPolicy.Channel? && !p.entry.strategy.Core?
  }

  predicate OldEnough(rules: ExitRules, p: Pos) {
    DaysHeld(p) >= rules.minHoldingDays
  }

  /** The regime adjusts the targets of short-term positions, where that is switched on. */
  predicate Adjusted(rules: ExitRules, p: Pos, regime: Option<Regime>) {
    regime.Some? && !p.entry.strategy.Core? && rules.regimeExit
  }

  /** The regime's number in a column of the table, the configured one without a regime. */
  function ByRegime(rules: ExitRules, p: Pos, regime: Option<Regime>, bullish: real, neutral: real, bearish: real,
                    configured: real): real
  {
    if !Adjusted(rules, p, regime) then configured
    else
      match regime.value
      case Bullish => bullish
      case Neutral => neutral
      case Bearish => bearish
  }

  /** The stop distance in force: core positions have their own; a live policy keeps the entry's, until the
      regime turns; the research axis follows the day's volatility. */
  function StopDistance(rules: ExitRules, p: Pos, bar: Bar, regime: Option<Regime>): real {
    match p.entry.strategy
    case Core => rules.coreStopLossPct
    case short =>
      if rules.entryStopMode.LivePolicy? then
        var standing := if p.liveStopPct > 0.0 then p.liveStopPct else p.entry.atrStopPct;
        if Turned(rules, p, regime) then ByRegime(rules, p, regime, 5.0, 4.0, 3.5, standing) else standing
      else if bar.atrPct.Some? && bar.atrPct.value > 0.0 then
        var distance := bar.atrPct.value * rules.atrMultiplier;
        if rules.minStopPct >= distance || rules.minStopPct >= rules.maxStopPct then rules.minStopPct
        else if distance > rules.maxStopPct then rules.maxStopPct else distance
      else
        ByRegime(rules, p, regime, 5.0, 4.0, 3.5,
                 if short.Sepa? then rules.sepaStopLossPct else rules.rsi2StopLossPct)
  }

  /** The regime is another than the one last seen with this position. */
  predicate Turned(rules: ExitRules, p: Pos, regime: Option<Regime>) {
    Adjusted(rules, p, regime) && p.regimeSeen.Some? && p.regimeSeen != regime
  }

  function DayStop(rules: ExitRules, p: Pos, bar: Bar, regime: Option<Regime>): real {
    p.entry.price * (1.0 - StopDistance(rules, p, bar, regime) / 100.0)
  }

  // ---- the rung of the day ------------------------------------------------------------------------------

  /** Neither stop nor breakeven ends the day, and the position is old enough for anything else. */
  predicate PastTheStops(rules: ExitRules, p: Pos, bar: Bar, regime: Option<Regime>) {
    && !OnChannel(rules, p) && OldEnough(rules, p)
    && bar.low > DayStop(rules, p, bar, regime)
    && !(p.breakeven && Gain(p, bar.close) <= -0.25)
  }

  /** Which target the day's high has reached, of the one whose turn it is. */
  function RungReached(rules: ExitRules, p: Pos, bar: Bar, regime: Option<Regime>): Option<Reason> {
    if !PastTheStops(rules, p, bar, regime) || p.entry.strategy.Core? then None
    else if p.stage.NoExit? && Gain(p, bar.high) >= ByRegime(rules, p, regime, 10.0, 10.0, 5.0, rules.firstExitPct)
    then Some(FirstTarget)
    else if p.stage.First? && Gain(p, bar.high) >= ByRegime(rules, p, regime, 15.0, 12.0, 8.0, rules.secondExitPct)
    then Some(SecondTarget)
    else if p.stage.Second? && Gain(p, bar.high) >= ByRegime(rules, p, regime, 25.0, 20.0, 14.0, rules.thirdExitPct)
    then Some(ThirdTarget)
    else None
  }

  /** A fraction of the shares, rounded down, but at least one share. */
  function Share(remaining: int, ratio: real): int {
    var part := remaining as real * ratio;
    if part < 1.0 then 1 else part.Floor
  }

  /** What a rung sells of what is left. */
  function RungShares(rules: ExitRules, p: Pos, rung: Option<Reason>): int {
    if rung.None? then 0
    else
      var ratio := if rung.value.FirstTarget? then rules.firstExitRatio
                   else if rung.value.SecondTarget? then rules.secondExitRatio else rules.thirdExitRatio;
      Share(p.remaining, ratio)
  }

  /** The stage after the rungs; the third target starts the trailing at once. */
  function StageThen(rules: ExitRules, p: Pos, bar: Bar, regime: Option<Regime>): Stage {
    match RungReached(rules, p, bar, regime)
    case Some(FirstTarget) => First
    case Some(SecondTarget) => Second
    case Some(ThirdTarget) => Trailing
    case _ =>
      if p.stage.Third? && PastTheStops(rules, p, bar, regime) && !p.entry.strategy.Core? then Trailing else p.stage
  }

  function LeftThen(rules: ExitRules, p: Pos, bar: Bar, regime: Option<Regime>): int {
    p.remaining - RungShares(rules, p, RungReached(rules, p, bar, regime))
  }

  function RungSale(rules: ExitRules, p: Pos, bar: Bar, regime: Option<Regime>): seq<Action> {
    var rung := RungReached(rules, p, bar, regime);
    if rung.None? then [] else [Action(RungShares(rules, p, rung), bar.close, rung.value)]
  }

  // ---- the conditions -------------------------------------------------------------------------------------

  /** How far below the peak the trailing stop lies. */
  function TrailDistance(rules: ExitRules, p: Pos, regime: Option<Regime>): real {
    if p.entry.strategy.Core? then rules.coreTrailingStopPct
    else
      var base := ByRegime(rules, p, regime, 4.0, 3.0, 2.0, rules.trailingStopPct);
      if !rules.atrLinked || p.entry.atrPct <= 0.0 then base
      else
        var linked := p.entry.atrPct * rules.atrLinkMultiplier;
        var wider := if linked > base then linked else base;
        if wider > rules.atrLinkCapPct then rules.atrLinkCapPct else wider
  }

  /** The trailing stop is armed from before, by the third rung, or by the gain at the peak. */
  predicate TrailArmed(rules: ExitRules, p: Pos, bar: Bar, regime: Option<Regime>) {
    && PastTheStops(rules, p, bar, regime)
    && (p.trailing || (StageThen(rules, p, bar, regime) == Trailing && p.stage != Trailing)
        || Gain(p, Peak(p, bar))
           >= if p.entry.strategy.Core? then rules.coreTrailingActivatePct else rules.trailingActivatePct)
  }

  /** The 10-day low, or the 20-day low once the price has been 30 per cent up. */
  function ChannelLow(p: Pos, bar: Bar): Option<real> {
    if p.runner || bar.high >= 1.3 * p.entry.price then bar.low20 else bar.low10
  }

  predicate AboveHardStop(p: Pos, bar: Bar) {
    bar.open > p.stopPrice && bar.low > p.stopPrice
  }

  /** The late rules look at what the rungs have left; core positions have none. */
  predicate LateLadder(rules: ExitRules, p: Pos, bar: Bar, regime: Option<Regime>) {
    PastTheStops(rules, p, bar, regime) && !p.entry.strategy.Core?
  }

  /** The stage is `least` or one that comes after it. */
  predicate Reached(stage: Stage, least: Stage) {
    match least
    case NoExit => true
    case First => stage != NoExit
    case Second => stage in {Second, Third, Trailing}
    case Third => stage in {Third, Trailing}
    case Trailing => stage == Trailing
  }

  predicate CompositeOn(rules: ExitRules, p: Pos, bar: Bar, regime: Option<Regime>) {
    && LateLadder(rules, p, bar, regime)
    && rules.compositeExit && LeftThen(rules, p, bar, regime) > 0
    && Reached(StageThen(rules, p, bar, regime), rules.compositeMinStage)
  }

  /** The holding rules close the day under both policies. */
  predicate HoldingRulesOn(rules: ExitRules, p: Pos, bar: Bar, regime: Option<Regime>) {
    if OnChannel(rules, p) then OldEnough(rules, p) else LateLadder(rules, p, bar, regime)
  }

  /** How far below its five-day average a close has to be, in per cent. */
  function Ma5Buffer(rules: ExitRules, p: Pos): real {
    if p.entry.strategy.Rsi2? then 0.3 else rules.compositeMa5BufferPct
  }

  /** The condition of each reason to sell everything. */
  predicate Met(rules: ExitRules, p: Pos, bar: Bar, regime: Option<Regime>, reason: Reason) {
    match reason
    case StopGap => OnChannel(rules, p) && bar.open <= p.stopPrice
    case StopHit => OnChannel(rules, p) && bar.low <= p.stopPrice
    case ChannelBreak =>
      && OnChannel(rules, p) && ChannelLow(p, bar).Some?
      && (bar.close < ChannelLow(p, bar).value || bar.close < p.stopPrice)
    case StopLoss => !OnChannel(rules, p) && bar.low <= DayStop(rules, p, bar, regime)
    case Breakeven => !OnChannel(rules, p) && OldEnough(rules, p) && p.breakeven && Gain(p, bar.close) <= -0.25
    case TrailingStop =>
      && TrailArmed(rules, p, bar, regime) && LeftThen(rules, p, bar, regime) > 0
      && bar.close <= Peak(p, bar) * (1.0 - TrailDistance(rules, p, regime) / 100.0)
    case CompositeMa5 =>
      && CompositeOn(rules, p, bar, regime) && bar.ma5.Some? && bar.ma5.value > 0.0
      && bar.close < bar.ma5.value * (1.0 - Ma5Buffer(rules, p) / 100.0)
    case CompositePrevLow =>
      && CompositeOn(rules, p, bar, regime) && rules.compositePrevLow
      && bar.prevLow.Some? && bar.prevLow.value > 0.0
      && 0.0 < bar.low < bar.prevLow.value && bar.close < bar.prevLow.value
    case LowEfficiency =>
      && LateLadder(rules, p, bar, regime) && StageThen(rules, p, bar, regime) in {First, Second}
      && DaysHeld(p) >= rules.postExitStaleDays > 0 && IdleDays(p, bar) >= 3
      && 0.0 < Gain(p, bar.close) < rules.postExitStalePnlPct
    case MaxHolding =>
      && HoldingRulesOn(rules, p, bar, regime)
      && DaysHeld(p) >= if p.entry.strategy.Sepa? then rules.sepaMaxHoldingDays else rules.rsi2MaxHoldingDays
    case Stale =>
      && HoldingRulesOn(rules, p, bar, regime) && DaysHeld(p) >= rules.staleExitDays
      && -rules.staleExitPnlPct < Gain(p, bar.close) < rules.staleExitPnlPct
    case TrendInvalid =>
      && HoldingRulesOn(rules, p, bar, regime) && IdleDays(p, bar) >= rules.staleHighDays
      && Gain(p, bar.close) < rules.staleHighMinPnlPct
    case _ => false
  }

  /** The documented order in which the reasons count. */
  const ORDER: seq<Reason> := [StopGap, StopHit, ChannelBreak, StopLoss, Breakeven, TrailingStop, CompositeMa5,
                               CompositePrevLow, LowEfficiency, MaxHolding, Stale, TrendInvalid]

  /** Stops fill at their line, or at the open when the market opened below it; all else at the close. */
  function PriceOf(rules: ExitRules, p: Pos, bar: Bar, regime: Option<Regime>, reason: Reason): real {
    match reason
    case StopGap => bar.open
    case StopHit => p.stopPrice
    case StopLoss =>
      if 0.0 < bar.open < DayStop(rules, p, bar, regime) then bar.open else DayStop(rules, p, bar, regime)
    case _ => bar.close
  }

  // ---- what a bar leaves ------------------------------------------------------------------------------------

  /** A channel position that is not sold raises its stop to just under the channel, never lowers it. */
  function ChannelStopThen(p: Pos, bar: Bar): real {
    if AboveHardStop(p, bar) && ChannelLow(p, bar).Some? && bar.close >= Max(ChannelLow(p, bar).value, p.stopPrice)
    then Max(p.stopPrice, 0.999 * Max(ChannelLow(p, bar).value, p.stopPrice))
    else p.stopPrice
  }

  function RunnerThen(p: Pos, bar: Bar): bool {
    p.runner || (AboveHardStop(p, bar) && bar.high >= 1.3 * p.entry.price)
  }

  /** The position after the bar, but for the shares. */
  function Seen(rules: ExitRules, p: Pos, bar: Bar, regime: Option<Regime>): Pos {
    var q := p.(highest := Peak(p, bar), holdingDays := DaysHeld(p), daysSinceHigh := IdleDays(p, bar));
    if OnChannel(rules, p) then q.(stopPrice := ChannelStopThen(p, bar), runner := RunnerThen(p, bar))
    else
      var live := rules.entryStopMode.LivePolicy? && Adjusted(rules, p, regime);
      q.(stage := StageThen(rules, p, bar, regime),
         breakeven := p.breakeven || RungReached(rules, p, bar, regime) == Some(FirstTarget),
         trailing := p.trailing || TrailArmed(rules, p, bar, regime),
         liveStopPct := if live && Turned(rules, p, regime) then ByRegime(rules, p, regime, 5.0, 4.0, 3.5, 0.0)
                        else p.liveStopPct,
         regimeSeen := if live then regime else p.regimeSeen)
  }

  /** The day goes by the table: sold out for the first reason whose condition is met, or left alive. */
  ghost predicate ByTable(rules: ExitRules, p: Pos, bar: Bar, regime: Option<Regime>, first: nat) {
    var v := CheckExit(rules, p, bar, regime);
    var left := LeftThen(rules, p, bar, regime);
    && first <= |ORDER|
    && (forall k :: 0 <= k < first ==> !Met(rules, p, bar, regime, ORDER[k]))
    && if first < |ORDER| then
         && Met(rules, p, bar, regime, ORDER[first])
         && v.actions == RungSale(rules, p, bar, regime)
                         + [Action(left, PriceOf(rules, p, bar, regime, ORDER[first]), ORDER[first])]
         && v.pos == Seen(rules, p, bar, regime).(remaining := 0)
       else
         v.actions == RungSale(rules, p, bar, regime) && v.pos == Seen(rules, p, bar, regime).(remaining := left)
  }

  // ---- check_exit decides by the table ------------------------------------------------------------------------

  lemma Cancels(x: real, y: real)
    requires y > 0.0 && x * y == 0.0
    ensures x == 0.0
  {
  }

  lemma Ratio(x: real, cost: real)
    requires cost > 0.0
    ensures (x - cost) / cost == x / cost - 1.0
  {
    var a, b := (x - cost) / cost, x / cost;
    assert a * cost == x - cost && b * cost == x;
    Cancels(a - b + 1.0, cost);
  }

  lemma NetIsNetPnlPct(entry: real, price: real)
    ensures Fees.NetPnlPct(entry, price, 1) == Net(entry, price)
  {
    assert Fees.Amount(entry, 1) == entry && Fees.Amount(price, 1) == price;
    var cost := entry * 1.000140527;
    assert Fees.TotalCost(entry, 1) == cost;
    assert Fees.NetPnl(entry, price, 1) == price * 0.997869473 - cost;
    if entry > 0.0 { Ratio(price * 0.997869473, cost); }
  }

  /** The verdict on what is left when the reasons from the `k`-th on are still to be looked at. */
  function From(rules: ExitRules, p: Pos, bar: Bar, regime: Option<Regime>, q: Pos, actions: seq<Action>, k: nat)
    : Verdict
    requires k <= |ORDER|
    decreases |ORDER| - k
  {
    if k == |ORDER| then Verdict(q, actions)
    else if Met(rules, p, bar, regime, ORDER[k])
    then SellOut(q, actions, PriceOf(rules, p, bar, regime, ORDER[k]), ORDER[k])
    else From(rules, p, bar, regime, q, actions, k + 1)
  }

  lemma {:induction false} FirstMet(rules: ExitRules, p: Pos, bar: Bar, regime: Option<Regime>, q: Pos,
                                    actions: seq<Action>, k: nat)
    returns (first: nat)
    requires k <= |ORDER| && forall j :: 0 <= j < k ==> !Met(rules, p, bar, regime, ORDER[j])
    ensures k <= first <= |ORDER| && forall j :: 0 <= j < first ==> !Met(rules, p, bar, regime, ORDER[j])
    ensures first < |ORDER| ==> Met(rules, p, bar, regime, ORDER[first])
    ensures From(rules, p, bar, regime, q, actions, k)
            == if first == |ORDER| then Verdict(q, actions)
               else SellOut(q, actions, PriceOf(rules, p, bar, regime, ORDER[first]), ORDER[first])
    decreases |ORDER| - k
  {
    hide Met, PriceOf, SellOut;
    if k == |ORDER| || Met(rules, p, bar, regime, ORDER[k]) {
      first := k;
    } else {
      first := FirstMet(rules, p, bar, regime, q, actions, k + 1);
    }
  }

  lemma FromHere(rules: ExitRules, p: Pos, bar: Bar, regime: Option<Regime>, q: Pos, actions: seq<Action>, k: nat)
    requires k < |ORDER|
    ensures From(rules, p, bar, regime, q, actions, k)
            == if Met(rules, p, bar, regime, ORDER[k])
               then SellOut(q, actions, PriceOf(rules, p, bar, regime, ORDER[k]), ORDER[k])
               else From(rules, p, bar, regime, q, actions, k + 1)
  {
  }

  lemma FromTheEnd(rules: ExitRules, p: Pos, bar: Bar, regime: Option<Regime>, q: Pos, actions: seq<Action>)
    ensures From(rules, p, bar, regime, q, actions, |ORDER|) == Verdict(q, actions)
  {
  }

  /** What the holding rules do to a position that has reached them. */
  lemma HoldingByTable(rules: ExitRules, p: Pos, bar: Bar, regime: Option<Regime>, q: Pos, actions: seq<Action>)
    requires HoldingRulesOn(rules, p, bar, regime)
    requires q.entry == p.entry && q.holdingDays == DaysHeld(p) && q.daysSinceHigh == IdleDays(p, bar)
    ensures HoldingRules(rules, q, bar.close, actions) == From(rules, p, bar, regime, q, actions, 9)
  {
    hide Fees.NetPnlPct, Net, HoldingRulesOn, SellOut, IdleDays, From;
    NetIsNetPnlPct(p.entry.price, bar.close);
    FromHere(rules, p, bar, regime, q, actions, 9);
    FromHere(rules, p, bar, regime, q, actions, 10);
    FromHere(rules, p, bar, regime, q, actions, 11);
    FromTheEnd(rules, p, bar, regime, q, actions);
  }

  /** On the channel only its own reasons and the holding rules can be met. */
  lemma NoLadderOnChannel(rules: ExitRules, p: Pos, bar: Bar, regime: Option<Regime>, k: nat)
    requires OnChannel(rules, p) && 3 <= k < |ORDER| && (k < 9 || !OldEnough(rules, p))
    ensures !Met(rules, p, bar, regime, ORDER[k])
  {
    hide Gain, IdleDays, ChannelLow;
  }

  lemma {:induction false} SkipUnmet(rules: ExitRules, p: Pos, bar: Bar, regime: Option<Regime>, q: Pos,
                                     actions: seq<Action>, k: nat, n: nat)
    requires k <= n <= |ORDER| && forall j :: k <= j < n ==> !Met(rules, p, bar, regime, ORDER[j])
    ensures From(rules, p, bar, regime, q, actions, k) == From(rules, p, bar, regime, q, actions, n)
    decreases n - k
  {
    hide Met, PriceOf, SellOut;
    if k < n { SkipUnmet(rules, p, bar, regime, q, actions, k + 1, n); }
  }

  /** One bar of the channel. */
  lemma ChannelStepByTable(rules: ExitRules, p: Pos, bar: Bar, regime: Option<Regime>)
    requires OnChannel(rules, p)
    ensures var out := ChannelStep(p.entry.price, ChannelState(p.stopPrice, p.runner), bar);
            && out.state == ChannelState(ChannelStopThen(p, bar), RunnerThen(p, bar))
            && out.hit == if Met(rules, p, bar, regime, StopGap) then Some(ChannelHit(bar.open, StopGap))
                          else if Met(rules, p, bar, regime, StopHit) then Some(ChannelHit(p.stopPrice, StopHit))
                          else if Met(rules, p, bar, regime, ChannelBreak)
                          then Some(ChannelHit(bar.close, ChannelBreak))
                          else None
  {
  }

  lemma SeenOnChannel(rules: ExitRules, p: Pos, bar: Bar, regime: Option<Regime>)
    requires OnChannel(rules, p)
    ensures Seen(rules, p, bar, regime)
            == Observe(p, bar).(stopPrice := ChannelStopThen(p, bar), runner := RunnerThen(p, bar))
  {
    hide ChannelStopThen, RunnerThen;
  }

  lemma NoRungOnChannel(rules: ExitRules, p: Pos, bar: Bar, regime: Option<Regime>)
    requires OnChannel(rules, p)
    ensures RungReached(rules, p, bar, regime).None? && LeftThen(rules, p, bar, regime) == p.remaining
    ensures RungSale(rules, p, bar, regime) == []
  {
  }

  /** The channel policy: gap, stop, channel, holding rules. */
  lemma ChannelByTable(rules: ExitRules, p: Pos, bar: Bar, regime: Option<Regime>)
    requires p.remaining > 0 && OnChannel(rules, p)
    ensures CheckExit(rules, p, bar, regime) == From(rules, p, bar, regime, Seen(rules, p, bar, regime), [], 0)
  {
    hide HoldingRules, ChannelStep, Met, ChannelStopThen, RunnerThen, Seen, From, LadderExit;
    var q := Seen(rules, p, bar, regime);
    ChannelStepByTable(rules, p, bar, regime);
    SeenOnChannel(rules, p, bar, regime);
    FromHere(rules, p, bar, regime, q, [], 0);
    FromHere(rules, p, bar, regime, q, [], 1);
    FromHere(rules, p, bar, regime, q, [], 2);
    var n := if OldEnough(rules, p) then 9 else |ORDER|;
    forall k | 3 <= k < n ensures !Met(rules, p, bar, regime, ORDER[k]) { NoLadderOnChannel(rules, p, bar, regime, k); }
    SkipUnmet(rules, p, bar, regime, q, [], 3, n);
    FromTheEnd(rules, p, bar, regime, q, []);
    if OldEnough(rules, p) { HoldingByTable(rules, p, bar, regime, q, []); }
  }

  // ---- the ladder -------------------------------------------------------------------------------------------

  /** Before the first check: the bar observed and the regime tracked. */
  function Tracked(rules: ExitRules, p: Pos, bar: Bar, regime: Option<Regime>): Pos {
    TrackRegime(rules, Observe(p, bar), regime)
  }

  lemma TrackedByTable(rules: ExitRules, p: Pos, bar: Bar, regime: Option<Regime>)
    requires !OnChannel(rules, p)
    ensures Tracked(rules, p, bar, regime)
            == Seen(rules, p, bar, regime).(stage := p.stage, breakeven := p.breakeven, trailing := p.trailing)
  {
    hide StageThen, RungReached, TrailArmed;
  }

  lemma StopByTable(rules: ExitRules, p: Pos, bar: Bar, regime: Option<Regime>)
    ensures StopLevel(rules, Tracked(rules, p, bar, regime), bar, ActiveTargets(rules, p, regime))
            == DayStop(rules, p, bar, regime)
  {
    assert StopPct(rules, Tracked(rules, p, bar, regime), bar, ActiveTargets(rules, p, regime))
           == StopDistance(rules, p, bar, regime);
  }

  lemma TrailByTable(rules: ExitRules, p: Pos, q: Pos, regime: Option<Regime>)
    requires q.entry == p.entry
    ensures TrailPct(rules, q, ActiveTargets(rules, p, regime)) == TrailDistance(rules, p, regime)
  {
  }

  /** After the rungs. */
  function Climbed(rules: ExitRules, p: Pos, bar: Bar, regime: Option<Regime>): Pos {
    Tracked(rules, p, bar, regime).(
      remaining := LeftThen(rules, p, bar, regime), stage := StageThen(rules, p, bar, regime),
      breakeven := p.breakeven || RungReached(rules, p, bar, regime) == Some(FirstTarget),
      trailing := p.trailing || (StageThen(rules, p, bar, regime) == Trailing && p.stage != Trailing))
  }

  lemma PortionByTable(remaining: int, ratio: real)
    ensures Portion(remaining, ratio) == Share(remaining, ratio)
  {
  }

  /** The three targets in force, column by column. */
  lemma TargetsByTable(rules: ExitRules, p: Pos, regime: Option<Regime>)
    ensures var targets := ActiveTargets(rules, p, regime);
            && ByRegime(rules, p, regime, 10.0, 10.0, 5.0, rules.firstExitPct)
               == (if targets.Some? then targets.value.firstExitPct else rules.firstExitPct)
            && ByRegime(rules, p, regime, 15.0, 12.0, 8.0, rules.secondExitPct)
               == (if targets.Some? then targets.value.secondExitPct else rules.secondExitPct)
            && ByRegime(rules, p, regime, 25.0, 20.0, 14.0, rules.thirdExitPct)
               == (if targets.Some? then targets.value.thirdExitPct else rules.thirdExitPct)
  {
  }

  lemma TrackingKeeps(rules: ExitRules, p: Pos, bar: Bar, regime: Option<Regime>)
    ensures var q := Tracked(rules, p, bar, regime);
            && q.entry == p.entry && q.stage == p.stage && q.remaining == p.remaining
            && q.trailing == p.trailing && q.breakeven == p.breakeven
            && q.highest == Peak(p, bar) && q.holdingDays == DaysHeld(p) && q.daysSinceHigh == IdleDays(p, bar)
  {
  }

  lemma RungByTable(rules: ExitRules, p: Pos, bar: Bar, regime: Option<Regime>)
    requires PastTheStops(rules, p, bar, regime) && !p.entry.strategy.Core?
    ensures var rung := LadderRung(rules, Tracked(rules, p, bar, regime), bar, ActiveTargets(rules, p, regime));
            && rung.actions == RungSale(rules, p, bar, regime)
            && PromoteThird(rung.pos) == Climbed(rules, p, bar, regime)
  {
    hide Fees.NetPnlPct, Net, Portion, Share, PastTheStops, ByRegime, ActiveTargets, Tracked;
    NetIsNetPnlPct(p.entry.price, bar.high);
    TargetsByTable(rules, p, regime);
    TrackingKeeps(rules, p, bar, regime);
    PortionByTable(p.remaining, rules.firstExitRatio);
    PortionByTable(p.remaining, rules.secondExitRatio);
    PortionByTable(p.remaining, rules.thirdExitRatio);
  }

  /** Composite exit, low efficiency, holding rules. */
  lemma LateByTable(rules: ExitRules, p: Pos, bar: Bar, regime: Option<Regime>, q: Pos, actions: seq<Action>)
    requires LateLadder(rules, p, bar, regime) && !OnChannel(rules, p) && !p.entry.strategy.Core?
    requires q.entry == p.entry && q.holdingDays == DaysHeld(p) && q.daysSinceHigh == IdleDays(p, bar)
    requires q.stage == StageThen(rules, p, bar, regime) && q.remaining == LeftThen(rules, p, bar, regime)
    ensures LateRules(rules, q, bar, actions) == From(rules, p, bar, regime, q, actions, 6)
  {
    hide Fees.NetPnlPct, Net, LateLadder, SellOut, IdleDays, From, HoldingRules, StageThen, LeftThen;
    NetIsNetPnlPct(p.entry.price, bar.close);
    FromHere(rules, p, bar, regime, q, actions, 6);
    FromHere(rules, p, bar, regime, q, actions, 7);
    FromHere(rules, p, bar, regime, q, actions, 8);
    HoldingByTable(rules, p, bar, regime, q, actions);
  }

  /** A core position has no late rules. */
  lemma CoreIsNeverLate(rules: ExitRules, p: Pos, bar: Bar, regime: Option<Regime>, k: nat)
    requires p.entry.strategy.Core? && 6 <= k < |ORDER|
    ensures !Met(rules, p, bar, regime, ORDER[k])
  {
    hide Gain, IdleDays, DayStop;
  }

  /** Trailing stop, then the late rules. */
  lemma TrailOrLateByTable(rules: ExitRules, p: Pos, bar: Bar, regime: Option<Regime>, actions: seq<Action>)
    requires PastTheStops(rules, p, bar, regime) && !OnChannel(rules, p)
    ensures TrailOrLater(rules, Climbed(rules, p, bar, regime), bar, ActiveTargets(rules, p, regime), actions)
            == From(rules, p, bar, regime, Climbed(rules, p, bar, regime).(
                      trailing := p.trailing || TrailArmed(rules, p, bar, regime)), actions, 5)
  {
    hide Fees.NetPnlPct, Net, PastTheStops, SellOut, From, LateRules, StageThen, LeftThen, RungReached, Tracked,
         TrailPct, TrailDistance, ActiveTargets;
    TrackingKeeps(rules, p, bar, regime);
    NetIsNetPnlPct(p.entry.price, Peak(p, bar));
    var q := Climbed(rules, p, bar, regime);
    var armed := q.(trailing := p.trailing || TrailArmed(rules, p, bar, regime));
    assert ArmTrailing(rules, q) == armed;
    TrailByTable(rules, p, armed, regime);
    FromHere(rules, p, bar, regime, armed, actions, 5);
    if p.entry.strategy.Core? {
      forall k | 6 <= k < |ORDER| ensures !Met(rules, p, bar, regime, ORDER[k]) {
        CoreIsNeverLate(rules, p, bar, regime, k);
      }
      SkipUnmet(rules, p, bar, regime, armed, actions, 6, |ORDER|);
      FromTheEnd(rules, p, bar, regime, armed, actions);
      CoreSkipsLate(rules, armed, bar, actions);
    } else {
      LateByTable(rules, p, bar, regime, armed, actions);
    }
  }

  lemma CoreSkipsLate(rules: ExitRules, p: Pos, bar: Bar, actions: seq<Action>)
    requires p.entry.strategy.Core?
    ensures LateRules(rules, p, bar, actions) == Verdict(p, actions)
  {
  }

  lemma NoChannelOnLadder(rules: ExitRules, p: Pos, bar: Bar, regime: Option<Regime>, k: nat)
    requires !OnChannel(rules, p) && k < 3
    ensures !Met(rules, p, bar, regime, ORDER[k])
  {
    hide Gain, ChannelLow;
  }

  /** Where stop, age or breakeven end the day, nothing after them is met. */
  lemma NothingPastTheStops(rules: ExitRules, p: Pos, bar: Bar, regime: Option<Regime>, k: nat)
    requires !OnChannel(rules, p) && !PastTheStops(rules, p, bar, regime) && 5 <= k < |ORDER|
    ensures !Met(rules, p, bar, regime, ORDER[k])
  {
    hide Gain, IdleDays, DayStop;
  }

  /** The position as the table leaves it. */
  function LeftBy(rules: ExitRules, p: Pos, bar: Bar, regime: Option<Regime>): Pos {
    Seen(rules, p, bar, regime).(remaining := LeftThen(rules, p, bar, regime))
  }

  lemma LeftWhereStopped(rules: ExitRules, p: Pos, bar: Bar, regime: Option<Regime>)
    requires !OnChannel(rules, p) && !PastTheStops(rules, p, bar, regime)
    ensures LeftBy(rules, p, bar, regime) == Tracked(rules, p, bar, regime) && RungSale(rules, p, bar, regime) == []
  {
    hide PastTheStops, Gain;
    TrackedByTable(rules, p, bar, regime);
  }

  lemma LeftWhereClimbed(rules: ExitRules, p: Pos, bar: Bar, regime: Option<Regime>)
    requires !OnChannel(rules, p)
    ensures LeftBy(rules, p, bar, regime)
            == Climbed(rules, p, bar, regime).(trailing := p.trailing || TrailArmed(rules, p, bar, regime))
  {
    hide Tracked, StageThen, RungReached, LeftThen, TrailArmed;
    TrackedByTable(rules, p, bar, regime);
  }

  lemma StopFillByTable(rules: ExitRules, p: Pos, bar: Bar, regime: Option<Regime>)
    ensures StopFill(DayStop(rules, p, bar, regime), bar.open) == PriceOf(rules, p, bar, regime, StopLoss)
  {
    hide DayStop;
  }

  /** The ladder where stop, age or breakeven end the day. */
  lemma StoppedByTable(rules: ExitRules, p: Pos, bar: Bar, regime: Option<Regime>)
    requires !OnChannel(rules, p) && !PastTheStops(rules, p, bar, regime)
    ensures LadderExit(rules, Observe(p, bar), bar, regime)
            == From(rules, p, bar, regime, Tracked(rules, p, bar, regime), [], 3)
  {
    hide Fees.NetPnlPct, Net, From, StopLevel, DayStop, TrailOrLater, LadderRung, Tracked, SellOut, StopFill,
         ActiveTargets;
    var q := Tracked(rules, p, bar, regime);
    FromHere(rules, p, bar, regime, q, [], 3);
    FromHere(rules, p, bar, regime, q, [], 4);
    forall k | 5 <= k < |ORDER| ensures !Met(rules, p, bar, regime, ORDER[k]) {
      NothingPastTheStops(rules, p, bar, regime, k);
    }
    SkipUnmet(rules, p, bar, regime, q, [], 5, |ORDER|);
    FromTheEnd(rules, p, bar, regime, q, []);
    TrackingKeeps(rules, p, bar, regime);
    StopByTable(rules, p, bar, regime);
    StopFillByTable(rules, p, bar, regime);
    NetIsNetPnlPct(p.entry.price, bar.close);
    ObservedTargets(rules, p, bar, regime);
  }

  lemma ObservedTargets(rules: ExitRules, p: Pos, bar: Bar, regime: Option<Regime>)
    ensures ActiveTargets(rules, Observe(p, bar), regime) == ActiveTargets(rules, p, regime)
    ensures TrackRegime(rules, Observe(p, bar), regime) == Tracked(rules, p, bar, regime)
    ensures Observe(p, bar).entry == p.entry && Observe(p, bar).remaining == p.remaining
  {
  }

  /** A core position climbs no rung. */
  lemma CoreStays(rules: ExitRules, p: Pos, bar: Bar, regime: Option<Regime>)
    requires p.entry.strategy.Core?
    ensures Climbed(rules, p, bar, regime) == Tracked(rules, p, bar, regime) && RungSale(rules, p, bar, regime) == []
  {
    TrackingKeeps(rules, p, bar, regime);
  }

  /** The ladder past them. */
  lemma ClimbedByTable(rules: ExitRules, p: Pos, bar: Bar, regime: Option<Regime>)
    requires !OnChannel(rules, p) && PastTheStops(rules, p, bar, regime)
    ensures LadderExit(rules, Observe(p, bar), bar, regime)
            == TrailOrLater(rules, Climbed(rules, p, bar, regime), bar, ActiveTargets(rules, p, regime),
                            RungSale(rules, p, bar, regime))
    ensures !Met(rules, p, bar, regime, StopLoss) && !Met(rules, p, bar, regime, Breakeven)
  {
    hide Fees.NetPnlPct, Net, StopLevel, DayStop, TrailOrLater, LadderRung, Tracked, Climbed, StopFill, ActiveTargets,
         TrackRegime, RungSale;
    ObservedTargets(rules, p, bar, regime);
    TrackingKeeps(rules, p, bar, regime);
    StopByTable(rules, p, bar, regime);
    NetIsNetPnlPct(p.entry.price, bar.close);
    if p.entry.strategy.Core? { CoreStays(rules, p, bar, regime); } else { RungByTable(rules, p, bar, regime); }
  }

  /** The ladder policy: stop, breakeven, rungs, trailing stop, late rules. */
  lemma LadderByTable(rules: ExitRules, p: Pos, bar: Bar, regime: Option<Regime>)
    requires p.remaining > 0 && !OnChannel(rules, p)
    ensures CheckExit(rules, p, bar, regime)
            == From(rules, p, bar, regime, LeftBy(rules, p, bar, regime), RungSale(rules, p, bar, regime), 0)
  {
    hide Met, From, LadderExit, TrailOrLater, Tracked, LeftBy, Climbed, RungSale, PastTheStops, Observe;
    var q, sale := LeftBy(rules, p, bar, regime), RungSale(rules, p, bar, regime);
    forall k | 0 <= k < 3 ensures !Met(rules, p, bar, regime, ORDER[k]) { NoChannelOnLadder(rules, p, bar, regime, k); }
    SkipUnmet(rules, p, bar, regime, q, sale, 0, 3);
    ObservedTargets(rules, p, bar, regime);
    if PastTheStops(rules, p, bar, regime) {
      ClimbedByTable(rules, p, bar, regime);
      LeftWhereClimbed(rules, p, bar, regime);
      SkipUnmet(rules, p, bar, regime, q, sale, 3, 5);
      TrailOrLateByTable(rules, p, bar, regime, sale);
    } else {
      LeftWhereStopped(rules, p, bar, regime);
      StoppedByTable(rules, p, bar, regime);
    }
  }

  /** check_exit sells for the first reason in the documented order whose condition is met, at that reason's
      price, after at most one rung; and leaves what the table says. */
  lemma CheckExitByTable(rules: ExitRules, p: Pos, bar: Bar, regime: Option<Regime>) returns (first: nat)
    requires p.remaining > 0
    ensures ByTable(rules, p, bar, regime, first)
  {
    hide Met, From, CheckExit, Seen, RungSale, PriceOf, LeftThen, OnChannel;
    if OnChannel(rules, p) {
      ChannelByTable(rules, p, bar, regime);
      NoRungOnChannel(rules, p, bar, regime);
      ChannelSharesStay(rules, p, bar, regime);
    } else {
      LadderByTable(rules, p, bar, regime);
    }
    first := FirstMet(rules, p, bar, regime, LeftBy(rules, p, bar, regime), RungSale(rules, p, bar, regime), 0);
  }

  lemma ChannelSharesStay(rules: ExitRules, p: Pos, bar: Bar, regime: Option<Regime>)
    requires OnChannel(rules, p)
    ensures Seen(rules, p, bar, regime).remaining == p.remaining
  {
  }

  // ---- what has not happened to a survivor --------------------------------------------------------------------

  lemma NothingMet(rules: ExitRules, p: Pos, bar: Bar, regime: Option<Regime>)
    requires p.remaining > 0 && CheckExit(rules, p, bar, regime).pos.remaining > 0
    ensures forall k :: 0 <= k < |ORDER| ==> !Met(rules, p, bar, regime, ORDER[k])
    ensures LeftThen(rules, p, bar, regime) > 0
  {
    hide Met, CheckExit, Seen, RungSale, PriceOf, LeftThen;
    var first := CheckExitByTable(rules, p, bar, regime);
  }

  /** The bar has not met the composite or the low-efficiency rule of the stage it leaves. */
  ghost predicate WithinLadderRules(rules: ExitRules, p: Pos, bar: Bar, stage: Stage) {
    var gain := Net(p.entry.price, bar.close);
    var idle := if bar.high > p.highest then 0 else p.daysSinceHigh + 1;
    var buffer := if p.entry.strategy.Rsi2? then 0.3 else rules.compositeMa5BufferPct;
    && (rules.compositeExit && Reached(stage, rules.compositeMinStage) ==>
          && (bar.ma5.Some? && bar.ma5.value > 0.0 ==> bar.close >= bar.ma5.value * (1.0 - buffer / 100.0))
          && (rules.compositePrevLow && bar.prevLow.Some? && bar.prevLow.value > 0.0 && bar.low > 0.0 ==>
                bar.low >= bar.prevLow.value || bar.close >= bar.prevLow.value))
    && (rules.postExitStaleDays > 0 && (stage.First? || stage.Second?)
        && p.holdingDays + 1 >= rules.postExitStaleDays && idle >= 3 ==>
          gain <= 0.0 || gain >= rules.postExitStalePnlPct)
  }

  /** Nor one of the holding rules. */
  ghost predicate WithinHoldingRules(rules: ExitRules, p: Pos, bar: Bar) {
    var gain := Net(p.entry.price, bar.close);
    var idle := if bar.high > p.highest then 0 else p.daysSinceHigh + 1;
    && p.holdingDays + 1 < (if p.entry.strategy.Sepa? then rules.sepaMaxHoldingDays else rules.rsi2MaxHoldingDays)
    && (p.holdingDays + 1 >= rules.staleExitDays ==> gain <= -rules.staleExitPnlPct || gain >= rules.staleExitPnlPct)
    && (idle >= rules.staleHighDays ==> gain >= rules.staleHighMinPnlPct)
  }

  lemma HoldingSurvivor(rules: ExitRules, p: Pos, bar: Bar, regime: Option<Regime>)
    requires HoldingRulesOn(rules, p, bar, regime)
    requires !Met(rules, p, bar, regime, MaxHolding) && !Met(rules, p, bar, regime, Stale)
    requires !Met(rules, p, bar, regime, TrendInvalid)
    ensures WithinHoldingRules(rules, p, bar)
  {
    hide HoldingRulesOn, Net;
  }

  lemma LateSurvivor(rules: ExitRules, p: Pos, bar: Bar, regime: Option<Regime>)
    requires LateLadder(rules, p, bar, regime) && LeftThen(rules, p, bar, regime) > 0
    requires !Met(rules, p, bar, regime, CompositeMa5) && !Met(rules, p, bar, regime, CompositePrevLow)
    requires !Met(rules, p, bar, regime, LowEfficiency)
    ensures WithinLadderRules(rules, p, bar, StageThen(rules, p, bar, regime))
  {
    hide LateLadder, LeftThen, Net, StageThen, Reached;
  }

  lemma DayStopIs(rules: ExitRules, p: Pos, bar: Bar, regime: Option<Regime>)
    ensures DayStop(rules, p, bar, regime) == p.entry.price * (1.0 - StopDistance(rules, p, bar, regime) / 100.0)
  {
  }

  /** A ladder position left alive: its low was above the stop; and once it is old enough, it closed above the
      breakeven line and, if the peak has armed the trailing stop, above that; short-term positions are within
      every holding rule as well. */
  lemma LadderSurvivor(rules: ExitRules, p: Pos, bar: Bar, regime: Option<Regime>)
    requires p.remaining > 0 && !OnChannel(rules, p) && CheckExit(rules, p, bar, regime).pos.remaining > 0
    ensures bar.low > p.entry.price * (1.0 - StopDistance(rules, p, bar, regime) / 100.0)
    ensures p.holdingDays + 1 >= rules.minHoldingDays ==>
              var peak, core := Max(p.highest, bar.high), p.entry.strategy.Core?;
              && (p.breakeven ==> Net(p.entry.price, bar.close) > -0.25)
              && (p.trailing || Net(p.entry.price, peak)
                                >= (if core then rules.coreTrailingActivatePct else rules.trailingActivatePct) ==>
                    bar.close > peak * (1.0 - TrailDistance(rules, p, regime) / 100.0))
              && (!core ==> WithinHoldingRules(rules, p, bar)
                            && WithinLadderRules(rules, p, bar, CheckExit(rules, p, bar, regime).pos.stage))
  {
    hide CheckExit, DayStop, StopDistance, LeftThen, RungReached, StageThen, TrailDistance, Net, RungSale, Reached,
         WithinHoldingRules, WithinLadderRules;
    NothingMet(rules, p, bar, regime);
    var first := CheckExitByTable(rules, p, bar, regime);
    assert ORDER[6] == CompositeMa5 && ORDER[7] == CompositePrevLow && ORDER[8] == LowEfficiency;
    assert ORDER[3] == StopLoss && ORDER[4] == Breakeven && ORDER[5] == TrailingStop;
    assert ORDER[9] == MaxHolding && ORDER[10] == Stale && ORDER[11] == TrendInvalid;
    assert !Met(rules, p, bar, regime, StopLoss);
    DayStopIs(rules, p, bar, regime);
    if LateLadder(rules, p, bar, regime) {
      HoldingSurvivor(rules, p, bar, regime);
      LateSurvivor(rules, p, bar, regime);
    }
  }

  /** A channel position left alive opened, traded and closed above its hard stop, closed above its channel, and
      has its stop raised to just under the channel. */
  lemma ChannelSurvivor(rules: ExitRules, p: Pos, bar: Bar, regime: Option<Regime>)
    requires p.remaining > 0 && OnChannel(rules, p) && CheckExit(rules, p, bar, regime).pos.remaining > 0
    ensures bar.open > p.stopPrice && bar.low > p.stopPrice
    ensures var q := CheckExit(rules, p, bar, regime).pos;
            && q.remaining == p.remaining
            && (q.runner <==> p.runner || bar.high >= 1.3 * p.entry.price)
            && match if q.runner then bar.low20 else bar.low10
               case None => q.stopPrice == p.stopPrice
               case Some(low) =>
                 && bar.close >= low && bar.close >= p.stopPrice
                 && q.stopPrice == Max(p.stopPrice, 0.999 * Max(low, p.stopPrice))
    ensures p.holdingDays + 1 >= rules.minHoldingDays ==> WithinHoldingRules(rules, p, bar)
  {
    hide CheckExit, Net, RungSale, WithinHoldingRules;
    NothingMet(rules, p, bar, regime);
    NoRungOnChannel(rules, p, bar, regime);
    var first := CheckExitByTable(rules, p, bar, regime);
    assert ORDER[0] == StopGap && ORDER[1] == StopHit && ORDER[2] == ChannelBreak;
    assert ORDER[9] == MaxHolding && ORDER[10] == Stale && ORDER[11] == TrendInvalid;
    if OldEnough(rules, p) { HoldingSurvivor(rules, p, bar, regime); }
  }
}
