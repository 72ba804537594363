/** The limits a run respects: every fill obeys the reserve, risk and budget limits however often
    it was downsized, cash is never negative, and slot usage stays within its cap. */
module Limits {
  import opened Basics
  import opened Market
  import opened Config
  import opened Exits
  import opened Engine
  import opened ExitFacts
  import BooksOverRuns
  import Fees

  // ---- one order ------------------------------------------------------------------------------

  lemma CostPerShare(price: real, quantity: int)
    ensures Fees.TotalCost(price, quantity) == price * (1.0 + Fees.BUY_FEE_RATE) * quantity as real
  {
    var a := Fees.Amount(price, quantity);
    assert a == price * quantity as real;
    assert price * (1.0 + Fees.BUY_FEE_RATE) * quantity as real == a + a * Fees.BUY_FEE_RATE;
  }

  lemma FloorQuotient(x: real, d: real)
    requires d > 0.0 && Trunc(x / d) > 0
    ensures d * Trunc(x / d) as real <= x
  {
    var q := x / d;
    assert q * d == x;
    MulMono(Trunc(q) as real, q, d);
  }

  lemma LessByFactor(c: real, a: int, b: int)
    requires c > 0.0 && c * a as real < c * b as real
    ensures a < b
  {
    if a >= b {
      MulMono(b as real, a as real, c);
    }
  }

  /** Shrinking to the available cash only ever shrinks. */
  lemma CashCapShrinks(cash: real, price: real, quantity: int)
    requires price > 0.0 && CashCapped(cash, price, quantity) > 0
    ensures CashCapped(cash, price, quantity) <= quantity
  {
    if Fees.TotalCost(price, quantity) > cash {
      hide Fees.TotalCost;
      var unit := price * (1.0 + Fees.BUY_FEE_RATE);
      var q := CashCapped(cash, price, quantity);
      assert unit > 0.0;
      FloorQuotient(cash * 0.99, unit);
      CostPerShare(price, quantity);
      assert unit * q as real <= cash * 0.99;
      MulMono(0.0, q as real, unit);
      assert cash * 0.99 >= 0.0;
      LessByFactor(unit, q, quantity);
    }
  }

  lemma RiskCapShrinks(cfg: BacktestConfig, strategy: Strategy, equity: real, price: real, stopPct: real, wanted: int)
    ensures var r := RiskCapped(cfg, strategy, equity, price, stopPct, wanted);
      r.Some? ==> r.value <= wanted
    ensures var r := RiskCapped(cfg, strategy, equity, price, stopPct, wanted);
      r.Some? && cfg.sizing.Risk? && !strategy.Core? && stopPct > 0.0 ==>
        0 < r.value <= Fees.RiskQuantityCap(equity, price, stopPct, cfg.riskPerTradePct)
  {
  }

  /** The order value the sizing starts from. */
  function OrderValue(cfg: BacktestConfig, cash: real, positions: seq<Pos>, filled: map<Strategy, real>,
                      strategy: Strategy, equity: real, stopPct: real): real {
    var size := PositionSize(cfg, cash, equity, strategy, stopPct);
    if cfg.budgetCap && !strategy.Core?
    then Min(size, BudgetRemaining(cfg, positions, strategy, equity, filled)) else size
  }

  /** Every path through the sizing ends at or below the value it started from. */
  lemma OrderWithinValue(cfg: BacktestConfig, cash: real, positions: seq<Pos>, filled: map<Strategy, real>,
                         strategy: Strategy, price: real, equity: real, stopPct: real)
    requires price > 0.0
    requires SizeOrder(cfg, cash, positions, filled, strategy, price, equity, stopPct).Some?
    ensures var q := SizeOrder(cfg, cash, positions, filled, strategy, price, equity, stopPct).value;
      && q > 0
      && Fees.Amount(price, q) <= OrderValue(cfg, cash, positions, filled, strategy, equity, stopPct)
      && (cfg.sizing.Risk? && !strategy.Core? && stopPct > 0.0 ==>
            q <= Fees.RiskQuantityCap(equity, price, stopPct, cfg.riskPerTradePct))
      && cash - Fees.TotalCost(price, q) >= Reserve(cfg, equity)
  {
    hide PositionSize, BudgetRemaining, RiskCapped, CashCapped, Fees.TotalCost, Fees.RiskQuantityCap, Reserve,
         Fees.Amount;
    var value := OrderValue(cfg, cash, positions, filled, strategy, equity, stopPct);
    var wanted := Trunc(value / price);
    RiskCapShrinks(cfg, strategy, equity, price, stopPct, wanted);
    var capped := RiskCapped(cfg, strategy, equity, price, stopPct, wanted).value;
    CashCapShrinks(cash, price, capped);
    var q := CashCapped(cash, price, capped);
    FloorQuotient(value, price);
    AmountMono(price, q, wanted);
    AmountIs(price, wanted);
  }

  lemma AmountIs(price: real, quantity: int)
    ensures Fees.Amount(price, quantity) == price * quantity as real
  {
  }

  lemma AmountMono(price: real, a: int, b: int)
    requires price >= 0.0 && a <= b
    ensures Fees.Amount(price, a) <= Fees.Amount(price, b)
  {
    MulMono(a as real, b as real, price);
  }

  lemma ValueUnderRisk(cfg: BacktestConfig, cash: real, equity: real, strategy: Strategy, stopPct: real)
    requires cfg.sizing.Risk? && !strategy.Core? && stopPct > 0.0
    ensures PositionSize(cfg, cash, equity, strategy, stopPct) * stopPct <= equity * cfg.riskPerTradePct
  {
    var r := equity * cfg.riskPerTradePct / stopPct;
    assert r * stopPct == equity * cfg.riskPerTradePct;
    MulMono(PositionSize(cfg, cash, equity, strategy, stopPct), r, stopPct);
  }

  /** What an order that gets filled is guaranteed, whatever shrank it on the way: the reserve
      stays in cash; a risk-sized order risks no more than its share of equity, gross and with the
      rounded fee; and under a budget cap the strategy's exposure at cost stays within its
      allocation before this order's own fee. */
  lemma FillRespectsLimits(cfg: BacktestConfig, cash: real, positions: seq<Pos>, filled: map<Strategy, real>,
                           strategy: Strategy, price: real, equity: real, stopPct: real)
    requires price > 0.0
    requires SizeOrder(cfg, cash, positions, filled, strategy, price, equity, stopPct).Some?
    ensures var q := SizeOrder(cfg, cash, positions, filled, strategy, price, equity, stopPct).value;
      && cash - Fees.TotalCost(price, q) >= Reserve(cfg, equity)
      && (cfg.sizing.Risk? && !strategy.Core? && stopPct > 0.0 ==>
            && Fees.Amount(price, q) * stopPct <= equity * cfg.riskPerTradePct
            && Fees.PlannedRisk(price, q, stopPct) <= equity * cfg.riskPerTradePct / 100.0)
      && (cfg.budgetCap && !strategy.Core? ==>
            HeldAtCost(positions, strategy) + FilledToday(filled, strategy) + Fees.TotalCost(price, q)
            <= equity * Allocation(cfg, strategy, 0.0) + Fees.BuyFee(Fees.Amount(price, q)))
  {
    hide SizeOrder, PositionSize, Fees.RiskQuantityCap, Fees.PlannedRisk, Fees.Amount, HeldAtCost, Reserve;
    OrderWithinValue(cfg, cash, positions, filled, strategy, price, equity, stopPct);
    var q := SizeOrder(cfg, cash, positions, filled, strategy, price, equity, stopPct).value;
    if cfg.sizing.Risk? && !strategy.Core? && stopPct > 0.0 {
      ValueUnderRisk(cfg, cash, equity, strategy, stopPct);
      MulMono(Fees.Amount(price, q), PositionSize(cfg, cash, equity, strategy, stopPct), stopPct);
      RiskCapPlans(equity, price, stopPct, cfg.riskPerTradePct, q);
    }
    if cfg.budgetCap && !strategy.Core? {
      BudgetWasLeft(cfg, cash, positions, filled, strategy, price, equity, stopPct);
    }
  }

  lemma BudgetWasLeft(cfg: BacktestConfig, cash: real, positions: seq<Pos>, filled: map<Strategy, real>,
                      strategy: Strategy, price: real, equity: real, stopPct: real)
    requires price > 0.0 && cfg.budgetCap && !strategy.Core?
    requires SizeOrder(cfg, cash, positions, filled, strategy, price, equity, stopPct).Some?
    ensures BudgetRemaining(cfg, positions, strategy, equity, filled)
         == equity * Allocation(cfg, strategy, 0.0) - HeldAtCost(positions, strategy) - FilledToday(filled, strategy)
  {
    hide PositionSize, RiskCapped, CashCapped, Fees.TotalCost, Reserve, HeldAtCost, FilledToday;
  }

  /** Any quantity up to the cap plans a loss within the budget. */
  lemma RiskCapPlans(equity: real, price: real, stopPct: real, riskPct: real, quantity: int)
    requires 0 < quantity <= Fees.RiskQuantityCap(equity, price, stopPct, riskPct)
    ensures Fees.PlannedRisk(price, quantity, stopPct) <= equity * riskPct / 100.0
  {
    hide Fees.PlannedRisk, Fees.ShrinkToBudget, Fees.FirstGuess;
    Fees.ShrinkMeetsBudget(price, stopPct, equity * riskPct / 100.0, Fees.FirstGuess(equity, price, stopPct, riskPct));
    Fees.PlannedRiskMonotone(price, quantity, Fees.RiskQuantityCap(equity, price, stopPct, riskPct), stopPct);
  }

  /** The limits a fill leaves behind, seen from the desk: the strategy's whole exposure at cost, this
      order included, is within its allocation plus this order's fee, and what was filled earlier
      the same day is counted a second time against it. */
  ghost predicate FillWithinLimits(cfg: BacktestConfig, tape: Tape, day: int, useClose: bool, desk: Desk, p: Pos) {
    var equity := Equity(tape, desk.cash, desk.positions, day, useClose);
    var after := RecordFill(desk, p);
    var strategy := p.entry.strategy;
    && after.cash >= Reserve(cfg, equity)
    && (cfg.sizing.Risk? && !strategy.Core? && p.entry.atrStopPct > 0.0 ==>
          && Fees.Amount(p.entry.price, p.entry.quantity) * p.entry.atrStopPct <= equity * cfg.riskPerTradePct
          && Fees.PlannedRisk(p.entry.price, p.entry.quantity, p.entry.atrStopPct)
             <= equity * cfg.riskPerTradePct / 100.0)
    && (cfg.budgetCap && !strategy.Core? ==>
          HeldAtCost(after.positions, strategy) + FilledToday(desk.filled, strategy)
          <= equity * Allocation(cfg, strategy, 0.0) + Fees.BuyFee(Fees.Amount(p.entry.price, p.entry.quantity)))
  }

  /** Every order a desk fills leaves it within the limits. */
  lemma FilledOrderWithinLimits(cfg: BacktestConfig, tape: Tape, day: int, useClose: bool, desk: Desk, order: Order)
    requires AllAlive(desk.positions) && !Holding(desk.positions, order.symbol)
    ensures var p := Opening(cfg, tape, day, useClose, desk, order);
      p.Some? ==> FillWithinLimits(cfg, tape, day, useClose, desk, p.value)
  {
    hide SizeOrder, Equity, EntryAtr, EntryStopPct, GapDown, Fees.TotalCost, Fees.PlannedRisk, Fees.Amount, Reserve,
         HeldAtCost, Put, Find, BuyTrade, InitialStop, Fees.BuyFee, Allocation, FilledToday;
    match RowOn(tape, order.symbol, day)
    case None =>
    case Some(bar) =>
      var price := FillPrice(bar, useClose);
      if price > 0.0 && !GapDown(order, price, useClose) {
        var stopPct := EntryStopPct(cfg.exits, order.strategy, EntryAtr(tape, order.symbol, day, useClose));
        var equity := Equity(tape, desk.cash, desk.positions, day, useClose);
        if SizeOrder(cfg, desk.cash, desk.positions, desk.filled, order.strategy, price, equity, stopPct).Some? {
          FillRespectsLimits(cfg, desk.cash, desk.positions, desk.filled, order.strategy, price, equity, stopPct);
          BooksOverRuns.OpeningShape(cfg, tape, day, useClose, desk, order);
          var p := Opening(cfg, tape, day, useClose, desk, order).value;
          PutNew(desk.positions, p);
          HeldAtCostSnoc(desk.positions, p);
        }
      }
  }

  lemma HeldAtCostSnoc(positions: seq<Pos>, p: Pos)
    requires p.remaining == p.entry.quantity > 0
    ensures HeldAtCost(positions + [p], p.entry.strategy) == HeldAtCost(positions, p.entry.strategy) + p.entry.costBasis
  {
    assert (positions + [p])[..|positions|] == positions;
    var q := p.entry.quantity as real;
    assert p.entry.costBasis * q / q == p.entry.costBasis;
  }

  // ---- cash is never negative -----------------------------------------------------------------

  /** Cash is not negative and every position is one whose exits cannot sell below zero. */
  ghost predicate Solvent(cash: real, positions: seq<Pos>) {
    cash >= 0.0 && forall p :: p in positions ==> PosSane(p)
  }

  lemma MarkNonNegative(tape: Tape, p: Pos, day: int, atClose: bool)
    requires TapeNonNegative(tape) && PosSane(p)
    ensures Mark(tape, p, day, atClose) >= 0.0
  {
    LastBarNonNegative(tape, p.entry.symbol, day);
    LastBarNonNegative(tape, p.entry.symbol, day - 1);
  }

  lemma {:induction false} EquityAtLeastCash(tape: Tape, cash: real, positions: seq<Pos>, day: int, atClose: bool)
    requires TapeNonNegative(tape) && forall p :: p in positions ==> PosSane(p)
    ensures Equity(tape, cash, positions, day, atClose) >= cash
  {
    if positions != [] {
      hide Mark, TapeNonNegative;
      var last := positions[|positions| - 1];
      EquityAtLeastCash(tape, cash, positions[..|positions| - 1], day, atClose);
      MarkNonNegative(tape, last, day, atClose);
      if last.remaining > 0 {
        MulMono(0.0, Mark(tape, last, day, atClose), last.remaining as real);
      }
    }
  }

  lemma EntryStopBounded(rules: ExitRules, strategy: Strategy, atrPct: Option<real>)
    requires StopsAreFractions(rules)
    ensures EntryStopPct(rules, strategy, atrPct) <= 100.0
  {
  }

  lemma InitialStopNonNegative(price: real, stopPct: real)
    requires price >= 0.0 && stopPct <= 100.0
    ensures InitialStop(price, stopPct) >= 0.0
  {
    var room := 1.0 - stopPct / 100.0;
    MulMono(0.0, price, room);
    assert InitialStop(price, stopPct) == price * room;
  }

  lemma ReserveNonNegative(cfg: BacktestConfig, equity: real)
    requires cfg.minCashReservePct >= 0.0 && equity >= 0.0
    ensures Reserve(cfg, equity) >= 0.0
  {
    MulMono(0.0, equity, cfg.minCashReservePct);
    assert equity * cfg.minCashReservePct >= 0.0;
  }

  /** Settings under which money stays non-negative: a reserve that is not negative, and stop
      distances of at most the whole price. */
  ghost predicate SafeSettings(cfg: BacktestConfig) {
    cfg.minCashReservePct >= 0.0 && StopsAreFractions(cfg.exits)
  }

  lemma OpeningSolvent(cfg: BacktestConfig, tape: Tape, day: int, useClose: bool, desk: Desk, order: Order)
    requires SafeSettings(cfg) && TapeNonNegative(tape) && Solvent(desk.cash, desk.positions)
    ensures match Opening(cfg, tape, day, useClose, desk, order)
      case None => true
      case Some(p) => PosSane(p) && desk.cash - p.entry.costBasis >= 0.0
  {
    hide SizeOrder, Equity, EntryAtr, EntryStopPct, GapDown, InitialStop, Fees.TotalCost, Reserve, TapeNonNegative;
    match RowOn(tape, order.symbol, day)
    case None =>
    case Some(bar) =>
      var price := FillPrice(bar, useClose);
      if price > 0.0 && !GapDown(order, price, useClose) {
        var stopPct := EntryStopPct(cfg.exits, order.strategy, EntryAtr(tape, order.symbol, day, useClose));
        var equity := Equity(tape, desk.cash, desk.positions, day, useClose);
        EntryStopBounded(cfg.exits, order.strategy, EntryAtr(tape, order.symbol, day, useClose));
        InitialStopNonNegative(price, stopPct);
        EquityAtLeastCash(tape, desk.cash, desk.positions, day, useClose);
        ReserveNonNegative(cfg, equity);
        if SizeOrder(cfg, desk.cash, desk.positions, desk.filled, order.strategy, price, equity, stopPct).Some? {
          OrderWithinValue(cfg, desk.cash, desk.positions, desk.filled, order.strategy, price, equity, stopPct);
        }
      }
  }

  lemma {:induction false} OrdersSolvent(cfg: BacktestConfig, tape: Tape, day: int, useClose: bool, desk: Desk,
                                         orders: seq<Order>)
    requires SafeSettings(cfg) && TapeNonNegative(tape) && Solvent(desk.cash, desk.positions)
    ensures var d := ExecuteOrders(cfg, tape, day, useClose, desk, orders);
      d.Some? ==> Solvent(d.value.cash, d.value.positions)
  {
    if orders != [] {
      hide Opening, Skipped, Untimely, TapeNonNegative, PosSane;
      var init, order := orders[..|orders| - 1], orders[|orders| - 1];
      OrdersSolvent(cfg, tape, day, useClose, desk, init);
      match ExecuteOrders(cfg, tape, day, useClose, desk, init)
      case None =>
      case Some(d) => OpeningSolvent(cfg, tape, day, useClose, d, order);
    }
  }

  lemma SaleProceedsNonNegative(entry: Entry, holdingDays: int, day: int, a: Action)
    requires a.price >= 0.0 && a.qty >= 0
    ensures var t := SellTrade(entry, holdingDays, day, a); t.amount - t.fee >= 0.0
  {
    MulMono(0.0, a.price, a.qty as real);
    assert Fees.Amount(a.price, a.qty) >= 0.0;
  }

  lemma {:induction false} SettleSolvent(till: Till, p: Pos, day: int, actions: seq<Action>)
    requires forall a :: a in actions ==> a.price >= 0.0
    ensures Settle(till, p, day, actions).cash >= till.cash
    decreases |actions|
  {
    if actions != [] {
      hide SellTrade;
      var last := actions[|actions| - 1];
      SettleSolvent(till, p, day, actions[..|actions| - 1]);
      if last.qty > 0 {
        SaleProceedsNonNegative(p.entry, p.holdingDays, day, last);
      }
    }
  }

  lemma VerdictFair(cfg: BacktestConfig, tape: Tape, day: int, p: Pos)
    requires SafeSettings(cfg) && TapeNonNegative(tape) && PosSane(p)
    ensures FairPrices(ExitVerdict(cfg, tape, day, p))
  {
    hide CheckExit;
    match RowOn(tape, p.entry.symbol, day)
    case None =>
    case Some(bar) => CheckExitFair(cfg.exits, p, bar, Some(tape.regime(day)));
  }

  lemma {:induction false} ExitsSolvent(cfg: BacktestConfig, tape: Tape, day: int, till: Till, positions: seq<Pos>)
    requires SafeSettings(cfg) && TapeNonNegative(tape) && forall p :: p in positions ==> PosSane(p)
    ensures ExitAll(cfg, tape, day, till, positions).cash >= till.cash
    decreases |positions|
  {
    if positions != [] {
      hide ExitVerdict, Settle, TapeNonNegative, SafeSettings;
      var init, last := positions[..|positions| - 1], positions[|positions| - 1];
      ExitsSolvent(cfg, tape, day, till, init);
      VerdictFair(cfg, tape, day, last);
      var v := ExitVerdict(cfg, tape, day, last);
      SettleSolvent(ExitAll(cfg, tape, day, till, init), v.pos, day, v.actions);
    }
  }

  lemma {:induction false} AliveSubset(positions: seq<Pos>)
    ensures forall p :: p in Alive(positions) <==> p in positions && p.remaining > 0
  {
    if positions != [] {
      AliveSubset(positions[..|positions| - 1]);
      assert positions == positions[..|positions| - 1] + [positions[|positions| - 1]];
    }
  }

  lemma CheckExitsSolvent(cfg: BacktestConfig, tape: Tape, day: int, st: State)
    requires SafeSettings(cfg) && TapeNonNegative(tape) && Solvent(st.cash, st.positions)
    ensures var s := CheckExits(cfg, tape, day, st); Solvent(s.cash, s.positions)
  {
    hide ExitVerdict, TapeNonNegative, SafeSettings, PosSane, ExitAll;
    ExitsSolvent(cfg, tape, day, Till(st.cash, st.trades, st.locked), st.positions);
    var exited := ExitedPositions(cfg, tape, day, st.positions);
    AliveSubset(exited);
    forall p | p in exited
      ensures PosSane(p)
    {
      var i :| 0 <= i < |exited| && exited[i] == p;
      assert st.positions[i] in st.positions;
      VerdictFair(cfg, tape, day, st.positions[i]);
    }
  }

  lemma DaySolvent(cfg: BacktestConfig, universe: Universe, tape: Tape, day: int, st: State)
    requires SafeSettings(cfg) && TapeNonNegative(tape) && Solvent(st.cash, st.positions)
    ensures var r := RunDay(cfg, universe, tape, day, st); r.Some? ==> Solvent(r.value.cash, r.value.positions)
  {
    hide ExecuteOrders, CheckExits, GenerateSignals, Equity, SortByScore, ShortUsage, CountHeld, TapeNonNegative,
         Solvent;
    var s0 := st.(locked := false);
    OrdersSolvent(cfg, tape, day, false, OpeningDesk(cfg, s0), SortByScore(s0.pending));
    match Morning(cfg, tape, day, st)
    case None =>
    case Some(s) =>
      CheckExitsSolvent(cfg, tape, day, s);
      var exited := CheckExits(cfg, tape, day, s);
      var signalled := if exited.locked then exited else GenerateSignals(cfg, universe, tape, day, exited);
      GenerateKeepsBook(cfg, universe, tape, day, exited);
      OrdersSolvent(cfg, tape, day, true, OpeningDesk(cfg, signalled), SortByScore(signalled.pending));
  }

  lemma GenerateKeepsBook(cfg: BacktestConfig, universe: Universe, tape: Tape, day: int, st: State)
    ensures var s := GenerateSignals(cfg, universe, tape, day, st);
      s.cash == st.cash && s.positions == st.positions && s.trades == st.trades
  {
  }

  /** On any tape of non-negative prices, cash is never negative at the end of any day of any run. */
  lemma {:induction false} CashNeverNegative(cfg: BacktestConfig, universe: Universe, tape: Tape, initial: real,
                                             days: seq<int>)
    requires SafeSettings(cfg) && TapeNonNegative(tape) && initial >= 0.0
    ensures var r := RunDays(cfg, universe, tape, initial, days); r.Some? ==> Solvent(r.value.cash, r.value.positions)
  {
    if days != [] {
      hide RunDay, TapeNonNegative, Solvent;
      CashNeverNegative(cfg, universe, tape, initial, days[..|days| - 1]);
      match RunDays(cfg, universe, tape, initial, days[..|days| - 1])
      case None =>
      case Some(st) => DaySolvent(cfg, universe, tape, days[|days| - 1], st);
    }
  }

  // ---- slots ----------------------------------------------------------------------------------

  ghost predicate AllAlive(positions: seq<Pos>) {
    forall p :: p in positions ==> p.remaining > 0
  }

  /** The counters of the fill loop are the recomputed usage of its own positions. */
  ghost predicate CountersExact(cfg: BacktestConfig, desk: Desk) {
    && AllAlive(desk.positions)
    && desk.shortUsed == ShortUsage(cfg, desk.positions)
    && desk.coreUsed == CountHeld(desk.positions, true)
  }

  lemma UsageSnoc(cfg: BacktestConfig, positions: seq<Pos>, p: Pos)
    ensures ShortUsage(cfg, positions + [p]) == ShortUsage(cfg, positions) + Slot(cfg, p)
    ensures CountHeld(positions + [p], true)
         == CountHeld(positions, true) + if p.entry.strategy.Core? && p.remaining > 0 then 1 else 0
  {
    assert (positions + [p])[..|positions|] == positions;
  }

  lemma SelfQuotient(d: real)
    requires d > 0.0
    ensures d / d == 1.0
  {
  }

  /** A fresh short-term position takes one whole slot under either policy. */
  lemma FreshSlot(cfg: BacktestConfig, p: Pos)
    requires p.remaining == p.entry.quantity > 0 && p.stage.NoExit?
    ensures Slot(cfg, p) == if p.entry.strategy.Core? then 0.0 else 1.0
  {
    SelfQuotient(p.entry.quantity as real);
  }

  lemma OpeningFresh(cfg: BacktestConfig, tape: Tape, day: int, useClose: bool, desk: Desk, order: Order)
    ensures var p := Opening(cfg, tape, day, useClose, desk, order); p.Some? ==> p.value.stage.NoExit?
  {
    hide SizeOrder, Equity, EntryAtr, EntryStopPct, GapDown;
  }

  /** Within the cap: below cap + 1 always, at most the cap when slots are counted whole. */
  ghost predicate WithinCap(cfg: BacktestConfig, usage: real) {
    usage < MaxShort(cfg) + 1.0 && (cfg.slotPolicy.Fixed? ==> usage <= MaxShort(cfg))
  }

  lemma {:induction false} FixedUsageIsCount(cfg: BacktestConfig, positions: seq<Pos>)
    requires cfg.slotPolicy.Fixed?
    ensures ShortUsage(cfg, positions) == CountHeld(positions, false) as real
  {
    if positions != [] {
      FixedUsageIsCount(cfg, positions[..|positions| - 1]);
    }
  }

  lemma FillKeepsSlots(cfg: BacktestConfig, desk: Desk, p: Pos)
    requires CountersExact(cfg, desk) && !SlotsFull(cfg, desk, p.entry.strategy)
    requires !Holding(desk.positions, p.entry.symbol)
    requires WithinCap(cfg, desk.shortUsed)
    requires p.remaining == p.entry.quantity > 0 && p.stage.NoExit?
    ensures CountersExact(cfg, RecordFill(desk, p)) && WithinCap(cfg, RecordFill(desk, p).shortUsed)
    ensures desk.coreUsed <= cfg.maxPositionsCore ==> RecordFill(desk, p).coreUsed <= cfg.maxPositionsCore
  {
    hide ShortUsage, CountHeld, Slot, BuyTrade, Find, WithinCap, MaxShort, FilledToday;
    PutNew(desk.positions, p);
    UsageSnoc(cfg, desk.positions, p);
    FreshSlot(cfg, p);
    if !p.entry.strategy.Core? {
      OneMoreSlot(cfg, desk.positions);
    }
  }

  lemma PutNew(positions: seq<Pos>, p: Pos)
    requires AllAlive(positions) && !Holding(positions, p.entry.symbol)
    ensures Put(positions, p) == positions + [p]
  {
  }

  /** A whole slot taken while usage is below the cap. */
  lemma OneMoreSlot(cfg: BacktestConfig, positions: seq<Pos>)
    requires ShortUsage(cfg, positions) < MaxShort(cfg)
    ensures WithinCap(cfg, ShortUsage(cfg, positions) + 1.0)
  {
    hide ShortUsage, CountHeld;
    if cfg.slotPolicy.Fixed? {
      FixedUsageIsCount(cfg, positions);
      var cap := if cfg.sizing.Risk? then cfg.riskMaxPositions else cfg.maxPositionsShort;
      IntegerStep(CountHeld(positions, false), cap);
    }
  }

  lemma IntegerStep(a: int, b: int)
    requires a as real < b as real
    ensures a as real + 1.0 <= b as real
  {
    assert a < b;
    assert (a + 1) as real == a as real + 1.0;
  }

  /** The body of the fill loop keeps its counters exact and its usage within the caps. */
  lemma OrderKeepsSlots(cfg: BacktestConfig, tape: Tape, day: int, useClose: bool, desk: Desk, order: Order)
    requires CountersExact(cfg, desk) && WithinCap(cfg, desk.shortUsed)
    ensures var d := ExecuteOrder(cfg, tape, day, useClose, desk, order);
      d.Some? ==> CountersExact(cfg, d.value) && WithinCap(cfg, d.value.shortUsed)
    ensures var d := ExecuteOrder(cfg, tape, day, useClose, desk, order);
      d.Some? && desk.coreUsed <= cfg.maxPositionsCore ==> d.value.coreUsed <= cfg.maxPositionsCore
  {
    hide Opening, Untimely, CountersExact, WithinCap, RecordFill, Fees.TotalCost, SlotsFull;
    BooksOverRuns.OpeningShape(cfg, tape, day, useClose, desk, order);
    OpeningFresh(cfg, tape, day, useClose, desk, order);
    match Opening(cfg, tape, day, useClose, desk, order)
    case None =>
    case Some(p) =>
      if !Skipped(cfg, desk, order) {
        FillKeepsSlots(cfg, desk, p);
      }
  }

  lemma {:induction false} OrdersKeepSlots(cfg: BacktestConfig, tape: Tape, day: int, useClose: bool, desk: Desk,
                                           orders: seq<Order>)
    requires CountersExact(cfg, desk) && WithinCap(cfg, desk.shortUsed)
    ensures var d := ExecuteOrders(cfg, tape, day, useClose, desk, orders);
      d.Some? ==> CountersExact(cfg, d.value) && WithinCap(cfg, d.value.shortUsed)
    ensures var d := ExecuteOrders(cfg, tape, day, useClose, desk, orders);
      d.Some? && desk.coreUsed <= cfg.maxPositionsCore ==> d.value.coreUsed <= cfg.maxPositionsCore
  {
    if orders != [] {
      hide ExecuteOrder, CountersExact, WithinCap;
      var init := orders[..|orders| - 1];
      OrdersKeepSlots(cfg, tape, day, useClose, desk, init);
      match ExecuteOrders(cfg, tape, day, useClose, desk, init)
      case None =>
      case Some(d) => OrderKeepsSlots(cfg, tape, day, useClose, d, orders[|orders| - 1]);
    }
  }

  lemma VerdictNeverAddsSlot(cfg: BacktestConfig, tape: Tape, day: int, p: Pos)
    requires RatiosAreFractions(cfg.exits) && p.remaining > 0
    ensures var q := ExitVerdict(cfg, tape, day, p).pos;
      Slot(cfg, q) <= Slot(cfg, p) && q.entry == p.entry
  {
    hide CheckExit, SlotWeight;
    BooksOverRuns.VerdictSplits(cfg, tape, day, p);
    match RowOn(tape, p.entry.symbol, day)
    case None =>
    case Some(bar) =>
      ExitNeverAddsWeight(cfg.exits, p, bar, Some(tape.regime(day)));
      SlotWeightRange(p.remaining, p.entry.quantity, p.stage);
  }

  lemma NobodySurvives()
    ensures Alive([]) == []
  {
  }

  /** Exits only ever free slots. */
  lemma {:induction false} ExitsFreeSlots(cfg: BacktestConfig, tape: Tape, day: int, positions: seq<Pos>)
    requires RatiosAreFractions(cfg.exits) && AllAlive(positions)
    ensures ShortUsage(cfg, Alive(ExitedPositions(cfg, tape, day, positions))) <= ShortUsage(cfg, positions)
    ensures CountHeld(Alive(ExitedPositions(cfg, tape, day, positions)), true) <= CountHeld(positions, true)
    decreases |positions|
  {
    hide ExitVerdict, Slot, Alive;
    if positions == [] {
      NobodySurvives();
    } else {
      var init, last := positions[..|positions| - 1], positions[|positions| - 1];
      ExitsFreeSlots(cfg, tape, day, init);
      VerdictNeverAddsSlot(cfg, tape, day, last);
      var q := ExitVerdict(cfg, tape, day, last).pos;
      var exited := ExitedPositions(cfg, tape, day, init);
      assert ExitedPositions(cfg, tape, day, positions) == exited + [q];
      SurvivorUsage(cfg, exited, q);
      SlotNonNegative(cfg, last);
    }
  }

  /** A further position adds its slot and its seat exactly when it is still alive. */
  lemma SurvivorUsage(cfg: BacktestConfig, exited: seq<Pos>, q: Pos)
    ensures ShortUsage(cfg, Alive(exited + [q]))
            == ShortUsage(cfg, Alive(exited)) + if q.remaining > 0 then Slot(cfg, q) else 0.0
    ensures CountHeld(Alive(exited + [q]), true)
            == CountHeld(Alive(exited), true) + if q.entry.strategy.Core? && q.remaining > 0 then 1 else 0
  {
    hide Slot;
    assert (exited + [q])[..|exited|] == exited;
    if q.remaining > 0 {
      UsageSnoc(cfg, Alive(exited), q);
    } else {
      assert Alive(exited) + [] == Alive(exited);
    }
  }

  lemma SlotNonNegative(cfg: BacktestConfig, p: Pos)
    ensures Slot(cfg, p) >= 0.0
  {
    hide SlotWeight;
    SlotWeightRange(p.remaining, p.entry.quantity, p.stage);
  }

  ghost predicate SlotsSound(cfg: BacktestConfig, st: State) {
    && AllAlive(st.positions)
    && WithinCap(cfg, ShortUsage(cfg, st.positions))
    && CountHeld(st.positions, true) <= cfg.maxPositionsCore
  }

  lemma PendingKeepsSlots(cfg: BacktestConfig, tape: Tape, day: int, useClose: bool, st: State)
    requires SlotsSound(cfg, st)
    ensures var r := ExecutePending(cfg, tape, day, useClose, st); r.Some? ==> SlotsSound(cfg, r.value)
  {
    hide ExecuteOrders, SortByScore, ShortUsage, CountHeld;
    OrdersKeepSlots(cfg, tape, day, useClose, OpeningDesk(cfg, st), SortByScore(st.pending));
  }

  lemma CheckExitsKeepsSlots(cfg: BacktestConfig, tape: Tape, day: int, st: State)
    requires RatiosAreFractions(cfg.exits) && SlotsSound(cfg, st)
    ensures SlotsSound(cfg, CheckExits(cfg, tape, day, st))
  {
    hide ExitAll, ShortUsage, CountHeld, ExitVerdict;
    ExitsFreeSlots(cfg, tape, day, st.positions);
    AliveSubset(ExitedPositions(cfg, tape, day, st.positions));
  }

  lemma DayKeepsSlots(cfg: BacktestConfig, universe: Universe, tape: Tape, day: int, st: State)
    requires RatiosAreFractions(cfg.exits) && SlotsSound(cfg, st)
    ensures var m := Morning(cfg, tape, day, st); m.Some? ==> SlotsSound(cfg, m.value)
    ensures var r := RunDay(cfg, universe, tape, day, st); r.Some? ==> SlotsSound(cfg, r.value)
  {
    hide ExecutePending, CheckExits, GenerateSignals, Equity, ShortUsage, CountHeld;
    PendingKeepsSlots(cfg, tape, day, false, st.(locked := false));
    match Morning(cfg, tape, day, st)
    case None =>
    case Some(s) =>
      CheckExitsKeepsSlots(cfg, tape, day, s);
      var exited := CheckExits(cfg, tape, day, s);
      GenerateKeepsBook(cfg, universe, tape, day, exited);
      var signalled := if exited.locked then exited else GenerateSignals(cfg, universe, tape, day, exited);
      PendingKeepsSlots(cfg, tape, day, true, signalled);
  }

  /** Slot bound over whole runs: weighted usage stays below cap + 1, and at most the cap when
      slots are counted whole; core positions stay within theirs. */
  lemma {:induction false} SlotBoundOverRuns(cfg: BacktestConfig, universe: Universe, tape: Tape, initial: real,
                                             days: seq<int>)
    requires RatiosAreFractions(cfg.exits) && MaxShort(cfg) >= 0.0 && cfg.maxPositionsCore >= 0
    ensures var r := RunDays(cfg, universe, tape, initial, days); r.Some? ==> SlotsSound(cfg, r.value)
  {
    if days != [] {
      hide RunDay, SlotsSound;
      SlotBoundOverRuns(cfg, universe, tape, initial, days[..|days| - 1]);
      match RunDays(cfg, universe, tape, initial, days[..|days| - 1])
      case None =>
      case Some(st) => DayKeepsSlots(cfg, universe, tape, days[|days| - 1], st);
    }
  }
}
