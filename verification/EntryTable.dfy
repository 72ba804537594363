/** Valuation, sizing and fills as the program documents them, written from prices, settings and positions. */
module EntryTable {
  import opened Basics
  import opened Market
  import opened Config
  import opened Exits
  import opened Engine
  import opened Sums
  import ExitFacts
  import Fees

  // ---- the latest bar --------------------------------------------------------------------------------------

  /** `d` is the symbol's last bar up to `day`. */
  ghost predicate IsLatest(tape: Tape, symbol: string, day: int, d: DatedBar) {
    && 0 <= d.day <= day && RowOn(tape, symbol, d.day) == Some(d.bar)
    && forall later: int :: d.day < later <= day ==> RowOn(tape, symbol, later).None?
  }

  ghost predicate NoBarYet(tape: Tape, symbol: string, day: int) {
    forall t: int :: 0 <= t <= day ==> RowOn(tape, symbol, t).None?
  }

  lemma {:induction false} LastBarIsLatest(tape: Tape, symbol: string, day: int)
    ensures match LastBar(tape, symbol, day)
            case Some(d) => IsLatest(tape, symbol, day, d)
            case None => NoBarYet(tape, symbol, day)
    decreases if day < 0 then 0 else day + 1
  {
    if day >= 0 && (symbol, day) !in tape.bars {
      LastBarIsLatest(tape, symbol, day - 1);
    }
  }

  /** The symbol's last close up to `day`, the fallback where there is none. */
  ghost predicate LastCloseIs(tape: Tape, symbol: string, day: int, fallback: real, price: real) {
    || (exists d :: IsLatest(tape, symbol, day, d) && price == d.bar.close)
    || (NoBarYet(tape, symbol, day) && price == fallback)
  }

  /** Positions are valued at the close at their last close up to the day; at the open at the day's open, where
      there is one, else at the last close before the day; without any bar at their entry price. */
  lemma MarksAre(tape: Tape, p: Pos, day: int)
    ensures LastCloseIs(tape, p.entry.symbol, day, p.entry.price, Mark(tape, p, day, true))
    ensures match RowOn(tape, p.entry.symbol, day)
            case Some(bar) =>
              if bar.open > 0.0 then Mark(tape, p, day, false) == bar.open
              else LastCloseIs(tape, p.entry.symbol, day - 1, p.entry.price, Mark(tape, p, day, false))
            case None => LastCloseIs(tape, p.entry.symbol, day - 1, p.entry.price, Mark(tape, p, day, false))
  {
    LastBarIsLatest(tape, p.entry.symbol, day);
    LastBarIsLatest(tape, p.entry.symbol, day - 1);
    if LastBar(tape, p.entry.symbol, day).Some? {
      assert IsLatest(tape, p.entry.symbol, day, LastBar(tape, p.entry.symbol, day).value);
    }
    if LastBar(tape, p.entry.symbol, day - 1).Some? {
      assert IsLatest(tape, p.entry.symbol, day - 1, LastBar(tape, p.entry.symbol, day - 1).value);
    }
  }

  /** Equity is cash and every share held at its mark. */
  lemma {:induction false} EquityIs(tape: Tape, cash: real, positions: seq<Pos>, day: int, atClose: bool)
    ensures Equity(tape, cash, positions, day, atClose)
            == cash + Sum(positions, (p: Pos) =>
                 if p.remaining > 0 then Mark(tape, p, day, atClose) * p.remaining as real else 0.0)
  {
    hide Mark;
    if positions != [] {
      EquityIs(tape, cash, positions[..|positions| - 1], day, atClose);
    }
  }

  /** What the shares a position still holds had cost, for one strategy. */
  function AtCost(p: Pos, strategy: Strategy): real {
    if p.entry.strategy == strategy && p.remaining > 0 && p.entry.quantity > 0
    then p.entry.costBasis * p.remaining as real / p.entry.quantity as real else 0.0
  }

  /** Exposure of a strategy is what the shares still held had cost. */
  lemma {:induction false} HeldAtCostIs(positions: seq<Pos>, strategy: Strategy)
    requires forall p :: p in positions ==> p.entry.quantity > 0
    ensures HeldAtCost(positions, strategy) == Sum(positions, (p: Pos) => AtCost(p, strategy))
  {
    if positions != [] {
      hide AtCost;
      var init, last := positions[..|positions| - 1], positions[|positions| - 1];
      assert positions == init + [last];
      HeldAtCostIs(init, strategy);
      LastAtCost(init, last, strategy);
    }
  }

  lemma LastAtCost(init: seq<Pos>, last: Pos, strategy: Strategy)
    requires last.entry.quantity > 0
    ensures HeldAtCost(init + [last], strategy) == HeldAtCost(init, strategy) + AtCost(last, strategy)
  {
    assert (init + [last])[..|init|] == init;
  }

  /** A slot of the live weighting: the part of the shares still held, scaled down with the stage, within its
      floor and one. */
  lemma SlotIs(cfg: BacktestConfig, p: Pos)
    requires p.entry.quantity > 0 && 0 < p.remaining <= p.entry.quantity && !p.entry.strategy.Core?
    ensures var part := p.remaining as real / p.entry.quantity as real;
            Slot(cfg, p) == if cfg.slotPolicy.Fixed? then 1.0
                            else match p.stage
                                 case NoExit => Max(0.2, part)
                                 case First => Max(0.2, part)
                                 case Second => Max(0.15, 0.7 * part)
                                 case Third => Max(0.15, 0.7 * part)
                                 case Trailing => Max(0.1, 0.5 * part)
  {
    ExitFacts.DivMono(p.remaining as real, p.entry.quantity as real, p.entry.quantity as real);
    ExitFacts.DivMono(0.0, p.remaining as real, p.entry.quantity as real);
    assert p.entry.quantity as real / p.entry.quantity as real == 1.0;
  }

  lemma {:induction false} UsageIs(cfg: BacktestConfig, positions: seq<Pos>)
    ensures ShortUsage(cfg, positions)
            == Sum(positions, (p: Pos) => if p.entry.strategy.Core? || p.remaining <= 0 then 0.0 else Slot(cfg, p))
  {
    if positions != [] {
      UsageIs(cfg, positions[..|positions| - 1]);
    }
  }

  lemma {:induction false} CountIs(positions: seq<Pos>, core: bool)
    ensures CountHeld(positions, core) as real
            == Sum(positions, (p: Pos) => if p.entry.strategy.Core? == core && p.remaining > 0 then 1.0 else 0.0)
  {
    if positions != [] {
      CountIs(positions[..|positions| - 1], core);
    }
  }

  /** A month's first trading day, as the sample symbol shows it: within the first five days, and its last bar
      before is of another month; without such a bar, within the first three. */
  lemma MonthStartIs(universe: Universe, tape: Tape, day: int)
    ensures MonthStart(universe, tape, day) ==> universe.dayOfMonth(day) <= 5
    ensures universe.dayOfMonth(day) <= 5 ==>
              if universe.tickers == [] || NoBarYet(tape, universe.tickers[0], day - 1)
              then MonthStart(universe, tape, day) <==> universe.dayOfMonth(day) < 4
              else exists d :: IsLatest(tape, universe.tickers[0], day - 1, d)
                     && (MonthStart(universe, tape, day) <==> universe.monthOf(d.day) != universe.monthOf(day))
  {
    if universe.tickers != [] {
      var sample := universe.tickers[0];
      LastBarIsLatest(tape, sample, day - 1);
      match LastBar(tape, sample, day - 1)
      case None =>
      case Some(d) => assert IsLatest(tape, sample, day - 1, d); assert !NoBarYet(tape, sample, day - 1);
    }
  }

  // ---- sizing ------------------------------------------------------------------------------------------------

  function FreeCash(cfg: BacktestConfig, cash: real, equity: real): real {
    Max(0.0, cash - equity * cfg.minCashReservePct / 100.0)
  }

  /** A core seat's part of the core allocation. */
  function CoreSeat(cfg: BacktestConfig, equity: real): real {
    equity * (if Core in cfg.allocation then cfg.allocation[Core] else 0.30)
    / (if cfg.maxPositionsCore > 1 then cfg.maxPositionsCore else 1) as real
  }

  function Percent(equity: real, pct: real): real {
    equity * pct / 100.0
  }

  /** What an order may cost at most: each of these. */
  function Ceilings(cfg: BacktestConfig, cash: real, positions: seq<Pos>, filled: map<Strategy, real>,
                    strategy: Strategy, equity: real, stopPct: real): seq<real>
  {
    (if strategy.Core? then [CoreSeat(cfg, equity)]
     else if cfg.sizing.Risk? && stopPct > 0.0 then
       [RiskValue(cfg, equity, stopPct), Percent(equity, cfg.riskMaxPositionPct)]
     else [Percent(equity, cfg.basePositionPct), Percent(equity, cfg.maxPositionPct)])
    + [FreeCash(cfg, cash, equity)]
    + (if cfg.budgetCap && !strategy.Core? then [BudgetLeft(cfg, positions, filled, strategy, equity)] else [])
  }

  /** The strategy's share of the equity, less what it holds at cost and what it bought today. */
  function BudgetLeft(cfg: BacktestConfig, positions: seq<Pos>, filled: map<Strategy, real>, strategy: Strategy,
                      equity: real): real
  {
    if strategy !in cfg.allocation || cfg.allocation[strategy] <= 0.0 then 0.0
    else
      equity * cfg.allocation[strategy] - HeldAtCost(positions, strategy)
      - (if strategy in filled then filled[strategy] else 0.0)
  }

  ghost predicate IsLeast(value: real, limits: seq<real>) {
    value in limits && forall l :: l in limits ==> value <= l
  }

  /** The money an order is sized from. */
  function OrderValue(cfg: BacktestConfig, cash: real, positions: seq<Pos>, filled: map<Strategy, real>,
                      strategy: Strategy, equity: real, stopPct: real): real
  {
    var size := PositionSize(cfg, cash, equity, strategy, stopPct);
    if cfg.budgetCap && !strategy.Core?
    then Min(size, BudgetRemaining(cfg, positions, strategy, equity, filled)) else size
  }

  lemma CoreSizeIs(cfg: BacktestConfig, cash: real, equity: real, stopPct: real)
    ensures PositionSize(cfg, cash, equity, Core, stopPct) == Min(CoreSeat(cfg, equity), FreeCash(cfg, cash, equity))
  {
    hide Min, Max;
  }

  lemma RiskSizeIs(cfg: BacktestConfig, cash: real, equity: real, strategy: Strategy, stopPct: real)
    requires !strategy.Core? && cfg.sizing.Risk? && stopPct > 0.0
    ensures PositionSize(cfg, cash, equity, strategy, stopPct)
            == Min(RiskValue(cfg, equity, stopPct),
                   Min(Percent(equity, cfg.riskMaxPositionPct), FreeCash(cfg, cash, equity)))
  {
    hide RiskValue;
    var cap, free := Percent(equity, cfg.riskMaxPositionPct), FreeCash(cfg, cash, equity);
    assert cap == equity * cfg.riskMaxPositionPct / 100.0;
    assert free == Max(0.0, cash - Reserve(cfg, equity));
  }

  /** A stop of as many per cent on that cost loses the risk of one trade. */
  lemma RiskValueIs(cfg: BacktestConfig, equity: real, stopPct: real)
    requires stopPct > 0.0
    ensures RiskValue(cfg, equity, stopPct) * stopPct == equity * cfg.riskPerTradePct
  {
  }

  lemma NominalSizeIs(cfg: BacktestConfig, cash: real, equity: real, strategy: Strategy, stopPct: real)
    requires !strategy.Core? && !(cfg.sizing.Risk? && stopPct > 0.0)
    ensures PositionSize(cfg, cash, equity, strategy, stopPct)
            == Min(Percent(equity, cfg.basePositionPct),
                   Min(Percent(equity, cfg.maxPositionPct), FreeCash(cfg, cash, equity)))
  {
    var base, cap, free := Percent(equity, cfg.basePositionPct), Percent(equity, cfg.maxPositionPct),
                           FreeCash(cfg, cash, equity);
    assert base == equity * cfg.basePositionPct / 100.0 && cap == equity * cfg.maxPositionPct / 100.0;
    assert free == Max(0.0, cash - Reserve(cfg, equity));
  }

  lemma BudgetIs(cfg: BacktestConfig, positions: seq<Pos>, filled: map<Strategy, real>, strategy: Strategy,
                 equity: real)
    ensures BudgetRemaining(cfg, positions, strategy, equity, filled)
            == BudgetLeft(cfg, positions, filled, strategy, equity)
  {
  }

  lemma LeastOfTwo(a: real, b: real)
    ensures IsLeast(Min(a, b), [a, b])
  {
  }

  lemma LeastAnd(value: real, limits: seq<real>, more: real)
    requires IsLeast(value, limits)
    ensures IsLeast(Min(value, more), limits + [more])
  {
  }

  /** An order is sized from the least of its ceilings. */
  lemma OrderValueIsLeast(cfg: BacktestConfig, cash: real, positions: seq<Pos>, filled: map<Strategy, real>,
                          strategy: Strategy, equity: real, stopPct: real)
    ensures IsLeast(OrderValue(cfg, cash, positions, filled, strategy, equity, stopPct),
                    Ceilings(cfg, cash, positions, filled, strategy, equity, stopPct))
  {
    hide PositionSize, BudgetRemaining, BudgetLeft, CoreSeat, RiskValue, Percent, FreeCash, IsLeast;
    BudgetIs(cfg, positions, filled, strategy, equity);
    var free, left := FreeCash(cfg, cash, equity), BudgetLeft(cfg, positions, filled, strategy, equity);
    var size := PositionSize(cfg, cash, equity, strategy, stopPct);
    var limits: seq<real>;
    if strategy.Core? {
      CoreSizeIs(cfg, cash, equity, stopPct);
      limits := [CoreSeat(cfg, equity), free];
      LeastOfTwo(CoreSeat(cfg, equity), free);
    } else {
      var risky := cfg.sizing.Risk? && stopPct > 0.0;
      if risky { RiskSizeIs(cfg, cash, equity, strategy, stopPct); }
      else { NominalSizeIs(cfg, cash, equity, strategy, stopPct); }
      var a := if risky then RiskValue(cfg, equity, stopPct) else Percent(equity, cfg.basePositionPct);
      var b := Percent(equity, if risky then cfg.riskMaxPositionPct else cfg.maxPositionPct);
      limits := [a, b] + [free];
      LeastOfTwo(a, b);
      LeastAnd(Min(a, b), [a, b], free);
    }
    assert IsLeast(size, limits);
    if cfg.budgetCap && !strategy.Core? { LeastAnd(size, limits, left); }
    var all := Ceilings(cfg, cash, positions, filled, strategy, equity, stopPct);
    assert all == if cfg.budgetCap && !strategy.Core? then limits + [left] else limits;
  }

  lemma WholeShares(value: real, price: real, q: int)
    requires price > 0.0 && q == Trunc(value / price) && q > 0
    ensures Fees.Amount(price, q) <= value < Fees.Amount(price, q + 1)
  {
    var x := value / price;
    assert x * price == value;
    assert q as real <= x < (q + 1) as real;
    MulMono(q as real, x, price);
    assert ((q + 1) as real - x) * price > 0.0;
  }

  lemma NoWholeShare(value: real, price: real)
    requires price > 0.0 && Trunc(value / price) <= 0
    ensures value < price
  {
    var x := value / price;
    assert x * price == value;
    assert x < 1.0;
    assert (1.0 - x) * price > 0.0;
  }

  /** What `quantity` shares cost, fee included. */
  function CostOf(price: real, quantity: int): real {
    Fees.Amount(price, quantity) * 1.000140527
  }

  lemma CostByUnit(price: real, q: int)
    ensures CostOf(price, q) == Fees.Amount(price * (1.0 + Fees.BUY_FEE_RATE), q) == Fees.TotalCost(price, q)
  {
    var shares := q as real;
    assert price * (1.0 + Fees.BUY_FEE_RATE) == 1.000140527 * price;
    assert (1.000140527 * price) * shares == 1.000140527 * (price * shares);
  }

  /** A number of shares within the cash is below one beyond it. */
  lemma FewerThan(cash: real, unit: real, q: int, quantity: int)
    requires unit > 0.0 && q > 0 && Fees.Amount(unit, q) <= 0.99 * cash && cash < Fees.Amount(unit, quantity)
    ensures q <= quantity
  {
    MulMono(1.0, q as real, unit);
    assert cash > 0.0;
    if q > quantity { MulMono(quantity as real, q as real, unit); }
  }

  /** As many shares as the cash pays for with one per cent kept back, where it does not pay for all. */
  lemma CashPays(cash: real, price: real, quantity: int)
    requires price > 0.0 && quantity > 0
    ensures var q := CashCapped(cash, price, quantity);
            if CostOf(price, quantity) <= cash then q == quantity
            else q > 0 ==> CostOf(price, q) <= 0.99 * cash < CostOf(price, q + 1) && q <= quantity
    ensures CashCapped(cash, price, quantity) <= 0 ==> 0.99 * cash < CostOf(price, 1)
  {
    var unit := price * (1.0 + Fees.BUY_FEE_RATE);
    assert unit > 0.0;
    CostByUnit(price, quantity);
    if CostOf(price, quantity) > cash {
      var q := CashCapped(cash, price, quantity);
      assert q == Trunc(cash * 0.99 / unit);
      hide CostOf, CashCapped, Trunc, Fees.Amount;
      if q > 0 {
        WholeShares(cash * 0.99, unit, q);
        CostByUnit(price, q);
        CostByUnit(price, q + 1);
        FewerThan(cash, unit, q, quantity);
      } else {
        NoWholeShare(cash * 0.99, unit);
        CostByUnit(price, 1);
        OneShare(unit);
      }
    }
  }

  lemma OneShare(price: real)
    ensures Fees.Amount(price, 1) == price
  {
  }

  predicate RiskCaps(cfg: BacktestConfig, strategy: Strategy, stopPct: real) {
    cfg.sizing.Risk? && !strategy.Core? && stopPct > 0.0
  }

  function RiskCap(cfg: BacktestConfig, equity: real, price: real, stopPct: real): int {
    Fees.RiskQuantityCap(equity, price, stopPct, cfg.riskPerTradePct)
  }

  /** The number of shares before the cash is looked at. */
  ghost predicate BeforeCash(cfg: BacktestConfig, strategy: Strategy, price: real, equity: real, stopPct: real,
                             value: real, n: int)
  {
    && n > 0 && value >= cfg.minPositionValue && Fees.Amount(price, n) <= value
    && (RiskCaps(cfg, strategy, stopPct) ==>
          n <= RiskCap(cfg, equity, price, stopPct) && Fees.Amount(price, n) >= cfg.minPositionValue)
    && (Fees.Amount(price, n + 1) > value
        || (RiskCaps(cfg, strategy, stopPct) && n == RiskCap(cfg, equity, price, stopPct)))
  }

  /** How many shares an order gets: as many as the least ceiling pays for and the risk cap admits; where the
      cash does not pay for those, as many as it pays for with one per cent kept back; and always with the
      reserve left. */
  lemma SizedToTheLimit(cfg: BacktestConfig, cash: real, positions: seq<Pos>, filled: map<Strategy, real>,
                        strategy: Strategy, price: real, equity: real, stopPct: real)
    returns (n: int)
    requires price > 0.0
    requires SizeOrder(cfg, cash, positions, filled, strategy, price, equity, stopPct).Some?
    ensures var q := SizeOrder(cfg, cash, positions, filled, strategy, price, equity, stopPct).value;
            && BeforeCash(cfg, strategy, price, equity, stopPct,
                          OrderValue(cfg, cash, positions, filled, strategy, equity, stopPct), n)
            && 0 < q <= n
            && (if CostOf(price, n) <= cash then q == n else CostOf(price, q) <= 0.99 * cash < CostOf(price, q + 1))
            && cash - CostOf(price, q) >= Percent(equity, cfg.minCashReservePct)
  {
    hide PositionSize, BudgetRemaining, Fees.RiskQuantityCap, CashCapped, Fees.TotalCost, Fees.Amount;
    var value := OrderValue(cfg, cash, positions, filled, strategy, equity, stopPct);
    var wanted := Trunc(value / price);
    WholeShares(value, price, wanted);
    n := RiskCapped(cfg, strategy, equity, price, stopPct, wanted).value;
    FewerCostLess(price, n, wanted);
    CashPays(cash, price, n);
    CostsAgree(price, CashCapped(cash, price, n));
  }

  lemma FewerCostLess(price: real, a: int, b: int)
    requires price > 0.0 && a <= b
    ensures Fees.Amount(price, a) <= Fees.Amount(price, b)
  {
    MulMono(a as real, b as real, price);
  }

  lemma CostsAgree(price: real, q: int)
    ensures Fees.TotalCost(price, q) == CostOf(price, q)
  {
  }

  /** What the cash leaves of `n` shares. */
  ghost predicate AfterCash(cash: real, price: real, n: int, q: int) {
    && 0 < q <= n
    && if CostOf(price, n) <= cash then q == n else CostOf(price, q) <= 0.99 * cash < CostOf(price, q + 1)
  }

  /** And when it gets none: a ceiling below the minimum, or below one share; a risk cap that leaves nothing, or
      less than the minimum; too little cash for one share; or the reserve touched. */
  lemma NoOrderOnlyWhen(cfg: BacktestConfig, cash: real, positions: seq<Pos>, filled: map<Strategy, real>,
                        strategy: Strategy, price: real, equity: real, stopPct: real)
    returns (n: int, q: int)
    requires price > 0.0
    requires SizeOrder(cfg, cash, positions, filled, strategy, price, equity, stopPct).None?
    ensures var value := OrderValue(cfg, cash, positions, filled, strategy, equity, stopPct);
            || (cfg.budgetCap && !strategy.Core? && BudgetLeft(cfg, positions, filled, strategy, equity) <= 0.0)
            || value < cfg.minPositionValue || value < price
            || (RiskCaps(cfg, strategy, stopPct)
                && (RiskCap(cfg, equity, price, stopPct) <= 0
                    || (n > 0 && Fees.Amount(price, n) < cfg.minPositionValue
                        && (n == RiskCap(cfg, equity, price, stopPct) || Fees.Amount(price, n + 1) > value))))
            || (BeforeCash(cfg, strategy, price, equity, stopPct, value, n)
                && CostOf(price, n) > cash && 0.99 * cash < CostOf(price, 1))
            || (BeforeCash(cfg, strategy, price, equity, stopPct, value, n) && AfterCash(cash, price, n, q)
                && cash - CostOf(price, q) < Percent(equity, cfg.minCashReservePct))
  {
    hide PositionSize, BudgetRemaining, BudgetLeft, Fees.RiskQuantityCap, CashCapped, Fees.TotalCost, Fees.Amount;
    BudgetIs(cfg, positions, filled, strategy, equity);
    var value := OrderValue(cfg, cash, positions, filled, strategy, equity, stopPct);
    var wanted := Trunc(value / price);
    n, q := wanted, 0;
    if wanted <= 0 {
      NoWholeShare(value, price);
    } else {
      WholeShares(value, price, wanted);
      if RiskCaps(cfg, strategy, stopPct) && RiskCap(cfg, equity, price, stopPct) < wanted {
        n := RiskCap(cfg, equity, price, stopPct);
        FewerCostLess(price, n, wanted);
      }
      if n > 0 {
        CashPays(cash, price, n);
        q := CashCapped(cash, price, n);
        CostsAgree(price, q);
        CostsAgree(price, n);
        if q <= 0 { KeepsOneShare(cash, price, n); }
      }
    }
  }

  lemma KeepsOneShare(cash: real, price: real, n: int)
    requires price > 0.0 && n > 0 && CashCapped(cash, price, n) <= 0
    ensures CostOf(price, n) > cash
  {
    CostsAgree(price, n);
  }

  // ---- the fill ----------------------------------------------------------------------------------------------

  /** The stop distance of an entry: the strategy's own under the live policy, else the volatility of the last
      bar that counts, within its bounds, and 5 per cent without one. */
  function EntryStop(rules: ExitRules, strategy: Strategy, atr: Option<real>): real {
    if rules.entryStopMode.LivePolicy? then
      if strategy.Sepa? then rules.sepaStopLossPct
      else if strategy.Rsi2? then rules.rsi2StopLossPct else rules.coreStopLossPct
    else
      match atr
      case None => 5.0
      case Some(pct) =>
        var distance := pct * rules.atrMultiplier;
        if rules.minStopPct >= distance || rules.minStopPct >= rules.maxStopPct then rules.minStopPct
        else if distance > rules.maxStopPct then rules.maxStopPct else distance
  }

  /** The volatility known at the fill: of the last bar before the day, for a fill at the close of the last bar
      up to the day. */
  ghost predicate KnownAtr(tape: Tape, symbol: string, day: int, useClose: bool, atr: Option<real>) {
    var until := if useClose then day else day - 1;
    || (NoBarYet(tape, symbol, until) && atr.None?)
    || (exists d :: IsLatest(tape, symbol, until, d)
         && atr == if d.bar.atrPct.Some? && d.bar.atrPct.value > 0.0 then d.bar.atrPct else None)
  }

  lemma EntryAtrIs(tape: Tape, symbol: string, day: int, useClose: bool)
    ensures KnownAtr(tape, symbol, day, useClose, EntryAtr(tape, symbol, day, useClose))
  {
    var until := if useClose then day else day - 1;
    LastBarIsLatest(tape, symbol, until);
    if LastBar(tape, symbol, until).Some? { assert IsLatest(tape, symbol, until, LastBar(tape, symbol, until).value); }
  }

  /** Opened more than 3.5 per cent below the close it was signalled at. */
  predicate GappedDown(order: Order, price: real) {
    order.signalClose.Some? && order.signalClose.value > 0.0 && price < 0.965 * order.signalClose.value
  }

  lemma QuotientBelow(product: real, k: real, bound: real)
    requires k > 0.0
    ensures product / k < bound <==> product < bound * k
  {
    var x := product / k;
    assert x * k == product;
    if x < bound { assert (bound - x) * k > 0.0; } else { MulMono(bound, x, k); }
  }

  lemma GapDownIs(order: Order, price: real)
    requires price > 0.0
    ensures GapDown(order, price, false) <==> GappedDown(order, price)
    ensures !GapDown(order, price, true)
  {
    var prior := if order.signalClose.Some? then order.signalClose.value else price;
    if prior > 0.0 { QuotientBelow(price - prior, prior, -0.035); }
  }

  /** The position a fill opens. */
  ghost predicate OpenedBy(cfg: BacktestConfig, tape: Tape, day: int, useClose: bool, order: Order, bar: Bar,
                           atr: Option<real>, q: int, p: Pos)
  {
    var price := if useClose then bar.close else bar.open;
    var stop := EntryStop(cfg.exits, order.strategy, atr);
    var e := p.entry;
    && e.symbol == order.symbol && e.strategy == order.strategy && e.date == day
    && e.price == price && e.quantity == q && e.costBasis == CostOf(price, q)
    && e.atrStopPct == stop && e.atrPct == (if atr.Some? then atr.value else 0.0)
    && e.initialRisk * 100.0 == CostOf(price, q) * stop
    && p.remaining == q && p.stage.NoExit? && !p.trailing && !p.breakeven && !p.runner
    && p.holdingDays == 0 && p.daysSinceHigh == 0 && p.liveStopPct == 0.0
    && p.highest == (if useClose then bar.high else price)
    && p.stopPrice * 100.0 == price * (100.0 - stop)
    && p.regimeSeen == Some(tape.regime(if useClose then day else day - 1))
  }

  lemma NewPositionIs(cfg: BacktestConfig, tape: Tape, day: int, useClose: bool, order: Order, bar: Bar,
                      atr: Option<real>, q: int)
    ensures var price := if useClose then bar.close else bar.open;
            var entry := NewEntry(order, day, price, q, EntryStopPct(cfg.exits, order.strategy, atr), atr);
            OpenedBy(cfg, tape, day, useClose, order, bar, atr, q, NewPosition(tape, order, day, useClose, bar, entry))
    ensures EntryStopPct(cfg.exits, order.strategy, atr) == EntryStop(cfg.exits, order.strategy, atr)
  {
    var price := if useClose then bar.close else bar.open;
    CostsAgree(price, q);
  }

  /** An admitted order is filled on the day's own bar, at its open or close, unless that is no price, or opened
      too far below the signal, or the order is sized to nothing. */
  lemma FillByTable(cfg: BacktestConfig, tape: Tape, day: int, useClose: bool, desk: Desk, order: Order)
    returns (atr: Option<real>)
    ensures KnownAtr(tape, order.symbol, day, useClose, atr)
    ensures match RowOn(tape, order.symbol, day)
            case None => Opening(cfg, tape, day, useClose, desk, order).None?
            case Some(bar) =>
              var price := if useClose then bar.close else bar.open;
              if price <= 0.0 || (!useClose && GappedDown(order, price)) then
                Opening(cfg, tape, day, useClose, desk, order).None?
              else
                match SizeOrder(cfg, desk.cash, desk.positions, desk.filled, order.strategy, price,
                                Equity(tape, desk.cash, desk.positions, day, useClose),
                                EntryStop(cfg.exits, order.strategy, atr))
                case None => Opening(cfg, tape, day, useClose, desk, order).None?
                case Some(q) =>
                  var p := Opening(cfg, tape, day, useClose, desk, order);
                  p.Some? && OpenedBy(cfg, tape, day, useClose, order, bar, atr, q, p.value)
  {
    hide SizeOrder, Equity, Fees.Amount, GapDown, EntryAtr, OpenedBy, NewPosition, NewEntry, EntryStopPct, EntryStop;
    EntryAtrIs(tape, order.symbol, day, useClose);
    atr := EntryAtr(tape, order.symbol, day, useClose);
    match RowOn(tape, order.symbol, day)
    case None =>
    case Some(bar) =>
      var price := if useClose then bar.close else bar.open;
      if price > 0.0 {
        GapDownIs(order, price);
        var stop := EntryStopPct(cfg.exits, order.strategy, atr);
        var equity := Equity(tape, desk.cash, desk.positions, day, useClose);
        var size := SizeOrder(cfg, desk.cash, desk.positions, desk.filled, order.strategy, price, equity, stop);
        NewPositionIs(cfg, tape, day, useClose, order, bar, atr, if size.Some? then size.value else 0);
      }
  }
}
