/** The balance of the books over whole runs: every fill, every exit, every day, and the final
    liquidation, after which the analyzer's round trips are the complete account of the run. */
module BooksOverRuns {
  import opened Basics
  import opened Market
  import opened Config
  import opened Exits
  import opened Engine
  import opened Analyzer
  import opened Sums
  import opened Books
  import opened ExitFacts
  import Fees

  // ---- fills ----------------------------------------------------------------------------------

  lemma SizedPositive(cfg: BacktestConfig, cash: real, positions: seq<Pos>, filled: map<Strategy, real>,
                      strategy: Strategy, price: real, equity: real, stopPct: real)
    requires price > 0.0
    ensures var q := SizeOrder(cfg, cash, positions, filled, strategy, price, equity, stopPct);
      q.Some? ==> q.value > 0
  {
    hide PositionSize, BudgetRemaining, RiskCapped, CashCapped, Fees.TotalCost, Reserve;
  }

  /** A fill opens a position of the ordered symbol, whole, at its full cost. */
  lemma OpeningShape(cfg: BacktestConfig, tape: Tape, day: int, useClose: bool, desk: Desk, order: Order)
    ensures match Opening(cfg, tape, day, useClose, desk, order)
      case None => true
      case Some(p) =>
        && p.entry.symbol == order.symbol && p.entry.strategy == order.strategy
        && p.remaining == p.entry.quantity > 0
        && p.entry.costBasis == Fees.TotalCost(p.entry.price, p.entry.quantity)
  {
    hide SizeOrder, Equity, EntryAtr, EntryStopPct, GapDown, Fees.TotalCost;
    match RowOn(tape, order.symbol, day)
    case None =>
    case Some(bar) =>
      var price := FillPrice(bar, useClose);
      if price > 0.0 {
        SizedPositive(cfg, desk.cash, desk.positions, desk.filled, order.strategy, price,
                      Equity(tape, desk.cash, desk.positions, day, useClose),
                      EntryStopPct(cfg.exits, order.strategy, EntryAtr(tape, order.symbol, day, useClose)));
      }
  }

  ghost predicate DeskBalanced(initial: real, desk: Desk) {
    Balanced(initial, desk.cash, desk.positions, desk.trades)
  }

  lemma BalancedAreAlive(initial: real, cash: real, positions: seq<Pos>, trades: seq<Trade>)
    requires Balanced(initial, cash, positions, trades)
    ensures forall p :: p in positions ==> 0 < p.remaining <= p.entry.quantity
    ensures UniqueSymbols(positions)
  {
    hide MoneyTies, PurchasesTie, SharesTie, TripsDone, Fees.TotalCost;
    var open := Analyze(trades).open;
    forall p | p in positions
      ensures 0 < p.remaining <= p.entry.quantity
    {
      var i :| 0 <= i < |positions| && positions[i] == p;
      assert Mirrors(positions[i], open[i]);
    }
  }

  lemma OrderKeepsBalance(initial: real, cfg: BacktestConfig, tape: Tape, day: int, useClose: bool, desk: Desk,
                          order: Order)
    requires DeskBalanced(initial, desk)
    ensures var d := ExecuteOrder(cfg, tape, day, useClose, desk, order);
      d.Some? ==> DeskBalanced(initial, d.value)
  {
    hide Balanced, Opening, Fees.TotalCost, BuyTrade, SlotsFull, Untimely;
    BalancedAreAlive(initial, desk.cash, desk.positions, desk.trades);
    OpeningShape(cfg, tape, day, useClose, desk, order);
    match Opening(cfg, tape, day, useClose, desk, order)
    case None =>
    case Some(p) =>
      if !Skipped(cfg, desk, order) {
        assert Find(desk.positions, order.symbol) < 0;
        BuyKeepsBalance(initial, desk.cash, desk.positions, desk.trades, p);
      }
  }

  lemma {:induction false} OrdersKeepBalance(initial: real, cfg: BacktestConfig, tape: Tape, day: int, useClose: bool,
                                             desk: Desk, orders: seq<Order>)
    requires DeskBalanced(initial, desk)
    ensures var d := ExecuteOrders(cfg, tape, day, useClose, desk, orders);
      d.Some? ==> DeskBalanced(initial, d.value)
  {
    if orders != [] {
      hide DeskBalanced, ExecuteOrder;
      var init := orders[..|orders| - 1];
      OrdersKeepBalance(initial, cfg, tape, day, useClose, desk, init);
      match ExecuteOrders(cfg, tape, day, useClose, desk, init)
      case None =>
      case Some(d) => OrderKeepsBalance(initial, cfg, tape, day, useClose, d, orders[|orders| - 1]);
    }
  }

  // ---- exits ----------------------------------------------------------------------------------

  /** Only what was bought and what is left matter to the books. */
  lemma ReplaceKeepsBalance(initial: real, cash: real, before: seq<Pos>, p: Pos, p': Pos, after: seq<Pos>,
                            trades: seq<Trade>)
    requires Balanced(initial, cash, before + [p] + after, trades)
    requires p'.entry == p.entry && p'.remaining == p.remaining
    ensures Balanced(initial, cash, before + [p'] + after, trades)
  {
    hide MoneyTies, PurchasesTie, SharesTie, TripsDone, Reflects, CashFlow;
    var open := Analyze(trades).open;
    var all := before + [p] + after;
    var k := |before|;
    var o := TripOf(all, open, k);
    assert all[k] == p;
    assert open == open[..k] + [o] + open[k + 1..];
    RestMirrors(before, p, after, open[..k], o, open[k + 1..], p', o);
  }

  /** Settling any actions that sell no more than is held keeps the books balanced. */
  lemma {:induction false} SettleKeepsBalance(initial: real, till: Till, before: seq<Pos>, p: Pos, after: seq<Pos>,
                                              day: int, sold: Pos, actions: seq<Action>)
    requires Balanced(initial, till.cash, before + [p] + after, till.trades)
    requires p.remaining > 0 && sold.entry == p.entry
    requires forall a :: a in actions ==> a.qty >= 0
    requires SumQty(actions) <= p.remaining
    ensures var t := Settle(till, sold, day, actions);
      Balanced(initial, t.cash, before + Left(p, p.remaining - SumQty(actions)) + after, t.trades)
    decreases |actions|
  {
    hide Balanced, SellTrade;
    if actions == [] {
      assert Left(p, p.remaining - SumQty(actions)) == [p];
    } else {
      var init, last := actions[..|actions| - 1], actions[|actions| - 1];
      SettleKeepsBalance(initial, till, before, p, after, day, sold, init);
      var mid := Settle(till, sold, day, init);
      var r := p.remaining - SumQty(init);
      if last.qty > 0 {
        var q := p.(remaining := r);
        assert Left(p, r) == [q];
        SaleKeepsBalance(initial, mid.cash, before, q, after, mid.trades, sold.holdingDays, day, last);
        assert Left(q, r - last.qty) == Left(p, r - last.qty);
      }
    }
  }

  /** One position through its bar: whatever the verdict, the books stay balanced. */
  lemma VerdictKeepsBalance(initial: real, cfg: BacktestConfig, tape: Tape, day: int, till: Till,
                            before: seq<Pos>, p: Pos, after: seq<Pos>)
    requires RatiosAreFractions(cfg.exits)
    requires Balanced(initial, till.cash, before + [p] + after, till.trades)
    ensures var v := ExitVerdict(cfg, tape, day, p);
      var t := Settle(till, v.pos, day, v.actions);
      Balanced(initial, t.cash, before + Alive([v.pos]) + after, t.trades)
  {
    hide Balanced, CheckExit, Settle;
    BalancedAreAlive(initial, till.cash, before + [p] + after, till.trades);
    assert (before + [p] + after)[|before|] == p;
    assert p in before + [p] + after;
    var v := ExitVerdict(cfg, tape, day, p);
    VerdictSplits(cfg, tape, day, p);
    SettleKeepsBalance(initial, till, before, p, after, day, v.pos, v.actions);
    var r := p.remaining - SumQty(v.actions);
    assert [v.pos][..0] == [] && Alive([]) == [];
    if r > 0 {
      var t := Settle(till, v.pos, day, v.actions);
      ReplaceKeepsBalance(initial, t.cash, before, p.(remaining := r), v.pos, after, t.trades);
      assert Alive([v.pos]) == [v.pos];
    } else {
      assert Alive([v.pos]) == Left(p, r);
    }
  }

  lemma VerdictSplits(cfg: BacktestConfig, tape: Tape, day: int, p: Pos)
    requires RatiosAreFractions(cfg.exits) && p.remaining > 0
    ensures Splits(p.remaining, p, ExitVerdict(cfg, tape, day, p))
  {
    match RowOn(tape, p.entry.symbol, day)
    case None =>
    case Some(bar) => CheckExitConserves(cfg.exits, p, bar, Some(tape.regime(day)));
  }

  lemma AliveSnoc(positions: seq<Pos>, p: Pos)
    ensures Alive(positions + [p]) == Alive(positions) + Alive([p])
  {
    assert (positions + [p])[..|positions|] == positions;
    assert [p][..0] == [];
  }

  /** The exit loop, `k` positions in: those done are alive or gone, the rest untouched. */
  lemma {:induction false} ExitPrefixKeepsBalance(initial: real, cfg: BacktestConfig, tape: Tape, day: int, till: Till,
                                                  positions: seq<Pos>, k: nat)
    requires RatiosAreFractions(cfg.exits) && k <= |positions|
    requires Balanced(initial, till.cash, positions, till.trades)
    ensures var t := ExitAll(cfg, tape, day, till, positions[..k]);
      Balanced(initial, t.cash, Alive(ExitedPositions(cfg, tape, day, positions)[..k]) + positions[k..], t.trades)
    decreases k
  {
    hide Balanced, ExitVerdict, Settle, Alive;
    var exited := ExitedPositions(cfg, tape, day, positions);
    if k == 0 {
      assert positions[..0] == [] && exited[..0] == [];
      NobodyAlive();
      assert [] + positions[0..] == positions;
    } else {
      ExitPrefixKeepsBalance(initial, cfg, tape, day, till, positions, k - 1);
      hide ExitAll;
      var t := ExitAll(cfg, tape, day, till, positions[..k - 1]);
      var p := positions[k - 1];
      var done := Alive(exited[..k - 1]);
      assert done + positions[k - 1..] == done + [p] + positions[k..];
      VerdictKeepsBalance(initial, cfg, tape, day, t, done, p, positions[k..]);
      assert exited[..k] == exited[..k - 1] + [exited[k - 1]];
      AliveSnoc(exited[..k - 1], exited[k - 1]);
      ExitAllSnoc(cfg, tape, day, till, positions, k);
    }
  }

  lemma NobodyAlive()
    ensures Alive([]) == []
  {
  }

  lemma ExitAllSnoc(cfg: BacktestConfig, tape: Tape, day: int, till: Till, positions: seq<Pos>, k: nat)
    requires 0 < k <= |positions|
    ensures var v := ExitVerdict(cfg, tape, day, positions[k - 1]);
            ExitAll(cfg, tape, day, till, positions[..k])
            == Settle(ExitAll(cfg, tape, day, till, positions[..k - 1]), v.pos, day, v.actions)
  {
    hide ExitVerdict, Settle;
    assert positions[..k][..k - 1] == positions[..k - 1];
  }

  ghost predicate StateBalanced(initial: real, st: State) {
    Balanced(initial, st.cash, st.positions, st.trades)
  }

  lemma CheckExitsKeepBalance(initial: real, cfg: BacktestConfig, tape: Tape, day: int, st: State)
    requires RatiosAreFractions(cfg.exits) && StateBalanced(initial, st)
    ensures StateBalanced(initial, CheckExits(cfg, tape, day, st))
  {
    hide Balanced;
    var n := |st.positions|;
    var till := Till(st.cash, st.trades, st.locked);
    ExitPrefixKeepsBalance(initial, cfg, tape, day, till, st.positions, n);
    var exited := ExitedPositions(cfg, tape, day, st.positions);
    assert st.positions[..n] == st.positions && exited[..n] == exited;
    assert Alive(exited) + st.positions[n..] == Alive(exited);
  }

  // ---- days and runs --------------------------------------------------------------------------

  lemma ExecutePendingKeepsBalance(initial: real, cfg: BacktestConfig, tape: Tape, day: int, useClose: bool, st: State)
    requires StateBalanced(initial, st)
    ensures var r := ExecutePending(cfg, tape, day, useClose, st); r.Some? ==> StateBalanced(initial, r.value)
  {
    hide Balanced, ExecuteOrders, ShortUsage, CountHeld, SortByScore;
    OrdersKeepBalance(initial, cfg, tape, day, useClose, OpeningDesk(cfg, st), SortByScore(st.pending));
  }

  lemma DayKeepsBalance(initial: real, cfg: BacktestConfig, universe: Universe, tape: Tape, day: int, st: State)
    requires RatiosAreFractions(cfg.exits) && StateBalanced(initial, st)
    ensures var r := RunDay(cfg, universe, tape, day, st); r.Some? ==> StateBalanced(initial, r.value)
  {
    hide Balanced, ExecutePending, CheckExits, ShortPicks, CorePicks, Equity;
    ExecutePendingKeepsBalance(initial, cfg, tape, day, false, st.(locked := false));
    match Morning(cfg, tape, day, st)
    case None =>
    case Some(s) =>
      CheckExitsKeepBalance(initial, cfg, tape, day, s);
      var exited := CheckExits(cfg, tape, day, s);
      var signalled := if exited.locked then exited else GenerateSignals(cfg, universe, tape, day, exited);
      ExecutePendingKeepsBalance(initial, cfg, tape, day, true, signalled);
  }

  lemma EmptyBooks(initial: real)
    ensures StateBalanced(initial, Start(initial))
  {
  }

  /** At the end of every day of every run, cash, positions and trade log agree. */
  lemma {:induction false} BooksBalanceEveryDay(initial: real, cfg: BacktestConfig, universe: Universe, tape: Tape,
                                                days: seq<int>)
    requires RatiosAreFractions(cfg.exits)
    ensures var r := RunDays(cfg, universe, tape, initial, days); r.Some? ==> StateBalanced(initial, r.value)
  {
    hide StateBalanced, RunDay;
    if days == [] {
      EmptyBooks(initial);
    } else {
      var init := days[..|days| - 1];
      BooksBalanceEveryDay(initial, cfg, universe, tape, init);
      match RunDays(cfg, universe, tape, initial, init)
      case None =>
      case Some(st) => DayKeepsBalance(initial, cfg, universe, tape, days[|days| - 1], st);
    }
  }

  // ---- liquidation ----------------------------------------------------------------------------

  lemma {:induction false} LiquidationKeepsBalance(initial: real, tape: Tape, day: int, till: Till,
                                                   positions: seq<Pos>, k: nat)
    requires k <= |positions|
    requires Balanced(initial, till.cash, positions, till.trades)
    ensures var t := LiquidateTill(tape, day, till, positions[..k]);
      Balanced(initial, t.cash, positions[k..], t.trades)
    decreases k
  {
    hide Balanced, SellTrade, CloseMark;
    if k == 0 {
      assert positions[..0] == [] && positions[0..] == positions;
    } else {
      LiquidationKeepsBalance(initial, tape, day, till, positions, k - 1);
      var t := LiquidateTill(tape, day, till, positions[..k - 1]);
      var p := positions[k - 1];
      assert positions[..k][..k - 1] == positions[..k - 1];
      assert positions[k - 1..] == [] + [p] + positions[k..];
      BalancedAreAlive(initial, t.cash, positions[k - 1..], t.trades);
      assert p in positions[k - 1..];
      SaleKeepsBalance(initial, t.cash, [], p, positions[k..], t.trades, p.holdingDays, day,
                       Action(p.remaining, CloseMark(tape, p, day), EndOfTest));
      assert [] + Left(p, 0) + positions[k..] == positions[k..];
    }
  }

  /** The complete account of a liquidated run. */
  ghost predicate FullyAccounted(initial: real, cash: real, trades: seq<Trade>) {
    var ledger := Analyze(trades);
    && ledger.open == []
    && Purchases(trades) == TripPurchases(ledger.out)
    && Sum(ledger.out, PnlOf) == SellEventPnl(trades) == cash - initial
    && (forall r :: r in ledger.out ==> r.trip.sold == r.trip.quantity)
    && (forall symbol :: NetShares(trades, symbol) == 0.0)
  }

  lemma BalancedFlatIsAccounted(initial: real, cash: real, trades: seq<Trade>)
    requires Balanced(initial, cash, [], trades)
    ensures FullyAccounted(initial, cash, trades)
  {
    var ledger := Analyze(trades);
    assert ledger.open == [];
    assert OpenPurchases(ledger.open) == multiset{};
  }

  /** Books balance end to end. After the final liquidation the analyzer returns exactly one
      round trip per BUY, nothing is left open, and the profit of the round trips, the profit of
      the individual SELL events and the change of cash are one number, however partial exits
      split the shares. */
  lemma BooksBalanceEndToEnd(initial: real, cfg: BacktestConfig, universe: Universe, tape: Tape, days: seq<int>)
    requires RatiosAreFractions(cfg.exits) && days != []
    ensures var r := RunDays(cfg, universe, tape, initial, days);
      r.Some? ==>
        var end := CloseAll(tape, days[|days| - 1], r.value);
        FullyAccounted(initial, end.cash, end.trades)
  {
    hide Balanced, FullyAccounted;
    BooksBalanceEveryDay(initial, cfg, universe, tape, days);
    match RunDays(cfg, universe, tape, initial, days)
    case None =>
    case Some(st) =>
      var n := |st.positions|;
      var till := Till(st.cash, st.trades, st.locked);
      LiquidationKeepsBalance(initial, tape, days[|days| - 1], till, st.positions, n);
      assert st.positions[..n] == st.positions && st.positions[n..] == [];
      var t := LiquidateTill(tape, days[|days| - 1], till, st.positions);
      BalancedFlatIsAccounted(initial, t.cash, t.trades);
  }
}
