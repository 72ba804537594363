/** No look-ahead: what the engine has done by the time a morning's orders are filled depends
    only on earlier days and on that morning's opens.  A two-run property over the whole loop. */
module LookAhead {
  import opened Basics
  import opened Market
  import opened Config
  import opened Exits
  import opened Engine

  // ---- one morning ----------------------------------------------------------------------------

  lemma OpenMarkAgrees(a: Tape, b: Tape, p: Pos, day: int)
    requires AgreeBefore(a, b, day) && AgreeOpens(a, b, day)
    ensures OpenMark(a, p, day) == OpenMark(b, p, day)
  {
    LastBarAgrees(a, b, p.entry.symbol, day - 1, day);
    var x, y := RowOn(a, p.entry.symbol, day), RowOn(b, p.entry.symbol, day);
    assert match (x, y) case (Some(m), Some(n)) => m.open == n.open case (None, None) => true case _ => false;
  }

  lemma {:induction false} OpenEquityAgrees(a: Tape, b: Tape, cash: real, positions: seq<Pos>, day: int)
    requires AgreeBefore(a, b, day) && AgreeOpens(a, b, day)
    ensures Equity(a, cash, positions, day, false) == Equity(b, cash, positions, day, false)
  {
    if positions != [] {
      hide OpenMark;
      OpenMarkAgrees(a, b, positions[|positions| - 1], day);
      OpenEquityAgrees(a, b, cash, positions[..|positions| - 1], day);
    }
  }

  /** The position a morning order opens, if any, is decided by what the open already shows. */
  lemma OpeningAgrees(cfg: BacktestConfig, a: Tape, b: Tape, day: int, desk: Desk, order: Order)
    requires AgreeBefore(a, b, day) && AgreeOpens(a, b, day)
    ensures Opening(cfg, a, day, false, desk, order) == Opening(cfg, b, day, false, desk, order)
  {
    hide SizeOrder, EntryStopPct, GapDown, Equity, NewEntry;
    var x, y := RowOn(a, order.symbol, day), RowOn(b, order.symbol, day);
    assert match (x, y) case (Some(m), Some(n)) => m.open == n.open case (None, None) => true case _ => false;
    LastBarAgrees(a, b, order.symbol, day - 1, day);
    assert EntryAtr(a, order.symbol, day, false) == EntryAtr(b, order.symbol, day, false);
    OpenEquityAgrees(a, b, desk.cash, desk.positions, day);
    assert a.regime(day - 1) == b.regime(day - 1);
  }

  lemma {:induction false} MorningOrdersAgree(cfg: BacktestConfig, a: Tape, b: Tape, day: int, desk: Desk,
                                              orders: seq<Order>)
    requires AgreeBefore(a, b, day) && AgreeOpens(a, b, day)
    ensures ExecuteOrders(cfg, a, day, false, desk, orders) == ExecuteOrders(cfg, b, day, false, desk, orders)
  {
    hide AgreeBefore, AgreeOpens, Opening, Skipped, Untimely;
    if orders != [] {
      var init := orders[..|orders| - 1];
      MorningOrdersAgree(cfg, a, b, day, desk, init);
      match ExecuteOrders(cfg, a, day, false, desk, init)
      case None =>
      case Some(d) => OpeningAgrees(cfg, a, b, day, d, orders[|orders| - 1]);
    }
  }

  lemma MorningAgrees(cfg: BacktestConfig, a: Tape, b: Tape, day: int, st: State)
    requires AgreeBefore(a, b, day) && AgreeOpens(a, b, day)
    ensures Morning(cfg, a, day, st) == Morning(cfg, b, day, st)
  {
    hide AgreeBefore, AgreeOpens, ExecuteOrders, SortByScore, OpeningDesk;
    var s := st.(locked := false);
    MorningOrdersAgree(cfg, a, b, day, OpeningDesk(cfg, s), SortByScore(s.pending));
  }

  // ---- the rest of the day --------------------------------------------------------------------

  lemma {:induction false} EquityAgrees(a: Tape, b: Tape, cash: real, positions: seq<Pos>, day: int, atClose: bool)
    requires AgreeBefore(a, b, day + 1)
    ensures Equity(a, cash, positions, day, atClose) == Equity(b, cash, positions, day, atClose)
  {
    if positions != [] {
      var p := positions[|positions| - 1];
      LastBarAgrees(a, b, p.entry.symbol, day, day + 1);
      LastBarAgrees(a, b, p.entry.symbol, day - 1, day + 1);
      assert RowOn(a, p.entry.symbol, day) == RowOn(b, p.entry.symbol, day);
      EquityAgrees(a, b, cash, positions[..|positions| - 1], day, atClose);
    }
  }

  lemma {:induction false} OrdersAgree(cfg: BacktestConfig, a: Tape, b: Tape, day: int, useClose: bool, desk: Desk,
                                       orders: seq<Order>)
    requires AgreeBefore(a, b, day + 1)
    ensures ExecuteOrders(cfg, a, day, useClose, desk, orders) == ExecuteOrders(cfg, b, day, useClose, desk, orders)
  {
    hide SizeOrder, EntryStopPct, GapDown, Equity, NewEntry, Skipped, Untimely, RecordFill;
    if orders != [] {
      var init, order := orders[..|orders| - 1], orders[|orders| - 1];
      OrdersAgree(cfg, a, b, day, useClose, desk, init);
      match ExecuteOrders(cfg, a, day, useClose, desk, init)
      case None =>
      case Some(d) =>
        assert RowOn(a, order.symbol, day) == RowOn(b, order.symbol, day);
        LastBarAgrees(a, b, order.symbol, day, day + 1);
        LastBarAgrees(a, b, order.symbol, day - 1, day + 1);
        assert EntryAtr(a, order.symbol, day, useClose) == EntryAtr(b, order.symbol, day, useClose);
        EquityAgrees(a, b, d.cash, d.positions, day, useClose);
        assert a.regime(day) == b.regime(day) && a.regime(day - 1) == b.regime(day - 1);
    }
  }

  lemma {:induction false} ExitsAgree(cfg: BacktestConfig, a: Tape, b: Tape, day: int, till: Till, positions: seq<Pos>)
    requires AgreeBefore(a, b, day + 1)
    ensures ExitAll(cfg, a, day, till, positions) == ExitAll(cfg, b, day, till, positions)
    ensures ExitedPositions(cfg, a, day, positions) == ExitedPositions(cfg, b, day, positions)
  {
    hide CheckExit, Settle;
    forall p: Pos
      ensures ExitVerdict(cfg, a, day, p) == ExitVerdict(cfg, b, day, p)
    {
      assert RowOn(a, p.entry.symbol, day) == RowOn(b, p.entry.symbol, day);
      assert a.regime(day) == b.regime(day);
    }
    if positions != [] {
      ExitsAgree(cfg, a, b, day, till, positions[..|positions| - 1]);
    }
  }

  lemma {:induction false} SignalsAgree(cfg: BacktestConfig, a: Tape, b: Tape, day: int, skip: set<string>,
                                        tickers: seq<string>)
    requires AgreeBefore(a, b, day + 1)
    ensures ShortSignals(cfg, a, day, skip, tickers) == ShortSignals(cfg, b, day, skip, tickers)
    ensures CoreSignals(cfg, a, day, skip, tickers) == CoreSignals(cfg, b, day, skip, tickers)
  {
    if tickers != [] {
      LastBarAgrees(a, b, tickers[|tickers| - 1], day, day + 1);
      assert a.regime(day) == b.regime(day);
      SignalsAgree(cfg, a, b, day, skip, tickers[..|tickers| - 1]);
    }
  }

  lemma GenerateAgrees(cfg: BacktestConfig, universe: Universe, a: Tape, b: Tape, day: int, st: State)
    requires AgreeBefore(a, b, day + 1)
    ensures GenerateSignals(cfg, universe, a, day, st) == GenerateSignals(cfg, universe, b, day, st)
  {
    hide ShortSignals, CoreSignals, SortByScore, Pick, AgreeBefore, CountHeld;
    var skip := Symbols(st.pending) + HeldSymbols(st.positions);
    SignalsAgree(cfg, a, b, day, skip, universe.tickers);
    if universe.tickers != [] {
      LastBarAgrees(a, b, universe.tickers[0], day - 1, day + 1);
    }
  }

  /** A whole day is the same for two histories that agree up to its close. */
  lemma DayAgrees(cfg: BacktestConfig, universe: Universe, a: Tape, b: Tape, day: int, st: State)
    requires AgreeBefore(a, b, day + 1)
    ensures RunDay(cfg, universe, a, day, st) == RunDay(cfg, universe, b, day, st)
  {
    hide AgreeBefore, ExecuteOrders, SortByScore, OpeningDesk, ExitAll, ExitedPositions, GenerateSignals, Equity;
    var s0 := st.(locked := false);
    OrdersAgree(cfg, a, b, day, false, OpeningDesk(cfg, s0), SortByScore(s0.pending));
    match Morning(cfg, a, day, st)
    case None =>
    case Some(s) =>
      ExitsAgree(cfg, a, b, day, Till(s.cash, s.trades, s.locked), s.positions);
      var exited := CheckExits(cfg, a, day, s);
      GenerateAgrees(cfg, universe, a, b, day, exited);
      var signalled := if exited.locked then exited else GenerateSignals(cfg, universe, a, day, exited);
      OrdersAgree(cfg, a, b, day, true, OpeningDesk(cfg, signalled), SortByScore(signalled.pending));
      var closed := if cfg.useT1 then Some(signalled) else ExecutePending(cfg, a, day, true, signalled);
      if closed.Some? {
        EquityAgrees(a, b, closed.value.cash, closed.value.positions, day, true);
      }
  }

  // ---- whole runs -----------------------------------------------------------------------------

  ghost predicate Increasing(days: seq<int>) {
    forall i, j :: 0 <= i < j < |days| ==> days[i] < days[j]
  }

  lemma AgreeEarlier(a: Tape, b: Tape, day: int, earlier: int)
    requires AgreeBefore(a, b, day) && earlier <= day
    ensures AgreeBefore(a, b, earlier)
  {
  }

  lemma {:induction false} RunsAgree(cfg: BacktestConfig, universe: Universe, a: Tape, b: Tape, initial: real,
                                     days: seq<int>, horizon: int)
    requires AgreeBefore(a, b, horizon)
    requires forall i :: 0 <= i < |days| ==> days[i] < horizon
    ensures RunDays(cfg, universe, a, initial, days) == RunDays(cfg, universe, b, initial, days)
  {
    hide AgreeBefore, RunDay;
    if days != [] {
      var init, last := days[..|days| - 1], days[|days| - 1];
      RunsAgree(cfg, universe, a, b, initial, init, horizon);
      AgreeEarlier(a, b, horizon, last + 1);
      match RunDays(cfg, universe, a, initial, init)
      case None =>
      case Some(st) => DayAgrees(cfg, universe, a, b, last, st);
    }
  }

  /** The state right after the morning's fills of day `days[k]`. */
  function AfterMorning(cfg: BacktestConfig, universe: Universe, tape: Tape, initial: real, days: seq<int>,
                        k: nat): Option<State>
    requires k < |days|
  {
    match RunDays(cfg, universe, tape, initial, days[..k])
    case None => None
    case Some(st) => Morning(cfg, tape, days[k], st)
  }

  /** No look-ahead. Two histories that agree on every bar and regime before day d, and on d only
      on which symbols trade and at what open, give the same cash, positions, trades, orders and
      equity curve after d's morning fills. */
  lemma NoLookAhead(cfg: BacktestConfig, universe: Universe, a: Tape, b: Tape, initial: real, days: seq<int>, k: nat)
    requires Increasing(days) && k < |days|
    requires AgreeBefore(a, b, days[k]) && AgreeOpens(a, b, days[k])
    ensures AfterMorning(cfg, universe, a, initial, days, k) == AfterMorning(cfg, universe, b, initial, days, k)
  {
    hide AgreeBefore, AgreeOpens, Morning, RunDays;
    RunsAgree(cfg, universe, a, b, initial, days[..k], days[k]);
    match RunDays(cfg, universe, a, initial, days[..k])
    case None =>
    case Some(st) => MorningAgrees(cfg, a, b, days[k], st);
  }

  // ---- the information-time check never fires -------------------------------------------------

  /** Every tag of every order lies on or before `day`. */
  ghost predicate TagsBy(orders: seq<Order>, day: int) {
    forall o :: o in orders ==> !NotBefore(o.signalDate, day + 1) && !NotBefore(o.indicatorAsof, day + 1)
  }

  lemma {:induction false} InsertElements(sorted: seq<Order>, order: Order)
    ensures multiset(InsertByScore(sorted, order)) == multiset(sorted) + multiset{order}
  {
    if sorted != [] {
      var init, last := sorted[..|sorted| - 1], sorted[|sorted| - 1];
      assert sorted == init + [last];
      InsertElements(init, order);
    }
  }

  /** Sorting by score keeps exactly the pending orders. */
  lemma {:induction false} SortElements(orders: seq<Order>)
    ensures multiset(SortByScore(orders)) == multiset(orders)
  {
    if orders != [] {
      var init, last := orders[..|orders| - 1], orders[|orders| - 1];
      assert orders == init + [last];
      SortElements(init);
      InsertElements(SortByScore(init), last);
    }
  }

  lemma SortKeepsTags(orders: seq<Order>, day: int)
    requires TagsBy(orders, day)
    ensures TagsBy(SortByScore(orders), day)
  {
    SortElements(orders);
    forall o | o in SortByScore(orders)
      ensures o in orders
    {
      assert o in multiset(SortByScore(orders));
    }
  }

  lemma {:induction false} TimelyOrdersNeverRaise(cfg: BacktestConfig, tape: Tape, day: int, useClose: bool,
                                                  desk: Desk, orders: seq<Order>)
    requires useClose || TagsBy(orders, day - 1)
    ensures ExecuteOrders(cfg, tape, day, useClose, desk, orders).Some?
  {
    hide Opening, Skipped, RecordFill;
    if orders != [] {
      TimelyOrdersNeverRaise(cfg, tape, day, useClose, desk, orders[..|orders| - 1]);
      assert orders[|orders| - 1] in orders;
    }
  }

  lemma {:induction false} SignalTags(cfg: BacktestConfig, tape: Tape, day: int, skip: set<string>,
                                      tickers: seq<string>)
    ensures TagsBy(ShortSignals(cfg, tape, day, skip, tickers), day)
    ensures TagsBy(CoreSignals(cfg, tape, day, skip, tickers), day)
  {
    if tickers != [] {
      LastBarIsPast(tape, tickers[|tickers| - 1], day);
      SignalTags(cfg, tape, day, skip, tickers[..|tickers| - 1]);
    }
  }

  lemma {:induction false} PickTags(available: real, signals: seq<Order>, day: int)
    requires TagsBy(signals, day)
    ensures TagsBy(Pick(available, signals).chosen, day)
  {
    if signals != [] {
      assert signals[|signals| - 1] in signals;
      PickTags(available, signals[..|signals| - 1], day);
    }
  }

  /** Signals of a day carry tags of that day or earlier. */
  lemma GeneratedTags(cfg: BacktestConfig, universe: Universe, tape: Tape, day: int, st: State)
    requires TagsBy(st.pending, day)
    ensures TagsBy(GenerateSignals(cfg, universe, tape, day, st).pending, day)
  {
    hide ShortSignals, CoreSignals, SortByScore, Pick, MonthStart, CountHeld, Symbols, HeldSymbols;
    var skip := Symbols(st.pending) + HeldSymbols(st.positions);
    SignalTags(cfg, tape, day, skip, universe.tickers);
    var short := ShortSignals(cfg, tape, day, skip, universe.tickers);
    var core := CoreSignals(cfg, tape, day, skip, universe.tickers);
    SortKeepsTags(short, day);
    SortKeepsTags(core, day);
    PickTags(MaxShort(cfg) - CountHeld(st.positions, false) as real, SortByScore(short), day);
  }

  lemma DayNeverRaises(cfg: BacktestConfig, universe: Universe, tape: Tape, day: int, st: State)
    requires TagsBy(st.pending, day - 1)
    ensures RunDay(cfg, universe, tape, day, st).Some?
    ensures TagsBy(RunDay(cfg, universe, tape, day, st).value.pending, day)
  {
    hide ExecuteOrders, ExitAll, ExitedPositions, GenerateSignals, Equity, SortByScore, OpeningDesk, TagsBy;
    var s0 := st.(locked := false);
    SortKeepsTags(st.pending, day - 1);
    TimelyOrdersNeverRaise(cfg, tape, day, false, OpeningDesk(cfg, s0), SortByScore(s0.pending));
    var s := Morning(cfg, tape, day, st).value;
    var exited := CheckExits(cfg, tape, day, s);
    assert exited.pending == [];
    NoTags(day);
    GeneratedTags(cfg, universe, tape, day, exited);
    var signalled := if exited.locked then exited else GenerateSignals(cfg, universe, tape, day, exited);
    TimelyOrdersNeverRaise(cfg, tape, day, true, OpeningDesk(cfg, signalled), SortByScore(signalled.pending));
  }

  lemma NoTags(day: int)
    ensures TagsBy([], day)
  {
  }

  lemma LaterTags(orders: seq<Order>, day: int, later: int)
    requires TagsBy(orders, day) && day <= later
    ensures TagsBy(orders, later)
  {
  }

  /** Over any increasing list of days the information-time ValueError is never raised, and the
      orders waiting at the end carry no date after the last day. */
  lemma {:induction false} NeverRaises(cfg: BacktestConfig, universe: Universe, tape: Tape, initial: real,
                                       days: seq<int>)
    requires Increasing(days)
    ensures var r := RunDays(cfg, universe, tape, initial, days);
      && r.Some?
      && (days == [] ==> r.value.pending == [])
      && (days != [] ==> TagsBy(r.value.pending, days[|days| - 1]))
  {
    hide TagsBy, RunDay;
    if days != [] {
      var init, last := days[..|days| - 1], days[|days| - 1];
      NeverRaises(cfg, universe, tape, initial, init);
      var st := RunDays(cfg, universe, tape, initial, init).value;
      NoTags(last - 1);
      if init != [] {
        LaterTags(st.pending, init[|init| - 1], last - 1);
      }
      DayNeverRaises(cfg, universe, tape, last, st);
    }
  }

  // ---- trading days ---------------------------------------------------------------------------

  /** _get_trading_days: the days of the sample symbol's own bars in the test window. */
  function TradingDays(tape: Tape, sample: string, start: int, end: int): seq<int>
    decreases end - start + 1
  {
    if end < start then []
    else TradingDays(tape, sample, start, end - 1) + if RowOn(tape, sample, end).Some? then [end] else []
  }

  /** The loop of a real run visits its days in increasing order. */
  lemma {:induction false} TradingDaysIncrease(tape: Tape, sample: string, start: int, end: int)
    ensures Increasing(TradingDays(tape, sample, start, end))
    ensures forall d :: d in TradingDays(tape, sample, start, end) ==> start <= d <= end
    decreases end - start + 1
  {
    if start <= end {
      TradingDaysIncrease(tape, sample, start, end - 1);
      var rest := TradingDays(tape, sample, start, end - 1);
      assert forall i :: 0 <= i < |rest| ==> rest[i] in rest;
    }
  }

  /** So a run over its own trading days never stops on the information-time check. */
  lemma RealRunsNeverRaise(cfg: BacktestConfig, universe: Universe, tape: Tape, initial: real, sample: string,
                           start: int, end: int)
    ensures RunDays(cfg, universe, tape, initial, TradingDays(tape, sample, start, end)).Some?
  {
    TradingDaysIncrease(tape, sample, start, end);
    NeverRaises(cfg, universe, tape, initial, TradingDays(tape, sample, start, end));
  }

  /** Two histories that agree before a day agree on the trading days before it. */
  lemma {:induction false} TradingDaysAgree(a: Tape, b: Tape, sample: string, start: int, end: int, horizon: int)
    requires AgreeBefore(a, b, horizon) && end < horizon
    ensures TradingDays(a, sample, start, end) == TradingDays(b, sample, start, end)
    decreases end - start + 1
  {
    if start <= end {
      assert RowOn(a, sample, end) == RowOn(b, sample, end);
      TradingDaysAgree(a, b, sample, start, end - 1, horizon);
    }
  }

  /** A shorter window's days are the first days of a longer one. */
  lemma {:induction false} TradingDaysPrefix(tape: Tape, sample: string, start: int, mid: int, end: int)
    requires mid <= end
    ensures TradingDays(tape, sample, start, mid) <= TradingDays(tape, sample, start, end)
    decreases end - mid
  {
    if mid < end {
      TradingDaysPrefix(tape, sample, start, mid, end - 1);
    }
  }

  /** No look-ahead with each history on its own calendar: if the two agree before a trading day and on
      that day's opens, it is the same day of both runs, and what follows in either history has no part
      in the state after its morning. */
  lemma NoLookAheadOnOwnCalendars(cfg: BacktestConfig, universe: Universe, a: Tape, b: Tape, initial: real,
                                  sample: string, start: int, day: int, end: int)
    requires start <= day <= end && AgreeBefore(a, b, day) && AgreeOpens(a, b, day)
    requires RowOn(a, sample, day).Some?
    ensures var k := |TradingDays(a, sample, start, day - 1)|;
      var daysA, daysB := TradingDays(a, sample, start, end), TradingDays(b, sample, start, end);
      && k < |daysA| && k < |daysB| && daysA[k] == day == daysB[k]
      && AfterMorning(cfg, universe, a, initial, daysA, k) == AfterMorning(cfg, universe, b, initial, daysB, k)
  {
    hide AgreeBefore, AfterMorning;
    var k := |TradingDays(a, sample, start, day - 1)|;
    var upTo := TradingDays(a, sample, start, day);
    TradingDaysAgree(a, b, sample, start, day - 1, day);
    assert RowOn(b, sample, day).Some?;
    assert TradingDays(b, sample, start, day) == upTo;
    TradingDaysPrefix(a, sample, start, day, end);
    TradingDaysPrefix(b, sample, start, day, end);
    TradingDaysIncrease(a, sample, start, day);
    NoLookAhead(cfg, universe, a, b, initial, upTo, k);
    SameDaysSameMorning(cfg, universe, a, initial, upTo, TradingDays(a, sample, start, end), k);
    SameDaysSameMorning(cfg, universe, b, initial, upTo, TradingDays(b, sample, start, end), k);
  }

  lemma SameDaysSameMorning(cfg: BacktestConfig, universe: Universe, tape: Tape, initial: real, days: seq<int>,
                            longer: seq<int>, k: nat)
    requires days <= longer && k < |days|
    ensures AfterMorning(cfg, universe, tape, initial, longer, k) == AfterMorning(cfg, universe, tape, initial, days, k)
  {
    assert longer[..k] == days[..k];
  }
}
