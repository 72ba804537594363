/** The limits at every step of every run: before, between and after the fills of each day, at the open
    and at the close, and between the sales. */
module LimitsOverRuns {
  import opened Basics
  import opened Market
  import opened Config
  import opened Exits
  import opened Engine
  import opened ExitFacts
  import opened Limits
  import opened BooksOverRuns
  import Books

  /** From the exits of a day to its signals. */
  function Signalled(cfg: BacktestConfig, universe: Universe, tape: Tape, day: int, s: State): State {
    var exited := CheckExits(cfg, tape, day, s);
    if exited.locked then exited else GenerateSignals(cfg, universe, tape, day, exited)
  }

  /** The state from which the fills of day `days[k]` start: at the open, or at the close of a same-day
      run, which is the only one that fills there. */
  function BeforeFills(cfg: BacktestConfig, universe: Universe, tape: Tape, initial: real, days: seq<int>, k: nat,
                       useClose: bool): Option<State>
    requires k < |days|
  {
    match RunDays(cfg, universe, tape, initial, days[..k])
    case None => None
    case Some(st) =>
      if !useClose then Some(st.(locked := false))
      else if cfg.useT1 then None
      else
        match Morning(cfg, tape, days[k], st)
        case None => None
        case Some(s) => Some(Signalled(cfg, universe, tape, days[k], s))
  }

  /** The desk after the first `j` of those orders. */
  function DeskAfter(cfg: BacktestConfig, universe: Universe, tape: Tape, initial: real, days: seq<int>, k: nat,
                     useClose: bool, j: nat): Option<Desk>
    requires k < |days|
  {
    match BeforeFills(cfg, universe, tape, initial, days, k, useClose)
    case None => None
    case Some(st) =>
      var orders := SortByScore(st.pending);
      if j > |orders| then None
      else ExecuteOrders(cfg, tape, days[k], useClose, OpeningDesk(cfg, st), orders[..j])
  }

  // ---- cash -----------------------------------------------------------------------------------

  lemma MorningSolvent(cfg: BacktestConfig, tape: Tape, day: int, st: State)
    requires SafeSettings(cfg) && TapeNonNegative(tape) && Solvent(st.cash, st.positions)
    ensures var m := Morning(cfg, tape, day, st); m.Some? ==> Solvent(m.value.cash, m.value.positions)
  {
    hide ExecuteOrders, SortByScore, ShortUsage, CountHeld, TapeNonNegative, Solvent;
    var s := st.(locked := false);
    OrdersSolvent(cfg, tape, day, false, OpeningDesk(cfg, s), SortByScore(s.pending));
  }

  lemma BeforeFillsSolvent(cfg: BacktestConfig, universe: Universe, tape: Tape, initial: real, days: seq<int>,
                           k: nat, useClose: bool)
    requires SafeSettings(cfg) && TapeNonNegative(tape) && initial >= 0.0 && k < |days|
    ensures var st := BeforeFills(cfg, universe, tape, initial, days, k, useClose);
      st.Some? ==> Solvent(st.value.cash, st.value.positions)
  {
    hide TapeNonNegative, Solvent, SafeSettings, Morning, CheckExits, GenerateSignals, RunDays;
    CashNeverNegative(cfg, universe, tape, initial, days[..k]);
    match RunDays(cfg, universe, tape, initial, days[..k])
    case None =>
    case Some(st) =>
      MorningSolvent(cfg, tape, days[k], st);
      match Morning(cfg, tape, days[k], st)
      case None =>
      case Some(s) =>
        CheckExitsSolvent(cfg, tape, days[k], s);
        GenerateKeepsBook(cfg, universe, tape, days[k], CheckExits(cfg, tape, days[k], s));
  }

  /** After any number of a morning's or a close's orders, on any day of any run, cash is not negative. */
  lemma CashNeverNegativeAtAnyFill(cfg: BacktestConfig, universe: Universe, tape: Tape, initial: real, days: seq<int>,
                                   k: nat, useClose: bool, j: nat)
    requires SafeSettings(cfg) && TapeNonNegative(tape) && initial >= 0.0 && k < |days|
    ensures var desk := DeskAfter(cfg, universe, tape, initial, days, k, useClose, j);
      desk.Some? ==> desk.value.cash >= 0.0
  {
    hide TapeNonNegative, SafeSettings, BeforeFills, SortByScore, ExecuteOrders, ShortUsage, CountHeld;
    BeforeFillsSolvent(cfg, universe, tape, initial, days, k, useClose);
    match BeforeFills(cfg, universe, tape, initial, days, k, useClose)
    case None =>
    case Some(st) =>
      var orders := SortByScore(st.pending);
      if j <= |orders| {
        OrdersSolvent(cfg, tape, days[k], useClose, OpeningDesk(cfg, st), orders[..j]);
      }
  }

  lemma {:induction false} LiquidationSolvent(tape: Tape, day: int, till: Till, positions: seq<Pos>)
    requires TapeNonNegative(tape) && forall p :: p in positions ==> PosSane(p)
    ensures LiquidateTill(tape, day, till, positions).cash >= till.cash
  {
    if positions != [] {
      hide TapeNonNegative, CloseMark, SellTrade;
      var last := positions[|positions| - 1];
      LiquidationSolvent(tape, day, till, positions[..|positions| - 1]);
      MarkNonNegative(tape, last, day, true);
      if last.remaining > 0 {
        SaleProceedsNonNegative(last.entry, last.holdingDays, day,
                                Action(last.remaining, CloseMark(tape, last, day), EndOfTest));
      }
    }
  }

  /** Nor after any number of positions a day's exits, or the final liquidation, have gone through. */
  lemma CashNeverNegativeAtAnySale(cfg: BacktestConfig, universe: Universe, tape: Tape, initial: real, days: seq<int>,
                                   k: nat, j: nat)
    requires SafeSettings(cfg) && TapeNonNegative(tape) && initial >= 0.0 && k < |days|
    ensures match RunDays(cfg, universe, tape, initial, days[..k])
      case None => true
      case Some(st) =>
        match Morning(cfg, tape, days[k], st)
        case None => true
        case Some(s) =>
          j <= |s.positions| ==>
            ExitAll(cfg, tape, days[k], Till(s.cash, s.trades, s.locked), s.positions[..j]).cash >= 0.0
    ensures match RunDays(cfg, universe, tape, initial, days)
      case None => true
      case Some(st) =>
        j <= |st.positions| ==>
          LiquidateTill(tape, days[|days| - 1], Till(st.cash, st.trades, st.locked), st.positions[..j]).cash >= 0.0
  {
    hide TapeNonNegative, PosSane, SafeSettings, Morning, RunDays, ExitAll, LiquidateTill;
    CashNeverNegative(cfg, universe, tape, initial, days[..k]);
    match RunDays(cfg, universe, tape, initial, days[..k]) {
      case None =>
      case Some(st) =>
        MorningSolvent(cfg, tape, days[k], st);
        match Morning(cfg, tape, days[k], st) {
          case None =>
          case Some(s) =>
            if j <= |s.positions| {
              ExitsSolvent(cfg, tape, days[k], Till(s.cash, s.trades, s.locked), s.positions[..j]);
            }
        }
    }
    CashNeverNegative(cfg, universe, tape, initial, days);
    match RunDays(cfg, universe, tape, initial, days) {
      case None =>
      case Some(st) =>
        if j <= |st.positions| {
          LiquidationSolvent(tape, days[|days| - 1], Till(st.cash, st.trades, st.locked), st.positions[..j]);
        }
    }
  }

  // ---- slots ----------------------------------------------------------------------------------

  lemma BeforeFillsWithinSlots(cfg: BacktestConfig, universe: Universe, tape: Tape, initial: real, days: seq<int>,
                               k: nat, useClose: bool)
    requires RatiosAreFractions(cfg.exits) && MaxShort(cfg) >= 0.0 && cfg.maxPositionsCore >= 0 && k < |days|
    ensures var st := BeforeFills(cfg, universe, tape, initial, days, k, useClose);
      st.Some? ==> SlotsSound(cfg, st.value)
  {
    hide Morning, CheckExits, GenerateSignals, RunDays, ShortUsage, CountHeld;
    SlotBoundOverRuns(cfg, universe, tape, initial, days[..k]);
    match RunDays(cfg, universe, tape, initial, days[..k])
    case None =>
    case Some(st) =>
      DayKeepsSlots(cfg, universe, tape, days[k], st);
      match Morning(cfg, tape, days[k], st)
      case None =>
      case Some(s) =>
        CheckExitsKeepsSlots(cfg, tape, days[k], s);
        GenerateKeepsBook(cfg, universe, tape, days[k], CheckExits(cfg, tape, days[k], s));
  }

  /** After any number of orders of any fill, on any day of any run, the loop's counters are the recomputed
      usage, and usage is within the caps: weighted below cap plus one, whole slots at most the cap. */
  lemma SlotsBoundedAtAnyFill(cfg: BacktestConfig, universe: Universe, tape: Tape, initial: real, days: seq<int>,
                              k: nat, useClose: bool, j: nat)
    requires RatiosAreFractions(cfg.exits) && MaxShort(cfg) >= 0.0 && cfg.maxPositionsCore >= 0 && k < |days|
    ensures var desk := DeskAfter(cfg, universe, tape, initial, days, k, useClose, j);
      desk.Some? ==>
        && CountersExact(cfg, desk.value) && WithinCap(cfg, desk.value.shortUsed)
        && desk.value.coreUsed <= cfg.maxPositionsCore
  {
    hide BeforeFills, SortByScore, ExecuteOrders, ShortUsage, CountHeld;
    BeforeFillsWithinSlots(cfg, universe, tape, initial, days, k, useClose);
    match BeforeFills(cfg, universe, tape, initial, days, k, useClose)
    case None =>
    case Some(st) =>
      var orders := SortByScore(st.pending);
      if j <= |orders| {
        OrdersKeepSlots(cfg, tape, days[k], useClose, OpeningDesk(cfg, st), orders[..j]);
      }
  }

  /** And once a day's exits are through, before its signals, it is still within them. */
  lemma SlotsBoundedAfterExits(cfg: BacktestConfig, universe: Universe, tape: Tape, initial: real, days: seq<int>,
                               k: nat)
    requires RatiosAreFractions(cfg.exits) && MaxShort(cfg) >= 0.0 && cfg.maxPositionsCore >= 0 && k < |days|
    ensures match RunDays(cfg, universe, tape, initial, days[..k])
      case None => true
      case Some(st) =>
        match Morning(cfg, tape, days[k], st)
        case None => true
        case Some(s) => SlotsSound(cfg, s) && SlotsSound(cfg, CheckExits(cfg, tape, days[k], s))
  {
    hide Morning, CheckExits, RunDays, SlotsSound;
    SlotBoundOverRuns(cfg, universe, tape, initial, days[..k]);
    match RunDays(cfg, universe, tape, initial, days[..k])
    case None =>
    case Some(st) =>
      DayKeepsSlots(cfg, universe, tape, days[k], st);
      match Morning(cfg, tape, days[k], st)
      case None =>
      case Some(s) => CheckExitsKeepsSlots(cfg, tape, days[k], s);
  }

  // ---- every purchase ---------------------------------------------------------------------------

  /** A desk of the fill loop opens `p` with its `j`-th order. */
  ghost predicate FillsAt(cfg: BacktestConfig, tape: Tape, day: int, useClose: bool, start: Desk, orders: seq<Order>,
                          j: nat, p: Pos) {
    && j < |orders|
    && var desk := ExecuteOrders(cfg, tape, day, useClose, start, orders[..j]);
       && desk.Some? && !Skipped(cfg, desk.value, orders[j]) && !Untimely(day, useClose, orders[j])
       && Opening(cfg, tape, day, useClose, desk.value, orders[j]) == Some(p)
  }

  /** What the loop adds to the log are the purchases of its fills. */
  lemma {:induction false} OrdersTrace(cfg: BacktestConfig, tape: Tape, day: int, useClose: bool, start: Desk,
                                       orders: seq<Order>, t: Trade) returns (j: nat, p: Pos)
    requires var d := ExecuteOrders(cfg, tape, day, useClose, start, orders); d.Some? && t in d.value.trades
    requires t !in start.trades
    ensures FillsAt(cfg, tape, day, useClose, start, orders, j, p) && t == BuyTrade(p.entry)
  {
    hide Opening, Skipped, Untimely, BuyTrade;
    var n := |orders| - 1;
    var before := ExecuteOrders(cfg, tape, day, useClose, start, orders[..n]);
    if t in before.value.trades {
      j, p := OrdersTrace(cfg, tape, day, useClose, start, orders[..n], t);
      assert orders[..n][..j] == orders[..j];
    } else {
      j, p := n, Opening(cfg, tape, day, useClose, before.value, orders[n]).value;
    }
  }

  lemma {:induction false} SettleTrace(till: Till, p: Pos, day: int, actions: seq<Action>, t: Trade)
    requires t in Settle(till, p, day, actions).trades
    ensures t in till.trades || t.side.Sell?
    decreases |actions|
  {
    if actions != [] && t in Settle(till, p, day, actions[..|actions| - 1]).trades {
      SettleTrace(till, p, day, actions[..|actions| - 1], t);
    }
  }

  lemma {:induction false} ExitsTrace(cfg: BacktestConfig, tape: Tape, day: int, till: Till, positions: seq<Pos>,
                                      t: Trade)
    requires t in ExitAll(cfg, tape, day, till, positions).trades
    ensures t in till.trades || t.side.Sell?
    decreases |positions|
  {
    hide ExitVerdict, Settle;
    if positions != [] {
      var init, last := positions[..|positions| - 1], positions[|positions| - 1];
      var v := ExitVerdict(cfg, tape, day, last);
      SettleTrace(ExitAll(cfg, tape, day, till, init), v.pos, day, v.actions, t);
      if t in ExitAll(cfg, tape, day, till, init).trades {
        ExitsTrace(cfg, tape, day, till, init, t);
      }
    }
  }

  /** Where a run made a purchase: on day `days[k]`, at the open or the close, with the `j`-th order. */
  ghost predicate BoughtAt(cfg: BacktestConfig, universe: Universe, tape: Tape, initial: real, days: seq<int>, t: Trade,
                           k: nat, useClose: bool, j: nat, p: Pos) {
    && k < |days| && t == BuyTrade(p.entry)
    && var st := BeforeFills(cfg, universe, tape, initial, days, k, useClose);
       && st.Some?
       && FillsAt(cfg, tape, days[k], useClose, OpeningDesk(cfg, st.value), SortByScore(st.value.pending), j, p)
  }

  lemma BoughtEarlier(cfg: BacktestConfig, universe: Universe, tape: Tape, initial: real, days: seq<int>, t: Trade,
                      k: nat, useClose: bool, j: nat, p: Pos)
    requires days != [] && BoughtAt(cfg, universe, tape, initial, days[..|days| - 1], t, k, useClose, j, p)
    ensures BoughtAt(cfg, universe, tape, initial, days, t, k, useClose, j, p)
  {
    hide FillsAt, RunDays, Morning, Signalled, BuyTrade;
    assert days[..|days| - 1][..k] == days[..k];
  }

  lemma PendingTrace(cfg: BacktestConfig, tape: Tape, day: int, useClose: bool, st: State, t: Trade)
    returns (j: nat, p: Pos)
    requires var r := ExecutePending(cfg, tape, day, useClose, st); r.Some? && t in r.value.trades
    requires t !in st.trades
    ensures FillsAt(cfg, tape, day, useClose, OpeningDesk(cfg, st), SortByScore(st.pending), j, p)
    ensures t == BuyTrade(p.entry)
  {
    hide ExecuteOrders, SortByScore, FillsAt, BuyTrade, ShortUsage, CountHeld;
    j, p := OrdersTrace(cfg, tape, day, useClose, OpeningDesk(cfg, st), SortByScore(st.pending), t);
  }

  /** Every purchase in a run's log was made by one of its fills. */
  lemma {:induction false} PurchaseTrace(cfg: BacktestConfig, universe: Universe, tape: Tape, initial: real,
                                         days: seq<int>, t: Trade)
    returns (k: nat, useClose: bool, j: nat, p: Pos)
    requires var r := RunDays(cfg, universe, tape, initial, days); r.Some? && t in r.value.trades && t.side.Buy?
    ensures BoughtAt(cfg, universe, tape, initial, days, t, k, useClose, j, p)
  {
    hide FillsAt, SortByScore, OpeningDesk, ExecutePending, ExitAll, GenerateSignals, Equity, BuyTrade;
    var n := |days| - 1;
    var st := RunDays(cfg, universe, tape, initial, days[..n]).value;
    if t in st.trades {
      k, useClose, j, p := PurchaseTrace(cfg, universe, tape, initial, days[..n], t);
      BoughtEarlier(cfg, universe, tape, initial, days, t, k, useClose, j, p);
    } else {
      var s := Morning(cfg, tape, days[n], st).value;
      if t in s.trades {
        j, p := PendingTrace(cfg, tape, days[n], false, st.(locked := false), t);
        k, useClose := n, false;
      } else {
        if t in CheckExits(cfg, tape, days[n], s).trades {
          ExitsTrace(cfg, tape, days[n], Till(s.cash, s.trades, s.locked), s.positions, t);
        }
        GenerateKeepsBook(cfg, universe, tape, days[n], CheckExits(cfg, tape, days[n], s));
        j, p := PendingTrace(cfg, tape, days[n], true, Signalled(cfg, universe, tape, days[n], s), t);
        k, useClose := n, true;
      }
    }
  }

  lemma BeforeFillsBalanced(cfg: BacktestConfig, universe: Universe, tape: Tape, initial: real, days: seq<int>,
                            k: nat, useClose: bool)
    requires RatiosAreFractions(cfg.exits) && k < |days|
    ensures var st := BeforeFills(cfg, universe, tape, initial, days, k, useClose);
      st.Some? ==> StateBalanced(initial, st.value)
  {
    hide Books.Balanced, ExecutePending, CheckExits, GenerateSignals, RunDays;
    BooksBalanceEveryDay(initial, cfg, universe, tape, days[..k]);
    match RunDays(cfg, universe, tape, initial, days[..k])
    case None =>
    case Some(st) =>
      ExecutePendingKeepsBalance(initial, cfg, tape, days[k], false, st.(locked := false));
      match Morning(cfg, tape, days[k], st)
      case None =>
      case Some(s) =>
        CheckExitsKeepBalance(initial, cfg, tape, days[k], s);
        GenerateKeepsBook(cfg, universe, tape, days[k], CheckExits(cfg, tape, days[k], s));
  }

  /** The books balance after any number of a day's orders, at the open or at the close. */
  lemma BooksBalanceAtAnyFill(cfg: BacktestConfig, universe: Universe, tape: Tape, initial: real, days: seq<int>,
                              k: nat, useClose: bool, j: nat)
    requires RatiosAreFractions(cfg.exits) && k < |days|
    ensures var desk := DeskAfter(cfg, universe, tape, initial, days, k, useClose, j);
      desk.Some? ==> DeskBalanced(initial, desk.value)
  {
    hide Books.Balanced, BeforeFills, SortByScore, ExecuteOrders, ShortUsage, CountHeld;
    BeforeFillsBalanced(cfg, universe, tape, initial, days, k, useClose);
    match BeforeFills(cfg, universe, tape, initial, days, k, useClose)
    case None =>
    case Some(st) =>
      var orders := SortByScore(st.pending);
      if j <= |orders| {
        OrdersKeepBalance(initial, cfg, tape, days[k], useClose, OpeningDesk(cfg, st), orders[..j]);
      }
  }

  /** And after any number of positions a day's exits, or the final liquidation, have gone through: those
      done are as the exits left them, the others as they were. */
  lemma BooksBalanceAtAnySale(cfg: BacktestConfig, universe: Universe, tape: Tape, initial: real, days: seq<int>,
                              k: nat, j: nat)
    requires RatiosAreFractions(cfg.exits) && k < |days|
    ensures match RunDays(cfg, universe, tape, initial, days[..k])
      case None => true
      case Some(st) =>
        match Morning(cfg, tape, days[k], st)
        case None => true
        case Some(s) =>
          j <= |s.positions| ==>
            var t := ExitAll(cfg, tape, days[k], Till(s.cash, s.trades, s.locked), s.positions[..j]);
            var done := Alive(ExitedPositions(cfg, tape, days[k], s.positions)[..j]);
            Books.Balanced(initial, t.cash, done + s.positions[j..], t.trades)
    ensures match RunDays(cfg, universe, tape, initial, days)
      case None => true
      case Some(st) =>
        j <= |st.positions| ==>
          var t := LiquidateTill(tape, days[|days| - 1], Till(st.cash, st.trades, st.locked), st.positions[..j]);
          Books.Balanced(initial, t.cash, st.positions[j..], t.trades)
  {
    hide Books.Balanced, ExecutePending, RunDays, ExitAll, LiquidateTill;
    BooksBalanceEveryDay(initial, cfg, universe, tape, days[..k]);
    match RunDays(cfg, universe, tape, initial, days[..k]) {
      case None =>
      case Some(st) =>
        ExecutePendingKeepsBalance(initial, cfg, tape, days[k], false, st.(locked := false));
        match Morning(cfg, tape, days[k], st) {
          case None =>
          case Some(s) =>
            if j <= |s.positions| {
              ExitPrefixKeepsBalance(initial, cfg, tape, days[k], Till(s.cash, s.trades, s.locked), s.positions, j);
            }
        }
    }
    BooksBalanceEveryDay(initial, cfg, universe, tape, days);
    match RunDays(cfg, universe, tape, initial, days) {
      case None =>
      case Some(st) =>
        if j <= |st.positions| {
          LiquidationKeepsBalance(initial, tape, days[|days| - 1], Till(st.cash, st.trades, st.locked),
                                  st.positions, j);
        }
    }
  }

  lemma BoughtWithinLimits(cfg: BacktestConfig, tape: Tape, day: int, useClose: bool, initial: real, st: State,
                           orders: seq<Order>, j: nat, p: Pos)
    requires StateBalanced(initial, st) && FillsAt(cfg, tape, day, useClose, OpeningDesk(cfg, st), orders, j, p)
    ensures var desk := ExecuteOrders(cfg, tape, day, useClose, OpeningDesk(cfg, st), orders[..j]).value;
      FillWithinLimits(cfg, tape, day, useClose, desk, p)
  {
    hide Books.Balanced, ExecuteOrders, Opening, Untimely, SlotsFull, FillWithinLimits, ShortUsage, CountHeld, Find;
    OrdersKeepBalance(initial, cfg, tape, day, useClose, OpeningDesk(cfg, st), orders[..j]);
    var desk := ExecuteOrders(cfg, tape, day, useClose, OpeningDesk(cfg, st), orders[..j]).value;
    BalancedAreAlive(initial, desk.cash, desk.positions, desk.trades);
    FilledOrderWithinLimits(cfg, tape, day, useClose, desk, orders[j]);
  }

  /** Every purchase in the log of every run left its desk within the reserve, the risk share and the
      strategy's budget. */
  lemma EveryPurchaseWithinLimits(cfg: BacktestConfig, universe: Universe, tape: Tape, initial: real, days: seq<int>,
                                  t: Trade)
    requires RatiosAreFractions(cfg.exits)
    requires var r := RunDays(cfg, universe, tape, initial, days); r.Some? && t in r.value.trades && t.side.Buy?
    ensures exists k: nat, useClose, j: nat, p ::
      && BoughtAt(cfg, universe, tape, initial, days, t, k, useClose, j, p)
      && FillWithinLimits(cfg, tape, days[k], useClose,
                          DeskAfter(cfg, universe, tape, initial, days, k, useClose, j).value, p)
  {
    hide BuyTrade, BeforeFills, SortByScore, FillWithinLimits, RunDays, ExecuteOrders, StateBalanced, Opening, Skipped;
    var k, useClose, j, p := PurchaseTrace(cfg, universe, tape, initial, days, t);
    BeforeFillsBalanced(cfg, universe, tape, initial, days, k, useClose);
    var st := BeforeFills(cfg, universe, tape, initial, days, k, useClose).value;
    BoughtWithinLimits(cfg, tape, days[k], useClose, initial, st, SortByScore(st.pending), j, p);
  }
}
