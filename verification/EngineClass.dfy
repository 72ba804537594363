/** `BacktestEngine` itself: the object whose fields the day loop updates in place.  Every method
    is tied to the state function of the same step in module `Engine`. */
module EngineClass {
  import opened Basics
  import opened Market
  import opened Config
  import opened Exits
  import opened Engine
  import Fees

  /** The values of a list of position objects. */
  function Views(objects: seq<BTPosition>): (r: seq<Pos>)
    reads objects
    ensures |r| == |objects|
    ensures forall i :: 0 <= i < |r| ==> r[i] == objects[i].View()
  {
    seq(|objects|, i requires 0 <= i < |objects| reads objects => objects[i].View())
  }

  ghost predicate Distinct(objects: seq<BTPosition>) {
    forall i, j :: 0 <= i < j < |objects| ==> objects[i] != objects[j]
  }

  /** Different objects, all among the first `i`. */
  ghost predicate KeptOf(all: seq<BTPosition>, kept: seq<BTPosition>, i: nat)
    requires i <= |all|
  {
    Distinct(kept) && forall p :: p in kept ==> p in all[..i]
  }

  /** Keeping the next object, or passing it over. */
  lemma KeptSnoc(all: seq<BTPosition>, kept: seq<BTPosition>, i: nat)
    requires i < |all| && Distinct(all) && KeptOf(all, kept, i)
    ensures KeptOf(all, kept + [all[i]], i + 1) && KeptOf(all, kept, i + 1)
  {
    assert all[..i + 1] == all[..i] + [all[i]];
    assert all[i] !in all[..i];
  }

  lemma ViewsSnoc(objects: seq<BTPosition>, o: BTPosition)
    ensures Views(objects + [o]) == Views(objects) + [o.View()]
    ensures o.View().remaining == o.remaining
  {
  }

  lemma AliveSnoc(views: seq<Pos>, i: nat)
    requires i < |views|
    ensures Alive(views[..i + 1])
            == if views[i].remaining > 0 then Alive(views[..i]) + [views[i]] else Alive(views[..i])
  {
    assert views[..i + 1][..i] == views[..i];
  }

  lemma ShortSignalsSnoc(cfg: BacktestConfig, tape: Tape, day: int, skip: set<string>, tickers: seq<string>, i: nat)
    requires i < |tickers|
    ensures ShortSignals(cfg, tape, day, skip, tickers[..i + 1])
            == ShortSignals(cfg, tape, day, skip, tickers[..i]) + ShortSignalsOf(cfg, tape, day, skip, tickers[i])
  {
    hide ShortSignalsOf;
    assert tickers[..i + 1][..i] == tickers[..i];
  }

  /** What a listed symbol adds to the signals before it. */
  lemma ShortSignalsAdd(cfg: BacktestConfig, tape: Tape, day: int, skip: set<string>, ticker: string,
                        before: seq<Order>)
    ensures var dated := LastBar(tape, ticker, day);
            before + ShortSignalsOf(cfg, tape, day, skip, ticker)
            == if ticker in skip || dated.None? then before
               else
                 var bar := dated.value.bar;
                 var sepa := cfg.sepaOn && !tape.regime(day).Bearish? && bar.sepaScore >= cfg.sepaMinScore;
                 var first := if sepa then before + [Signal(ticker, Sepa, bar.sepaScore, dated.value, day)] else before;
                 if cfg.rsi2On && bar.rsi2Score >= cfg.rsi2MinScore
                 then first + [Signal(ticker, Rsi2, bar.rsi2Score, dated.value, day)] else first
  {
    hide LastBar, Signal;
  }

  class BacktestEngine {
    const cfg: BacktestConfig
    const universe: Universe
    const tape: Tape
    const exitMgr: BTExitManager
    const initial: real

    var cash: real
    var positions: seq<BTPosition>
    var trades: seq<Trade>
    var equityCurve: seq<(int, real)>
    var pendingBuys: seq<Order>
    var dailyLossLocked: bool
    var peakEquity: real

    ghost predicate Valid()
      reads this
    {
      Distinct(positions) && exitMgr.rules == cfg.exits
    }

    /** The position objects the engine owns. */
    ghost function Owned(): set<BTPosition>
      reads this
    {
      set p | p in positions
    }

    ghost function Value(): State
      reads this, positions
    {
      State(cash, Views(positions), trades, pendingBuys, dailyLossLocked, equityCurve, peakEquity)
    }

    constructor (cfg: BacktestConfig, universe: Universe, tape: Tape, initial: real)
      ensures Valid() && Owned() == {}
      ensures this.cfg == cfg && this.universe == universe && this.tape == tape && this.initial == initial
      ensures Value() == Start(initial)
    {
      this.cfg := cfg;
      this.universe := universe;
      this.tape := tape;
      this.initial := initial;
      exitMgr := new BTExitManager(cfg.exits);
      cash := initial;
      positions := [];
      trades := [];
      equityCurve := [];
      pendingBuys := [];
      dailyLossLocked := false;
      peakEquity := initial;
    }

    /** Dict assignment into `positions`. */
    method PutPosition(pos: BTPosition)
      requires Valid() && pos !in positions
      modifies this`positions
      ensures Valid()
      ensures Views(positions) == Put(old(Views(positions)), pos.View())
      ensures Owned() <= old(Owned()) + {pos}
    {
      var i := Find(Views(positions), pos.entry.symbol);
      if i >= 0 {
        positions := positions[i := pos];
      } else {
        positions := positions + [pos];
      }
    }

    /** T+1 fills at the open, or T+0 fills at the close. `raised` reports the ValueError of the
        information-time check, after which the run is over. */
    method ExecutePendingBuys(day: int, useClose: bool) returns (raised: bool)
      requires Valid()
      modifies this
      ensures Valid()
      ensures fresh(Owned() - old(Owned()))
      ensures raised <==> ExecutePending(cfg, tape, day, useClose, old(Value())).None?
      ensures !raised ==> Value() == ExecutePending(cfg, tape, day, useClose, old(Value())).value
    {
      hide ExecuteOrder, Views, ShortUsage, CountHeld, SortByScore, FilledToday, BTPosition.View;
      ghost var was := Value();
      if pendingBuys == [] {
        NothingPending(cfg, tape, day, useClose, was);
        return false;
      }
      var shortCount := ShortUsage(cfg, Views(positions));
      var coreCount := CountHeld(Views(positions), true);
      var orders := SortByScore(pendingBuys);
      pendingBuys := [];
      var dayFilled: map<Strategy, real> := map[];
      var i := 0;
      while i < |orders|
        invariant 0 <= i <= |orders|
        invariant Valid()
        invariant fresh(Owned() - old(Owned()))
        invariant pendingBuys == [] && dailyLossLocked == was.locked
        invariant equityCurve == was.equityCurve && peakEquity == was.peak
        invariant ExecuteOrders(cfg, tape, day, useClose, OpeningDesk(cfg, was), orders[..i])
               == Some(Desk(cash, Views(positions), trades, shortCount, coreCount, dayFilled))
      {
        var order := orders[i];
        ghost var desk := Desk(cash, Views(positions), trades, shortCount, coreCount, dayFilled);
        assert orders[..i + 1][..i] == orders[..i];
        if ExecuteOrder(cfg, tape, day, useClose, desk, order).None? {
          PrefixRaises(cfg, tape, day, useClose, OpeningDesk(cfg, was), orders, i + 1);
        }
        var filled;
        raised, filled := ExecuteOne(day, useClose, order, shortCount, coreCount, dayFilled);
        if raised {
          return;
        }
        if filled.Some? {
          dayFilled := dayFilled[order.strategy := FilledToday(dayFilled, order.strategy) + filled.value];
          if order.strategy.Core? {
            coreCount := coreCount + 1;
          } else {
            shortCount := shortCount + 1.0;
          }
        }
        i := i + 1;
      }
      assert orders[..i] == orders;
      raised := false;
    }

    /** The body of the order loop: skip, raise, or fill. `filled` is the cost of a fill. */
    method ExecuteOne(day: int, useClose: bool, order: Order, shortCount: real, coreCount: int,
                      dayFilled: map<Strategy, real>)
      returns (raised: bool, filled: Option<real>)
      requires Valid()
      modifies this`cash, this`positions, this`trades
      ensures Valid()
      ensures fresh(Owned() - old(Owned()))
      ensures var out := ExecuteOrder(cfg, tape, day, useClose,
                                      old(Desk(cash, Views(positions), trades, shortCount, coreCount, dayFilled)),
                                      order);
        && (raised <==> out.None?)
        && (!raised ==>
              out.value == Desk(cash, Views(positions), trades,
                if filled.Some? && !order.strategy.Core? then shortCount + 1.0 else shortCount,
                if filled.Some? && order.strategy.Core? then coreCount + 1 else coreCount,
                if filled.Some? then dayFilled[order.strategy := FilledToday(dayFilled, order.strategy) + filled.value]
                else dayFilled))
    {
      hide Opening, MaxShort, Views, Find, NotBefore, Put, BuyTrade, FilledToday, BTPosition.View;
      raised, filled := false, None;
      if !order.strategy.Core? {
        if shortCount >= MaxShort(cfg) {
          return;
        }
      } else if coreCount >= cfg.maxPositionsCore {
        return;
      }
      if Holding(Views(positions), order.symbol) {
        return;
      }
      if !useClose {
        if NotBefore(order.signalDate, day) || NotBefore(order.indicatorAsof, day) {
          return true, None;
        }
      }
      filled := Fill(day, useClose, order, shortCount, coreCount, dayFilled);
    }

    /** An admitted order: price, gap filter, sizing, and the purchase itself. */
    method Fill(day: int, useClose: bool, order: Order, ghost shortCount: real, ghost coreCount: int,
                dayFilled: map<Strategy, real>)
      returns (filled: Option<real>)
      requires Valid()
      modifies this`cash, this`positions, this`trades
      ensures Valid()
      ensures fresh(Owned() - old(Owned()))
      ensures match Opening(cfg, tape, day, useClose,
                            old(Desk(cash, Views(positions), trades, shortCount, coreCount, dayFilled)), order)
        case None =>
          filled == None && cash == old(cash) && trades == old(trades) && Views(positions) == old(Views(positions))
        case Some(p) =>
          && filled == Some(p.entry.costBasis) && p.entry.strategy == order.strategy
          && cash == old(cash) - p.entry.costBasis
          && trades == old(trades) + [BuyTrade(p.entry)]
          && Views(positions) == Put(old(Views(positions)), p)
    {
      hide SizeOrder, Equity, EntryAtr, EntryStopPct, GapDown, Find, Put, InitialStop, Fees.TotalCost, Views, BuyTrade;
      filled := None;
      ghost var desk := Desk(cash, Views(positions), trades, shortCount, coreCount, dayFilled);
      var row := RowOn(tape, order.symbol, day);
      if row.None? {
        return;
      }
      var price := FillPrice(row.value, useClose);
      if price <= 0.0 {
        return;
      }
      if GapDown(order, price, useClose) {
        return;
      }
      var atrPct := EntryAtr(tape, order.symbol, day, useClose);
      var stopPct := EntryStopPct(cfg.exits, order.strategy, atrPct);
      var equity := Equity(tape, cash, Views(positions), day, useClose);
      var sized := SizeOrder(cfg, cash, Views(positions), dayFilled, order.strategy, price, equity, stopPct);
      if sized.None? {
        return;
      }
      var entry := NewEntry(order, day, price, sized.value, stopPct, atrPct);
      var asof := if useClose then day else day - 1;
      var pos := new BTPosition(entry, if useClose then row.value.high else price,
                                InitialStop(price, stopPct), Some(tape.regime(asof)));
      assert Opening(cfg, tape, day, useClose, desk, order) == Some(pos.View());
      assert Views(positions) == desk.positions;
      cash := cash - entry.costBasis;
      PutPosition(pos);
      trades := trades + [BuyTrade(entry)];
      filled := Some(entry.costBasis);
    }

    /** Settle the day's actions of one position: cash, log, loss lock. */
    method SettleActions(pos: BTPosition, day: int, actions: seq<Action>)
      modifies this`cash, this`trades, this`dailyLossLocked
      ensures Till(cash, trades, dailyLossLocked)
           == Settle(old(Till(cash, trades, dailyLossLocked)), pos.View(), day, actions)
    {
      ghost var start := Till(cash, trades, dailyLossLocked);
      assert actions[..0] == [];
      for i := 0 to |actions|
        invariant Till(cash, trades, dailyLossLocked) == Settle(start, pos.View(), day, actions[..i])
        invariant pos.View() == old(pos.View())
      {
        hide Fees.NetPnl, Fees.NetPnlPct;
        var a := actions[i];
        assert actions[..i + 1][..i] == actions[..i];
        if a.qty > 0 {
          var t := SellTrade(pos.entry, pos.holdingDays, day, a);
          cash := cash + (t.amount - t.fee);
          trades := trades + [t];
          dailyLossLocked := dailyLossLocked || t.pnl < 0.0;
        }
      }
      assert actions[..|actions|] == actions;
    }

    /** The body of the exit loop for one position. */
    method ExitOne(pos: BTPosition, day: int)
      requires exitMgr.rules == cfg.exits
      modifies this`cash, this`trades, this`dailyLossLocked, pos
      ensures var v := ExitVerdict(cfg, tape, day, old(pos.View()));
        && pos.View() == v.pos
        && Till(cash, trades, dailyLossLocked)
           == Settle(old(Till(cash, trades, dailyLossLocked)), v.pos, day, v.actions)
    {
      hide CheckExit;
      CheckExitOfClosed(cfg.exits, pos.View());
      SettleNothing(Till(cash, trades, dailyLossLocked), pos.View(), day);
      if pos.remaining > 0 {
        var row := RowOn(tape, pos.entry.symbol, day);
        if row.Some? {
          var actions := exitMgr.RunCheckExit(pos, row.value, Some(tape.regime(day)));
          SettleActions(pos, day, actions);
        }
      }
    }

    method ExitLoop(day: int)
      requires Valid()
      modifies this`cash, this`trades, this`dailyLossLocked, Owned()
      ensures Views(positions) == ExitedPositions(cfg, tape, day, old(Views(positions)))
      ensures Till(cash, trades, dailyLossLocked)
           == ExitAll(cfg, tape, day, old(Till(cash, trades, dailyLossLocked)), old(Views(positions)))
    {
      hide ExitVerdict, Settle, ExitAll, BTPosition.View;
      ghost var views := Views(positions);
      ghost var start := Till(cash, trades, dailyLossLocked);
      NobodyExited(cfg, tape, day, start);
      assert views[..0] == [];
      for i := 0 to |positions|
        invariant positions == old(positions)
        invariant forall j :: 0 <= j < i ==> positions[j].View() == ExitVerdict(cfg, tape, day, views[j]).pos
        invariant forall j :: i <= j < |positions| ==> positions[j].View() == views[j]
        invariant Till(cash, trades, dailyLossLocked) == ExitAll(cfg, tape, day, start, views[..i])
      {
        NextExited(cfg, tape, day, start, views, i);
        ExitOne(positions[i], day);
      }
      assert views[..|positions|] == views;
    }

    method RunCheckExits(day: int)
      requires Valid()
      modifies this, Owned()
      ensures Valid()
      ensures Owned() <= old(Owned())
      ensures Value() == CheckExits(cfg, tape, day, old(Value()))
    {
      hide ExitAll, ExitedPositions, Alive, BTPosition.View;
      ExitLoop(day);
      RemoveClosed();
    }

    /** Drop the closed positions from the dict. */
    method RemoveClosed()
      requires Valid()
      modifies this`positions
      ensures Valid()
      ensures Owned() <= old(Owned())
      ensures Views(positions) == Alive(old(Views(positions)))
    {
      var all := positions;
      var kept: seq<BTPosition> := [];
      ghost var views := Views(all);
      assert views[..0] == [];
      for i := 0 to |all|
        invariant positions == all && Views(all) == views
        invariant KeptOf(all, kept, i)
        invariant Views(kept) == Alive(views[..i])
      {
        hide Alive, BTPosition.View, Views, Distinct, KeptOf;
        AliveSnoc(views, i);
        ViewsSnoc(kept, all[i]);
        KeptSnoc(all, kept, i);
        if all[i].remaining > 0 {
          kept := kept + [all[i]];
        }
      }
      assert views[..|all|] == views;
      positions := kept;
    }

    method RunGenerateSignals(day: int)
      requires Valid()
      modifies this`pendingBuys
      ensures Valid()
      ensures Value() == GenerateSignals(cfg, universe, tape, day, old(Value()))
    {
      hide SortByScore, MonthStart, CountHeld, ShortSignals, CoreSignals, Pick, Symbols, HeldSymbols;
      ghost var was := Value();
      var views := Views(positions);
      var shortPos := CountHeld(views, false) as real;
      var corePos := CountHeld(views, true);
      var skip := Symbols(pendingBuys) + HeldSymbols(views);
      var added: seq<Order> := [];
      if shortPos < MaxShort(cfg) {
        var signals := CollectShort(day, skip);
        added := PickBest(MaxShort(cfg) - shortPos, SortByScore(signals));
      }
      ghost var shortAdded := added;
      assert shortAdded == ShortPicks(cfg, universe, tape, day, was);
      if cfg.coreOn && corePos < cfg.maxPositionsCore {
        if MonthStart(universe, tape, day) {
          var core := CollectCore(day, skip);
          core := SortByScore(core);
          var avail := cfg.maxPositionsCore - corePos;
          added := added + if |core| <= avail then core else core[..avail];
        }
      }
      assert added == shortAdded + CorePicks(cfg, universe, tape, day, was);
      pendingBuys := pendingBuys + added;
      assert pendingBuys
             == was.pending + ShortPicks(cfg, universe, tape, day, was) + CorePicks(cfg, universe, tape, day, was);
    }

    method CollectShort(day: int, skip: set<string>) returns (signals: seq<Order>)
      ensures signals == ShortSignals(cfg, tape, day, skip, universe.tickers)
    {
      signals := [];
      var tickers := universe.tickers;
      assert tickers[..0] == [];
      for i := 0 to |tickers|
        invariant signals == ShortSignals(cfg, tape, day, skip, tickers[..i])
      {
        hide ShortSignals, ShortSignalsOf, LastBar, Signal;
        ShortSignalsSnoc(cfg, tape, day, skip, tickers, i);
        var ticker := tickers[i];
        ShortSignalsAdd(cfg, tape, day, skip, ticker, signals);
        if ticker !in skip {
          var dated := LastBar(tape, ticker, day);
          if dated.Some? {
            var bar := dated.value.bar;
            if cfg.sepaOn && !tape.regime(day).Bearish? && bar.sepaScore >= cfg.sepaMinScore {
              signals := signals + [Signal(ticker, Sepa, bar.sepaScore, dated.value, day)];
            }
            if cfg.rsi2On && bar.rsi2Score >= cfg.rsi2MinScore {
              signals := signals + [Signal(ticker, Rsi2, bar.rsi2Score, dated.value, day)];
            }
          }
        }
      }
      assert tickers[..|tickers|] == tickers;
    }

    method CollectCore(day: int, skip: set<string>) returns (signals: seq<Order>)
      ensures signals == CoreSignals(cfg, tape, day, skip, universe.tickers)
    {
      signals := [];
      var tickers := universe.tickers;
      assert tickers[..0] == [];
      for i := 0 to |tickers|
        invariant signals == CoreSignals(cfg, tape, day, skip, tickers[..i])
      {
        assert tickers[..i + 1][..i] == tickers[..i];
        var ticker := tickers[i];
        if ticker !in skip {
          var dated := LastBar(tape, ticker, day);
          if dated.Some? && dated.value.bar.coreScore >= cfg.coreMinScore {
            signals := signals + [Signal(ticker, Core, dated.value.bar.coreScore, dated.value, day)];
          }
        }
      }
      assert tickers[..|tickers|] == tickers;
    }

    method PickBest(seats: real, signals: seq<Order>) returns (chosen: seq<Order>)
      ensures chosen == Pick(seats, signals).chosen
    {
      chosen := [];
      var available := seats;
      var seen: set<string> := {};
      assert signals[..0] == [];
      for i := 0 to |signals|
        invariant Pick(seats, signals[..i]) == Picks(chosen, seen, available)
      {
        assert signals[..i + 1][..i] == signals[..i];
        var sig := signals[i];
        if sig.symbol !in seen && available > 0.0 {
          chosen := chosen + [sig];
          seen := seen + {sig.symbol};
          available := available - 1.0;
        }
      }
      assert signals[..|signals|] == signals;
    }

    /** The end of the day: equity and its peak. */
    method RecordDay(day: int)
      requires Valid()
      modifies this`equityCurve, this`peakEquity
      ensures Value() == RecordEquity(tape, day, old(Value()))
    {
      hide Equity, BTPosition.View;
      var equity := Equity(tape, cash, Views(positions), day, true);
      equityCurve := equityCurve + [(day, equity)];
      if equity > peakEquity {
        peakEquity := equity;
      }
    }

    /** From the exits to the end of the day. */
    method RunAfterOpen(day: int) returns (raised: bool)
      requires Valid()
      modifies this, Owned()
      ensures Valid() && fresh(Owned() - old(Owned()))
      ensures raised <==> AfterOpen(cfg, universe, tape, day, old(Value())).None?
      ensures !raised ==> Value() == AfterOpen(cfg, universe, tape, day, old(Value())).value
    {
      hide ExecutePending, CheckExits, GenerateSignals, RecordEquity, Views, BTPosition.View;
      raised := false;
      RunCheckExits(day);
      if !dailyLossLocked {
        RunGenerateSignals(day);
      }
      if !cfg.useT1 {
        raised := ExecutePendingBuys(day, true);
        if raised {
          return;
        }
      }
      RecordDay(day);
    }

    /** One trading day. */
    method RunOneDay(day: int) returns (raised: bool)
      requires Valid()
      modifies this, Owned()
      ensures Valid() && fresh(Owned() - old(Owned()))
      ensures raised <==> RunDay(cfg, universe, tape, day, old(Value())).None?
      ensures !raised ==> Value() == RunDay(cfg, universe, tape, day, old(Value())).value
    {
      hide ExecutePending, AfterOpen, Views, BTPosition.View;
      dailyLossLocked := false;
      assert Value() == old(Value()).(locked := false);
      raised := ExecutePendingBuys(day, false);
      if raised {
        return;
      }
      raised := RunAfterOpen(day);
    }

    /** The body of the liquidation loop for one position. */
    method LiquidateOne(pos: BTPosition, day: int)
      modifies this`cash, this`trades, pos
      ensures var p := old(pos.View());
        && pos.View() == Closed(p)
        && Till(cash, trades, false)
           == old(LiquidateOneTill(tape, day, Till(cash, trades, false), pos.View())).(locked := false)
    {
      hide Fees.NetPnl, Fees.NetPnlPct, CloseMark;
      if pos.remaining > 0 {
        var close := CloseMark(tape, pos.View(), day);
        var t := SellTrade(pos.entry, pos.holdingDays, day, Action(pos.remaining, close, EndOfTest));
        cash := cash + (t.amount - t.fee);
        trades := trades + [t];
        pos.remaining := 0;
      }
    }

    method LiquidateLoop(day: int)
      requires Distinct(positions)
      modifies this`cash, this`trades, Owned()
      ensures Views(positions) == Emptied(old(Views(positions)))
      ensures Till(cash, trades, false)
           == LiquidateTill(tape, day, old(Till(cash, trades, false)), old(Views(positions))).(locked := false)
    {
      hide LiquidateOneTill, LiquidateTill, Closed, BTPosition.View;
      ghost var views := Views(positions);
      ghost var start := Till(cash, trades, false);
      NobodyLiquidated(tape, day, start);
      assert views[..0] == [];
      for i := 0 to |positions|
        invariant positions == old(positions)
        invariant forall j :: 0 <= j < i ==> positions[j].View() == Closed(views[j])
        invariant forall j :: i <= j < |positions| ==> positions[j].View() == views[j]
        invariant Till(cash, trades, false) == LiquidateTill(tape, day, start, views[..i]).(locked := false)
      {
        NextLiquidated(tape, day, start, views, i);
        UnlockedTill(tape, day, LiquidateTill(tape, day, start, views[..i]), views[i]);
        LiquidateOne(positions[i], day);
      }
      assert views[..|positions|] == views;
    }

    method RunCloseAll(day: int)
      requires Valid()
      modifies this, Owned()
      ensures Valid()
      ensures Value() == CloseAll(tape, day, old(Value()))
    {
      hide LiquidateTill, Emptied, BTPosition.View;
      ghost var was := Value();
      UnlockedLiquidation(tape, day, Till(cash, trades, dailyLossLocked), was.positions);
      LiquidateLoop(day);
    }

    /** The day loop and the final liquidation. The analyzer reads the log afterwards. */
    method Run(days: seq<int>) returns (raised: bool)
      requires Valid() && Value() == Start(initial) && positions == []
      requires days != []
      modifies this
      ensures Valid()
      ensures raised <==> RunDays(cfg, universe, tape, initial, days).None?
      ensures !raised ==>
        Value() == CloseAll(tape, days[|days| - 1], RunDays(cfg, universe, tape, initial, days).value)
    {
      hide RunDay, CloseAll;
      assert days[..0] == [];
      var i := 0;
      while i < |days|
        invariant 0 <= i <= |days|
        invariant Valid()
        invariant fresh(Owned())
        invariant RunDays(cfg, universe, tape, initial, days[..i]) == Some(Value())
      {
        assert days[..i + 1][..i] == days[..i];
        if RunDay(cfg, universe, tape, days[i], Value()).None? {
          RunRaises(cfg, universe, tape, initial, days, i + 1);
        }
        raised := RunOneDay(days[i]);
        if raised {
          return;
        }
        i := i + 1;
      }
      assert days[..i] == days;
      RunCloseAll(days[|days| - 1]);
      raised := false;
    }
  }

  lemma NobodyExited(cfg: BacktestConfig, tape: Tape, day: int, till: Till)
    ensures ExitAll(cfg, tape, day, till, []) == till
  {
  }

  lemma NextExited(cfg: BacktestConfig, tape: Tape, day: int, till: Till, positions: seq<Pos>, i: nat)
    requires i < |positions|
    ensures var v := ExitVerdict(cfg, tape, day, positions[i]);
      ExitAll(cfg, tape, day, till, positions[..i + 1])
      == Settle(ExitAll(cfg, tape, day, till, positions[..i]), v.pos, day, v.actions)
  {
    assert positions[..i + 1][..i] == positions[..i];
  }

  lemma NobodyLiquidated(tape: Tape, day: int, till: Till)
    ensures LiquidateTill(tape, day, till, []) == till
  {
  }

  lemma NextLiquidated(tape: Tape, day: int, till: Till, positions: seq<Pos>, i: nat)
    requires i < |positions|
    ensures LiquidateTill(tape, day, till, positions[..i + 1])
            == LiquidateOneTill(tape, day, LiquidateTill(tape, day, till, positions[..i]), positions[i])
  {
    assert positions[..i + 1][..i] == positions[..i];
  }

  /** The loss lock of the till plays no part in what a liquidation pays or logs. */
  lemma UnlockedTill(tape: Tape, day: int, till: Till, p: Pos)
    ensures LiquidateOneTill(tape, day, till.(locked := false), p).(locked := false)
         == LiquidateOneTill(tape, day, till, p).(locked := false)
  {
  }

  lemma {:induction false} UnlockedLiquidation(tape: Tape, day: int, till: Till, positions: seq<Pos>)
    ensures LiquidateTill(tape, day, till.(locked := false), positions).(locked := false)
         == LiquidateTill(tape, day, till, positions).(locked := false)
  {
    if positions != [] {
      hide LiquidateOneTill;
      var init := positions[..|positions| - 1];
      UnlockedLiquidation(tape, day, till, init);
      UnlockedTill(tape, day, LiquidateTill(tape, day, till, init), positions[|positions| - 1]);
      UnlockedTill(tape, day, LiquidateTill(tape, day, till.(locked := false), init), positions[|positions| - 1]);
    }
  }

  lemma CheckExitOfClosed(rules: ExitRules, p: Pos)
    ensures forall bar, regime :: p.remaining <= 0 ==> CheckExit(rules, p, bar, regime) == Verdict(p, [])
  {
  }

  lemma NothingPending(cfg: BacktestConfig, tape: Tape, day: int, useClose: bool, st: State)
    requires st.pending == []
    ensures ExecutePending(cfg, tape, day, useClose, st) == Some(st)
  {
  }

  lemma SettleNothing(till: Till, p: Pos, day: int)
    ensures Settle(till, p, day, []) == till
  {
  }

  /** Once a prefix of the orders has raised, all of them have. */
  lemma {:induction false} PrefixRaises(cfg: BacktestConfig, tape: Tape, day: int, useClose: bool, desk: Desk,
                                        orders: seq<Order>, k: nat)
    requires k <= |orders| && ExecuteOrders(cfg, tape, day, useClose, desk, orders[..k]).None?
    ensures ExecuteOrders(cfg, tape, day, useClose, desk, orders).None?
    decreases |orders| - k
  {
    if k == |orders| {
      assert orders[..k] == orders;
    } else {
      assert orders[..k + 1][..k] == orders[..k];
      PrefixRaises(cfg, tape, day, useClose, desk, orders, k + 1);
    }
  }

  lemma {:induction false} RunRaises(cfg: BacktestConfig, universe: Universe, tape: Tape, initial: real,
                                     days: seq<int>, k: nat)
    requires k <= |days| && RunDays(cfg, universe, tape, initial, days[..k]).None?
    ensures RunDays(cfg, universe, tape, initial, days).None?
    decreases |days| - k
  {
    if k == |days| {
      assert days[..k] == days;
    } else {
      assert days[..k + 1][..k] == days[..k];
      RunRaises(cfg, universe, tape, initial, days, k + 1);
    }
  }
}
