/** The daily backtest engine as a function of its state: pending orders filled at the open,
    exits, signals, the close of the day, and the final liquidation. */
module Engine {
  import opened Basics
  import opened Market
  import opened Config
  import opened Exits
  import ExitFacts
  import Fees

  datatype Side = Buy | Sell

  datatype Trade = Trade(side: Side, symbol: string, strategy: Strategy, date: int, price: real,
                         quantity: int, amount: real, fee: real, reason: Reason, pnl: real,
                         pnlPct: real, holdingDays: int, stopPct: real, initialRisk: real)

  datatype Order = Order(symbol: string, strategy: Strategy, score: real, signalClose: Option<real>,
                         signalDate: Option<int>, indicatorAsof: Option<int>)

  /** The universe and the calendar: fixed data of a run. */
  datatype Universe = Universe(tickers: seq<string>, dayOfMonth: int -> int, monthOf: int -> int)

  /** `positions` is a Python dict keyed by symbol: a sequence in insertion order. */
  datatype State = State(cash: real, positions: seq<Pos>, trades: seq<Trade>, pending: seq<Order>,
                         locked: bool, equityCurve: seq<(int, real)>, peak: real)

  // ---- positions ------------------------------------------------------------------------------

  function Find(positions: seq<Pos>, symbol: string): (i: int)
    ensures -1 <= i < |positions|
    ensures i >= 0 ==> positions[i].entry.symbol == symbol
    ensures i < 0 ==> forall j :: 0 <= j < |positions| ==> positions[j].entry.symbol != symbol
  {
    if positions == [] then -1
    else if positions[|positions| - 1].entry.symbol == symbol then |positions| - 1
    else Find(positions[..|positions| - 1], symbol)
  }

  predicate Holding(positions: seq<Pos>, symbol: string) {
    var i := Find(positions, symbol);
    i >= 0 && positions[i].remaining > 0
  }

  /** Dict assignment: an existing key keeps its place. */
  function Put(positions: seq<Pos>, p: Pos): seq<Pos> {
    var i := Find(positions, p.entry.symbol);
    if i >= 0 then positions[i := p] else positions + [p]
  }

  function Alive(positions: seq<Pos>): seq<Pos> {
    if positions == [] then []
    else
      var last := positions[|positions| - 1];
      Alive(positions[..|positions| - 1]) + if last.remaining > 0 then [last] else []
  }

  /** What one position occupies of the short-term slots. */
  function Slot(cfg: BacktestConfig, p: Pos): real {
    if p.entry.strategy.Core? || p.remaining <= 0 then 0.0
    else if cfg.slotPolicy.LiveWeighted? then
      ExitFacts.SlotWeight(p.remaining, p.entry.quantity, p.stage)
    else 1.0
  }

  /** _short_slot_usage. */
  function ShortUsage(cfg: BacktestConfig, positions: seq<Pos>): real {
    if positions == [] then 0.0
    else ShortUsage(cfg, positions[..|positions| - 1]) + Slot(cfg, positions[|positions| - 1])
  }

  function CountHeld(positions: seq<Pos>, core: bool): int {
    if positions == [] then 0
    else
      var last := positions[|positions| - 1];
      CountHeld(positions[..|positions| - 1], core)
      + if last.entry.strategy.Core? == core && last.remaining > 0 then 1 else 0
  }

  /** Exposure at cost of one strategy: cost basis scaled to what is left. */
  function HeldAtCost(positions: seq<Pos>, strategy: Strategy): real {
    if positions == [] then 0.0
    else
      var last := positions[|positions| - 1];
      var orig := if last.entry.quantity >= 1 then last.entry.quantity else 1;
      HeldAtCost(positions[..|positions| - 1], strategy)
      + if last.entry.strategy == strategy && last.remaining > 0
        then last.entry.costBasis * last.remaining as real / orig as real else 0.0
  }

  // ---- valuation ------------------------------------------------------------------------------

  /** At the open: today's open, or the last close before today. */
  function OpenMark(tape: Tape, p: Pos, day: int): real {
    match RowOn(tape, p.entry.symbol, day)
    case Some(bar) => if bar.open > 0.0 then bar.open else PriorMark(tape, p, day)
    case None => PriorMark(tape, p, day)
  }

  function PriorMark(tape: Tape, p: Pos, day: int): real {
    match LastBarBefore(tape, p.entry.symbol, day)
    case Some(dated) => dated.bar.close
    case None => p.entry.price
  }

  /** At the close: the last close up to today. */
  function CloseMark(tape: Tape, p: Pos, day: int): real {
    match LastBar(tape, p.entry.symbol, day)
    case Some(dated) => dated.bar.close
    case None => p.entry.price
  }

  function Mark(tape: Tape, p: Pos, day: int, atClose: bool): real {
    if atClose then CloseMark(tape, p, day) else OpenMark(tape, p, day)
  }

  /** _calc_equity. */
  function Equity(tape: Tape, cash: real, positions: seq<Pos>, day: int, atClose: bool): real {
    if positions == [] then cash
    else
      var last := positions[|positions| - 1];
      Equity(tape, cash, positions[..|positions| - 1], day, atClose)
      + if last.remaining > 0 then Mark(tape, last, day, atClose) * last.remaining as real else 0.0
  }

  // ---- entry sizing ---------------------------------------------------------------------------

  function EntryAtr(tape: Tape, symbol: string, day: int, includeDay: bool): Option<real> {
    match if includeDay then LastBar(tape, symbol, day) else LastBarBefore(tape, symbol, day)
    case None => None
    case Some(dated) =>
      if dated.bar.atrPct.Some? && dated.bar.atrPct.value > 0.0 then dated.bar.atrPct else None
  }

  function EntryStopPct(rules: ExitRules, strategy: Strategy, atrPct: Option<real>): real {
    if rules.entryStopMode.LivePolicy? then
      match strategy
      case Sepa => rules.sepaStopLossPct
      case Rsi2 => rules.rsi2StopLossPct
      case Core => rules.coreStopLossPct
    else if atrPct.None? then 5.0
    else Max(rules.minStopPct, Min(rules.maxStopPct, atrPct.value * rules.atrMultiplier))
  }

  function Allocation(cfg: BacktestConfig, strategy: Strategy, default: real): real {
    if strategy in cfg.allocation then cfg.allocation[strategy] else default
  }

  function Reserve(cfg: BacktestConfig, equity: real): real {
    equity * cfg.minCashReservePct / 100.0
  }

  /** The cost at which the stop loses the risk of one trade. */
  function RiskValue(cfg: BacktestConfig, equity: real, stopPct: real): real
    requires stopPct > 0.0
  {
    equity * cfg.riskPerTradePct / stopPct
  }

  /** _calc_position_size. */
  function PositionSize(cfg: BacktestConfig, cash: real, equity: real, strategy: Strategy, stopPct: real): real {
    var available := Max(0.0, cash - Reserve(cfg, equity));
    if strategy.Core? then
      var seats := if cfg.maxPositionsCore >= 1 then cfg.maxPositionsCore else 1;
      Min(equity * Allocation(cfg, Core, 0.30) / seats as real, available)
    else if cfg.sizing.Risk? && stopPct > 0.0 then
      Min(RiskValue(cfg, equity, stopPct),
          Min(equity * cfg.riskMaxPositionPct / 100.0, available))
    else
      Min(equity * cfg.basePositionPct / 100.0,
          Min(equity * cfg.maxPositionPct / 100.0, available))
  }

  function FilledToday(filled: map<Strategy, real>, strategy: Strategy): real {
    if strategy in filled then filled[strategy] else 0.0
  }

  /** _strategy_budget_remaining. */
  function BudgetRemaining(cfg: BacktestConfig, positions: seq<Pos>, strategy: Strategy, equity: real,
                           filled: map<Strategy, real>): real {
    var pct := Allocation(cfg, strategy, 0.0);
    if pct <= 0.0 then 0.0
    else equity * pct - HeldAtCost(positions, strategy) - FilledToday(filled, strategy)
  }

  /** The risk-mode cap, which only ever shrinks the order. */
  function RiskCapped(cfg: BacktestConfig, strategy: Strategy, equity: real, price: real, stopPct: real,
                      wanted: int): Option<int> {
    if cfg.sizing.Risk? && !strategy.Core? && stopPct > 0.0 then
      var cap := Fees.RiskQuantityCap(equity, price, stopPct, cfg.riskPerTradePct);
      var quantity := if cap < wanted then cap else wanted;
      if quantity <= 0 || Fees.Amount(price, quantity) < cfg.minPositionValue then None else Some(quantity)
    else Some(wanted)
  }

  /** Shrink to what the cash can pay, keeping one percent back. */
  function CashCapped(cash: real, price: real, quantity: int): int
    requires price > 0.0
  {
    if Fees.TotalCost(price, quantity) > cash
    then Trunc((cash * 0.99) / (price * (1.0 + Fees.BUY_FEE_RATE)))
    else quantity
  }

  /** How many shares an order gets, if any: position size, budget, minimum, risk, cash, reserve. */
  function SizeOrder(cfg: BacktestConfig, cash: real, positions: seq<Pos>, filled: map<Strategy, real>,
                     strategy: Strategy, price: real, equity: real, stopPct: real): Option<int>
    requires price > 0.0
  {
    var budgeted := cfg.budgetCap && !strategy.Core?;
    var left := BudgetRemaining(cfg, positions, strategy, equity, filled);
    var size := PositionSize(cfg, cash, equity, strategy, stopPct);
    var value := if budgeted then Min(size, left) else size;
    if budgeted && left <= 0.0 then None
    else if value < cfg.minPositionValue then None
    else
      var wanted := Trunc(value / price);
      if wanted <= 0 then None
      else
        match RiskCapped(cfg, strategy, equity, price, stopPct, wanted)
        case None => None
        case Some(capped) =>
          var quantity := CashCapped(cash, price, capped);
          if quantity <= 0 then None
          else if cash - Fees.TotalCost(price, quantity) < Reserve(cfg, equity) then None
          else Some(quantity)
  }

  // ---- filling pending orders -----------------------------------------------------------------

  /** The loop state of _execute_pending_buys. */
  datatype Desk = Desk(cash: real, positions: seq<Pos>, trades: seq<Trade>, shortUsed: real,
                       coreUsed: int, filled: map<Strategy, real>)

  predicate SlotsFull(cfg: BacktestConfig, desk: Desk, strategy: Strategy) {
    if strategy.Core? then desk.coreUsed >= cfg.maxPositionsCore else desk.shortUsed >= MaxShort(cfg)
  }

  /** A tag that does not lie before the fill day. */
  predicate NotBefore(tag: Option<int>, day: int) {
    tag.Some? && tag.value >= day
  }

  predicate GapDown(order: Order, price: real, useClose: bool) {
    var prior := if order.signalClose.Some? then order.signalClose.value else price;
    prior > 0.0 && !useClose && (price - prior) / prior * 100.0 < -3.5
  }

  function FillPrice(bar: Bar, useClose: bool): real {
    if useClose then bar.close else bar.open
  }

  function NewEntry(order: Order, day: int, price: real, quantity: int, stopPct: real, atrPct: Option<real>): Entry {
    var cost := Fees.TotalCost(price, quantity);
    Entry(order.symbol, order.strategy, day, price, quantity, cost, stopPct,
          if atrPct.Some? then atrPct.value else 0.0, cost * stopPct / 100.0)
  }

  function InitialStop(price: real, stopPct: real): real {
    price * (1.0 - stopPct / 100.0)
  }

  function NewPosition(tape: Tape, order: Order, day: int, useClose: bool, bar: Bar, entry: Entry): Pos {
    OpenedPos(entry, if useClose then bar.high else entry.price,
              InitialStop(entry.price, entry.atrStopPct),
              Some(tape.regime(if useClose then day else day - 1)))
  }

  function BuyTrade(entry: Entry): Trade {
    var amount := Fees.Amount(entry.price, entry.quantity);
    Trade(Buy, entry.symbol, entry.strategy, entry.date, entry.price, entry.quantity, amount,
          Fees.BuyFee(amount), EntryFill, 0.0, 0.0, 0, entry.atrStopPct, entry.initialRisk)
  }

  function RecordFill(desk: Desk, p: Pos): Desk {
    Desk(desk.cash - p.entry.costBasis, Put(desk.positions, p), desk.trades + [BuyTrade(p.entry)],
         if p.entry.strategy.Core? then desk.shortUsed else desk.shortUsed + 1.0,
         if p.entry.strategy.Core? then desk.coreUsed + 1 else desk.coreUsed,
         desk.filled[p.entry.strategy := FilledToday(desk.filled, p.entry.strategy) + p.entry.costBasis])
  }

  /** The position an admitted order opens, if it is filled at all. */
  function Opening(cfg: BacktestConfig, tape: Tape, day: int, useClose: bool, desk: Desk, order: Order): Option<Pos> {
    match RowOn(tape, order.symbol, day)
    case None => None
    case Some(bar) =>
      var price := FillPrice(bar, useClose);
      if price <= 0.0 || GapDown(order, price, useClose) then None
      else
        var atrPct := EntryAtr(tape, order.symbol, day, useClose);
        var stopPct := EntryStopPct(cfg.exits, order.strategy, atrPct);
        var equity := Equity(tape, desk.cash, desk.positions, day, useClose);
        match SizeOrder(cfg, desk.cash, desk.positions, desk.filled, order.strategy, price, equity, stopPct)
        case None => None
        case Some(quantity) =>
          Some(NewPosition(tape, order, day, useClose, bar,
                           NewEntry(order, day, price, quantity, stopPct, atrPct)))
  }

  predicate Untimely(day: int, useClose: bool, order: Order) {
    !useClose && (NotBefore(order.signalDate, day) || NotBefore(order.indicatorAsof, day))
  }

  predicate Skipped(cfg: BacktestConfig, desk: Desk, order: Order) {
    SlotsFull(cfg, desk, order.strategy) || Holding(desk.positions, order.symbol)
  }

  /** One order of the loop. `None` is the ValueError of the information-time check. */
  function ExecuteOrder(cfg: BacktestConfig, tape: Tape, day: int, useClose: bool, desk: Desk,
                        order: Order): Option<Desk> {
    if Skipped(cfg, desk, order) then Some(desk)
    else if Untimely(day, useClose, order) then None
    else
      match Opening(cfg, tape, day, useClose, desk, order)
      case None => Some(desk)
      case Some(p) => Some(RecordFill(desk, p))
  }

  function ExecuteOrders(cfg: BacktestConfig, tape: Tape, day: int, useClose: bool, desk: Desk,
                         orders: seq<Order>): Option<Desk> {
    if orders == [] then Some(desk)
    else
      match ExecuteOrders(cfg, tape, day, useClose, desk, orders[..|orders| - 1])
      case None => None
      case Some(d) => ExecuteOrder(cfg, tape, day, useClose, d, orders[|orders| - 1])
  }

  /** sorted(key=score, reverse=True) is stable: a later order goes after its equals. */
  function InsertByScore(sorted: seq<Order>, order: Order): seq<Order> {
    if sorted == [] then [order]
    else
      var last := sorted[|sorted| - 1];
      if last.score >= order.score then sorted + [order]
      else InsertByScore(sorted[..|sorted| - 1], order) + [last]
  }

  function SortByScore(orders: seq<Order>): seq<Order> {
    if orders == [] then []
    else InsertByScore(SortByScore(orders[..|orders| - 1]), orders[|orders| - 1])
  }

  function OpeningDesk(cfg: BacktestConfig, st: State): Desk {
    Desk(st.cash, st.positions, st.trades, ShortUsage(cfg, st.positions),
         CountHeld(st.positions, true), map[])
  }

  function AfterDesk(st: State, desk: Desk): State {
    st.(cash := desk.cash, positions := desk.positions, trades := desk.trades, pending := [])
  }

  /** _execute_pending_buys. */
  function ExecutePending(cfg: BacktestConfig, tape: Tape, day: int, useClose: bool, st: State): Option<State> {
    match ExecuteOrders(cfg, tape, day, useClose, OpeningDesk(cfg, st), SortByScore(st.pending))
    case None => None
    case Some(desk) => Some(AfterDesk(st, desk))
  }

  // ---- exits ----------------------------------------------------------------------------------

  /** What selling writes: cash, the log, and the day's loss lock. */
  datatype Till = Till(cash: real, trades: seq<Trade>, locked: bool)

  function SellTrade(entry: Entry, holdingDays: int, day: int, a: Action): Trade {
    var amount := Fees.Amount(a.price, a.qty);
    Trade(Sell, entry.symbol, entry.strategy, day, a.price, a.qty, amount, Fees.SellFee(amount), a.reason,
          Fees.NetPnl(entry.price, a.price, a.qty), Fees.NetPnlPct(entry.price, a.price, a.qty),
          holdingDays, 0.0, 0.0)
  }

  function RecordSale(till: Till, t: Trade): Till {
    Till(till.cash + (t.amount - t.fee), till.trades + [t], till.locked || t.pnl < 0.0)
  }

  /** Zero-quantity actions are dropped here. */
  function SettleAction(till: Till, p: Pos, day: int, a: Action): Till {
    if a.qty <= 0 then till else RecordSale(till, SellTrade(p.entry, p.holdingDays, day, a))
  }

  function Settle(till: Till, p: Pos, day: int, actions: seq<Action>): Till {
    if actions == [] then till
    else SettleAction(Settle(till, p, day, actions[..|actions| - 1]), p, day, actions[|actions| - 1])
  }

  /** What the day's bar does to one position; a position without a bar is left alone. */
  function ExitVerdict(cfg: BacktestConfig, tape: Tape, day: int, p: Pos): Verdict {
    match RowOn(tape, p.entry.symbol, day)
    case None => Verdict(p, [])
    case Some(bar) => CheckExit(cfg.exits, p, bar, Some(tape.regime(day)))
  }

  function ExitAll(cfg: BacktestConfig, tape: Tape, day: int, till: Till, positions: seq<Pos>): Till {
    if positions == [] then till
    else
      var v := ExitVerdict(cfg, tape, day, positions[|positions| - 1]);
      Settle(ExitAll(cfg, tape, day, till, positions[..|positions| - 1]), v.pos, day, v.actions)
  }

  function ExitedPositions(cfg: BacktestConfig, tape: Tape, day: int, positions: seq<Pos>): (r: seq<Pos>)
    ensures |r| == |positions|
    ensures forall i :: 0 <= i < |r| ==> r[i] == ExitVerdict(cfg, tape, day, positions[i]).pos
  {
    seq(|positions|, i requires 0 <= i < |positions| => ExitVerdict(cfg, tape, day, positions[i]).pos)
  }

  /** _check_exits. */
  function CheckExits(cfg: BacktestConfig, tape: Tape, day: int, st: State): State {
    var till := ExitAll(cfg, tape, day, Till(st.cash, st.trades, st.locked), st.positions);
    st.(cash := till.cash, trades := till.trades, locked := till.locked,
        positions := Alive(ExitedPositions(cfg, tape, day, st.positions)))
  }

  // ---- signals --------------------------------------------------------------------------------

  function Symbols(orders: seq<Order>): set<string> {
    set o | o in orders :: o.symbol
  }

  function HeldSymbols(positions: seq<Pos>): set<string> {
    set p | p in positions && p.remaining > 0 :: p.entry.symbol
  }

  function Signal(ticker: string, strategy: Strategy, score: real, dated: DatedBar, day: int): Order {
    Order(ticker, strategy, score, Some(dated.bar.close), Some(day), Some(dated.day))
  }

  function ShortSignalsOf(cfg: BacktestConfig, tape: Tape, day: int, skip: set<string>, ticker: string): seq<Order> {
    if ticker in skip then []
    else
      match LastBar(tape, ticker, day)
      case None => []
      case Some(dated) =>
        (if cfg.sepaOn && !tape.regime(day).Bearish? && dated.bar.sepaScore >= cfg.sepaMinScore
         then [Signal(ticker, Sepa, dated.bar.sepaScore, dated, day)] else [])
        + (if cfg.rsi2On && dated.bar.rsi2Score >= cfg.rsi2MinScore
           then [Signal(ticker, Rsi2, dated.bar.rsi2Score, dated, day)] else [])
  }

  function ShortSignals(cfg: BacktestConfig, tape: Tape, day: int, skip: set<string>,
                        tickers: seq<string>): seq<Order> {
    if tickers == [] then []
    else ShortSignals(cfg, tape, day, skip, tickers[..|tickers| - 1])
         + ShortSignalsOf(cfg, tape, day, skip, tickers[|tickers| - 1])
  }

  function CoreSignalsOf(cfg: BacktestConfig, tape: Tape, day: int, skip: set<string>, ticker: string): seq<Order> {
    if ticker in skip then []
    else
      match LastBar(tape, ticker, day)
      case None => []
      case Some(dated) =>
        if dated.bar.coreScore >= cfg.coreMinScore then [Signal(ticker, Core, dated.bar.coreScore, dated, day)] else []
  }

  function CoreSignals(cfg: BacktestConfig, tape: Tape, day: int, skip: set<string>, tickers: seq<string>): seq<Order> {
    if tickers == [] then []
    else CoreSignals(cfg, tape, day, skip, tickers[..|tickers| - 1])
         + CoreSignalsOf(cfg, tape, day, skip, tickers[|tickers| - 1])
  }

  /** The selection loop: best first, one order per symbol, while seats are left. */
  datatype Picks = Picks(chosen: seq<Order>, seen: set<string>, available: real)

  function PickOne(picks: Picks, sig: Order): Picks {
    if sig.symbol !in picks.seen && picks.available > 0.0
    then Picks(picks.chosen + [sig], picks.seen + {sig.symbol}, picks.available - 1.0)
    else picks
  }

  function Pick(available: real, signals: seq<Order>): Picks {
    if signals == [] then Picks([], {}, available)
    else PickOne(Pick(available, signals[..|signals| - 1]), signals[|signals| - 1])
  }

  predicate MonthStart(universe: Universe, tape: Tape, day: int) {
    if universe.dayOfMonth(day) > 5 then false
    else if universe.tickers != [] && LastBarBefore(tape, universe.tickers[0], day).Some? then
      universe.monthOf(LastBarBefore(tape, universe.tickers[0], day).value.day) != universe.monthOf(day)
    else universe.dayOfMonth(day) <= 3
  }

  function ShortPicks(cfg: BacktestConfig, universe: Universe, tape: Tape, day: int, st: State): seq<Order> {
    var held := CountHeld(st.positions, false) as real;
    if held < MaxShort(cfg) then
      var skip := Symbols(st.pending) + HeldSymbols(st.positions);
      Pick(MaxShort(cfg) - held, SortByScore(ShortSignals(cfg, tape, day, skip, universe.tickers))).chosen
    else []
  }

  function CorePicks(cfg: BacktestConfig, universe: Universe, tape: Tape, day: int, st: State): seq<Order> {
    var seats := cfg.maxPositionsCore - CountHeld(st.positions, true);
    if cfg.coreOn && seats > 0 && MonthStart(universe, tape, day) then
      var skip := Symbols(st.pending) + HeldSymbols(st.positions);
      var sorted := SortByScore(CoreSignals(cfg, tape, day, skip, universe.tickers));
      if |sorted| <= seats then sorted else sorted[..seats]
    else []
  }

  /** _generate_signals. */
  function GenerateSignals(cfg: BacktestConfig, universe: Universe, tape: Tape, day: int, st: State): State {
    st.(pending := st.pending + ShortPicks(cfg, universe, tape, day, st) + CorePicks(cfg, universe, tape, day, st))
  }

  // ---- the day loop ---------------------------------------------------------------------------

  function RecordEquity(tape: Tape, day: int, st: State): State {
    var equity := Equity(tape, st.cash, st.positions, day, true);
    st.(equityCurve := st.equityCurve + [(day, equity)], peak := if equity > st.peak then equity else st.peak)
  }

  /** From the fills of the morning to the equity of the evening. */
  function AfterOpen(cfg: BacktestConfig, universe: Universe, tape: Tape, day: int, st: State): Option<State> {
    var exited := CheckExits(cfg, tape, day, st);
    var signalled := if exited.locked then exited else GenerateSignals(cfg, universe, tape, day, exited);
    match if cfg.useT1 then Some(signalled) else ExecutePending(cfg, tape, day, true, signalled)
    case None => None
    case Some(s) => Some(RecordEquity(tape, day, s))
  }

  /** The morning: the loss lock is lifted and yesterday's orders are filled at the open. */
  function Morning(cfg: BacktestConfig, tape: Tape, day: int, st: State): Option<State> {
    ExecutePending(cfg, tape, day, false, st.(locked := false))
  }

  function RunDay(cfg: BacktestConfig, universe: Universe, tape: Tape, day: int, st: State): Option<State> {
    match Morning(cfg, tape, day, st)
    case None => None
    case Some(s) => AfterOpen(cfg, universe, tape, day, s)
  }

  function Start(initial: real): State {
    State(initial, [], [], [], false, [], initial)
  }

  /** The state after a list of trading days. */
  function RunDays(cfg: BacktestConfig, universe: Universe, tape: Tape, initial: real, days: seq<int>): Option<State> {
    if days == [] then Some(Start(initial))
    else
      match RunDays(cfg, universe, tape, initial, days[..|days| - 1])
      case None => None
      case Some(st) => RunDay(cfg, universe, tape, days[|days| - 1], st)
  }

  // ---- final liquidation ----------------------------------------------------------------------

  function LiquidateOneTill(tape: Tape, day: int, till: Till, p: Pos): Till {
    if p.remaining <= 0 then till
    else RecordSale(till, SellTrade(p.entry, p.holdingDays, day,
                                    Action(p.remaining, CloseMark(tape, p, day), EndOfTest)))
  }

  function LiquidateTill(tape: Tape, day: int, till: Till, positions: seq<Pos>): Till {
    if positions == [] then till
    else LiquidateOneTill(tape, day, LiquidateTill(tape, day, till, positions[..|positions| - 1]),
                          positions[|positions| - 1])
  }

  function Closed(p: Pos): Pos {
    if p.remaining > 0 then p.(remaining := 0) else p
  }

  function Emptied(positions: seq<Pos>): (r: seq<Pos>)
    ensures |r| == |positions|
    ensures forall i :: 0 <= i < |r| ==> r[i] == Closed(positions[i])
  {
    seq(|positions|, i requires 0 <= i < |positions| => Closed(positions[i]))
  }

  /** _close_all. The loss lock is not touched. */
  function CloseAll(tape: Tape, day: int, st: State): State {
    var till := LiquidateTill(tape, day, Till(st.cash, st.trades, st.locked), st.positions);
    st.(cash := till.cash, trades := till.trades, positions := Emptied(st.positions))
  }
}
