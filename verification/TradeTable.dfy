/** What fills, exits and liquidation write to the log, the loss lock, the course of a day, and what the
    analyzer makes of the log, written from the entries and the bars. */
module TradeTable {
  import opened Basics
  import opened Market
  import opened Config
  import opened Exits
  import opened Engine
  import opened Analyzer
  import opened Sums
  import opened EntryTable
  import Fees

  // ---- log entries ------------------------------------------------------------------------------------------

  ghost predicate IsPurchase(e: Entry, t: Trade) {
    && t.side.Buy? && t.symbol == e.symbol && t.strategy == e.strategy && t.date == e.date
    && t.price == e.price && t.quantity == e.quantity && t.amount == Fees.Amount(e.price, e.quantity)
    && t.fee == t.amount * 0.000140527 && t.reason.EntryFill? && t.pnl == 0.0 && t.pnlPct == 0.0
    && t.holdingDays == 0 && t.stopPct == e.atrStopPct && t.initialRisk == e.initialRisk
  }

  /** The sale of an action: its result is net of both fees, and a percentage of what the shares had cost. */
  ghost predicate IsSale(e: Entry, holdingDays: int, day: int, a: Action, t: Trade) {
    && t.side.Sell? && t.symbol == e.symbol && t.strategy == e.strategy && t.date == day
    && t.price == a.price && t.quantity == a.qty && t.amount == Fees.Amount(a.price, a.qty)
    && t.fee == t.amount * 0.002130527 && t.reason == a.reason && t.holdingDays == holdingDays
    && t.stopPct == 0.0 && t.initialRisk == 0.0
    && t.pnl == t.amount * 0.997869473 - CostOf(e.price, a.qty)
    && (if CostOf(e.price, a.qty) > 0.0 then t.pnlPct * CostOf(e.price, a.qty) == t.pnl * 100.0 else t.pnlPct == 0.0)
  }

  lemma PurchaseIs(e: Entry)
    ensures IsPurchase(e, BuyTrade(e))
  {
  }

  lemma SaleIs(e: Entry, holdingDays: int, day: int, a: Action)
    ensures IsSale(e, holdingDays, day, a, SellTrade(e, holdingDays, day, a))
  {
    CostsAgree(e.price, a.qty);
    hide Fees.Amount;
    var cost := CostOf(e.price, a.qty);
    var pnl := Fees.NetPnl(e.price, a.price, a.qty);
    if cost > 0.0 { assert pnl / cost * cost == pnl; }
  }

  /** What a sale brings in. */
  function Income(t: Trade): real {
    t.amount - t.fee
  }

  // ---- one order ------------------------------------------------------------------------------------------------

  /** What filling `p` does to the desk: the cost is paid, the purchase logged, the position taken in, and
      counted against its slots and its strategy's day. */
  ghost predicate FilledWith(desk: Desk, p: Pos, d: Desk) {
    && d.cash == desk.cash - p.entry.costBasis
    && |d.trades| == |desk.trades| + 1 && d.trades[..|desk.trades|] == desk.trades
    && IsPurchase(p.entry, d.trades[|desk.trades|])
    && d.shortUsed == desk.shortUsed + (if p.entry.strategy.Core? then 0.0 else 1.0)
    && d.coreUsed == desk.coreUsed + (if p.entry.strategy.Core? then 1 else 0)
    && p in d.positions && (forall q :: q in desk.positions && q.entry.symbol != p.entry.symbol ==> q in d.positions)
    && d.filled.Keys == desk.filled.Keys + {p.entry.strategy}
    && d.filled[p.entry.strategy]
       == p.entry.costBasis + (if p.entry.strategy in desk.filled then desk.filled[p.entry.strategy] else 0.0)
    && forall s :: s in desk.filled && s != p.entry.strategy ==> d.filled[s] == desk.filled[s]
  }

  lemma RecordIs(desk: Desk, p: Pos)
    ensures FilledWith(desk, p, RecordFill(desk, p))
  {
    hide BuyTrade, Fees.Amount, Put;
    PurchaseIs(p.entry);
    PutKeeps(desk.positions, p);
  }

  /** An order that finds its slots full or its symbol held is passed over; one that carries a tag of the day or
      later to a fill at the open raises; any other is filled or not, and changes nothing if not. */
  lemma OrderByTable(cfg: BacktestConfig, tape: Tape, day: int, useClose: bool, desk: Desk, order: Order)
    requires forall i, j :: 0 <= i < j < |desk.positions| ==>
               desk.positions[i].entry.symbol != desk.positions[j].entry.symbol
    ensures var after := ExecuteOrder(cfg, tape, day, useClose, desk, order);
            var full := if order.strategy.Core? then desk.coreUsed >= cfg.maxPositionsCore
                        else desk.shortUsed >= MaxShort(cfg);
            var held := exists p :: p in desk.positions && p.entry.symbol == order.symbol && p.remaining > 0;
            var late := (order.signalDate.Some? && order.signalDate.value >= day)
                        || (order.indicatorAsof.Some? && order.indicatorAsof.value >= day);
            if full || held then after == Some(desk)
            else if !useClose && late then after == None
            else
              match Opening(cfg, tape, day, useClose, desk, order)
              case None => after == Some(desk)
              case Some(p) => after.Some? && FilledWith(desk, p, after.value)
  {
    hide Opening, RecordFill, FilledWith;
    var i := Find(desk.positions, order.symbol);
    match Opening(cfg, tape, day, useClose, desk, order)
    case None =>
    case Some(p) => RecordIs(desk, p);
  }

  lemma PutKeeps(positions: seq<Pos>, p: Pos)
    ensures p in Put(positions, p)
    ensures forall q :: q in positions && q.entry.symbol != p.entry.symbol ==> q in Put(positions, p)
  {
    var i := Find(positions, p.entry.symbol);
    var after := Put(positions, p);
    if i >= 0 { assert after[i] == p; } else { assert after[|positions|] == p; }
    forall q | q in positions && q.entry.symbol != p.entry.symbol ensures q in after {
      var j :| 0 <= j < |positions| && positions[j] == q;
      assert after[j] == q;
    }
  }

  // ---- sales ----------------------------------------------------------------------------------------------------

  /** The actions that sell something. */
  function Real(actions: seq<Action>): seq<Action> {
    if actions == [] then []
    else
      var last := actions[|actions| - 1];
      Real(actions[..|actions| - 1]) + if last.qty > 0 then [last] else []
  }

  /** `after` is `before` with more entries: their income is in the cash, and a loss among them locks. */
  ghost predicate Extends(before: Till, after: Till) {
    && |before.trades| <= |after.trades| && after.trades[..|before.trades|] == before.trades
    && after.cash == before.cash + Sum(after.trades[|before.trades|..], (t: Trade) => Income(t))
    && (after.locked <==> before.locked || HasLoss(after.trades[|before.trades|..]))
  }

  ghost predicate HasLoss(trades: seq<Trade>) {
    exists k :: 0 <= k < |trades| && trades[k].pnl < 0.0
  }

  lemma ExtendsItself(till: Till)
    ensures Extends(till, till)
  {
  }

  lemma ExtendsByOne(before: Till, till: Till, t: Trade)
    requires Extends(before, till)
    ensures Extends(before, RecordSale(till, t))
  {
    var n := |before.trades|;
    var after := RecordSale(till, t);
    var added := till.trades[n..];
    assert after.trades[n..] == added + [t];
    assert after.trades[..n] == till.trades[..n];
    SumSnoc(added, t, (x: Trade) => Income(x));
    if HasLoss(added) {
      var k :| 0 <= k < |added| && added[k].pnl < 0.0;
      assert (added + [t])[k].pnl < 0.0;
    }
    if t.pnl < 0.0 { assert (added + [t])[|added|].pnl < 0.0; }
  }

  /** Settling a position's actions logs each sale of something, in order, and nothing else. */
  lemma {:induction false} SettleByTable(till: Till, p: Pos, day: int, actions: seq<Action>)
    ensures var after := Settle(till, p, day, actions);
            && Extends(till, after) && |after.trades| == |till.trades| + |Real(actions)|
            && forall k :: 0 <= k < |Real(actions)| ==>
                 IsSale(p.entry, p.holdingDays, day, Real(actions)[k], after.trades[|till.trades| + k])
    decreases |actions|
  {
    hide SellTrade, IsSale, Extends;
    if actions == [] {
      ExtendsItself(till);
    } else {
      var init, last := actions[..|actions| - 1], actions[|actions| - 1];
      SettleByTable(till, p, day, init);
      var before := Settle(till, p, day, init);
      if last.qty > 0 {
        SaleIs(p.entry, p.holdingDays, day, last);
        ExtendsByOne(till, before, SellTrade(p.entry, p.holdingDays, day, last));
      }
    }
  }

  lemma ExtendsOn(a: Till, b: Till, c: Till)
    requires Extends(a, b) && Extends(b, c)
    ensures Extends(a, c)
  {
    var x, y, z := a.trades, b.trades, c.trades;
    assert z[|x|..] == y[|x|..] + z[|y|..];
    assert z[..|x|] == z[..|y|][..|x|];
    SumConcat(y[|x|..], z[|y|..], (t: Trade) => Income(t));
    LossSomewhere(y[|x|..], z[|y|..]);
  }

  lemma LossSomewhere(a: seq<Trade>, b: seq<Trade>)
    ensures HasLoss(a + b) <==> HasLoss(a) || HasLoss(b)
  {
    if HasLoss(a) {
      var k :| 0 <= k < |a| && a[k].pnl < 0.0;
      assert (a + b)[k].pnl < 0.0;
    }
    if HasLoss(b) {
      var k :| 0 <= k < |b| && b[k].pnl < 0.0;
      assert (a + b)[|a| + k].pnl < 0.0;
    }
  }

  lemma {:induction false} ExitsExtend(cfg: BacktestConfig, tape: Tape, day: int, till: Till, positions: seq<Pos>)
    ensures Extends(till, ExitAll(cfg, tape, day, till, positions))
  {
    hide Extends, Settle, ExitVerdict;
    if positions == [] {
      ExtendsItself(till);
    } else {
      var init := positions[..|positions| - 1];
      ExitsExtend(cfg, tape, day, till, init);
      var v := ExitVerdict(cfg, tape, day, positions[|positions| - 1]);
      var before := ExitAll(cfg, tape, day, till, init);
      SettleByTable(before, v.pos, day, v.actions);
      ExtendsOn(till, before, Settle(before, v.pos, day, v.actions));
    }
  }

  // ---- the course of a day --------------------------------------------------------------------------------------

  /** The entries a day's exits have added to the log. */
  function SalesOfTheDay(cfg: BacktestConfig, tape: Tape, day: int, morning: State): seq<Trade>
    requires |morning.trades| <= |CheckExits(cfg, tape, day, morning).trades|
  {
    CheckExits(cfg, tape, day, morning).trades[|morning.trades|..]
  }

  /** A day: yesterday's orders at the open with the lock lifted; then the exits, whose income is paid in; then,
      unless one of them was a loss, the day's signals; for a same-day run their fills at the close; and the
      equity at the close, with its peak. */
  lemma DayByTable(cfg: BacktestConfig, universe: Universe, tape: Tape, day: int, st: State)
    ensures match ExecutePending(cfg, tape, day, false, st.(locked := false))
            case None => RunDay(cfg, universe, tape, day, st) == None
            case Some(morning) =>
              && var exited := CheckExits(cfg, tape, day, morning);
              && |morning.trades| <= |exited.trades| && exited.trades[..|morning.trades|] == morning.trades
              && var sales := SalesOfTheDay(cfg, tape, day, morning);
              && exited.cash == morning.cash + Sum(sales, (t: Trade) => Income(t))
              && var pending := if HasLoss(sales) then morning.pending
                                else morning.pending + ShortPicks(cfg, universe, tape, day, exited)
                                     + CorePicks(cfg, universe, tape, day, exited);
              && var signalled := exited.(pending := pending);
              match if cfg.useT1 then Some(signalled) else ExecutePending(cfg, tape, day, true, signalled)
              case None => RunDay(cfg, universe, tape, day, st) == None
              case Some(evening) =>
                var equity := Equity(tape, evening.cash, evening.positions, day, true);
                RunDay(cfg, universe, tape, day, st)
                == Some(evening.(equityCurve := evening.equityCurve + [(day, equity)],
                                 peak := Max(evening.peak, equity)))
    ensures match ExecutePending(cfg, tape, day, false, st.(locked := false))
            case None => true
            case Some(morning) => morning.pending == [] && !morning.locked
  {
    hide Extends, ExecuteOrders, SortByScore, ShortPicks, CorePicks, Equity, ShortUsage, CountHeld, ExitAll;
    match ExecutePending(cfg, tape, day, false, st.(locked := false))
    case None =>
    case Some(morning) =>
      var till := Till(morning.cash, morning.trades, morning.locked);
      ExitsExtend(cfg, tape, day, till, morning.positions);
      ExtendsMeans(till, ExitAll(cfg, tape, day, till, morning.positions));
  }

  lemma ExtendsMeans(before: Till, after: Till)
    requires Extends(before, after)
    ensures |before.trades| <= |after.trades| && after.trades[..|before.trades|] == before.trades
    ensures after.cash == before.cash + Sum(after.trades[|before.trades|..], (t: Trade) => Income(t))
    ensures after.locked <==> before.locked || HasLoss(after.trades[|before.trades|..])
  {
  }

  // ---- liquidation ------------------------------------------------------------------------------------------------

  /** The positions with shares left. */
  function Held(positions: seq<Pos>): seq<Pos> {
    if positions == [] then []
    else
      var last := positions[|positions| - 1];
      Held(positions[..|positions| - 1]) + if last.remaining > 0 then [last] else []
  }

  /** The last sale of a position: all of it, at its mark. */
  function LastSale(tape: Tape, day: int, p: Pos): Action {
    Action(p.remaining, Mark(tape, p, day, true), EndOfTest)
  }

  lemma {:induction false} LiquidationByTable(tape: Tape, day: int, till: Till, positions: seq<Pos>)
    ensures var after := LiquidateTill(tape, day, till, positions);
            && Extends(till, after) && |after.trades| == |till.trades| + |Held(positions)|
            && forall k :: 0 <= k < |Held(positions)| ==>
                 IsSale(Held(positions)[k].entry, Held(positions)[k].holdingDays, day,
                        LastSale(tape, day, Held(positions)[k]), after.trades[|till.trades| + k])
  {
    hide SellTrade, IsSale, Extends, CloseMark;
    if positions == [] {
      ExtendsItself(till);
    } else {
      var init, last := positions[..|positions| - 1], positions[|positions| - 1];
      LiquidationByTable(tape, day, till, init);
      if last.remaining > 0 {
        SaleIs(last.entry, last.holdingDays, day, LastSale(tape, day, last));
        ExtendsByOne(till, LiquidateTill(tape, day, till, init),
                     SellTrade(last.entry, last.holdingDays, day, LastSale(tape, day, last)));
      }
    }
  }

  /** Liquidation sells every position with shares left, whole, in order, at its mark of the close, and leaves none
      with shares. */
  lemma CloseAllByTable(tape: Tape, day: int, st: State)
    ensures var end := CloseAll(tape, day, st); var held := Held(st.positions);
            && |end.trades| == |st.trades| + |held| && end.trades[..|st.trades|] == st.trades
            && end.cash == st.cash + Sum(end.trades[|st.trades|..], (t: Trade) => Income(t))
            && (forall k :: 0 <= k < |held| ==>
                  IsSale(held[k].entry, held[k].holdingDays, day, LastSale(tape, day, held[k]),
                         end.trades[|st.trades| + k]))
            && |end.positions| == |st.positions|
            && (forall i :: 0 <= i < |end.positions| ==>
                  end.positions[i] == st.positions[i].(remaining := end.positions[i].remaining)
                  && end.positions[i].remaining <= 0)
            && end.pending == st.pending && end.equityCurve == st.equityCurve
  {
    hide Extends, IsSale, LiquidateTill, Held, Emptied, Sum;
    var till := Till(st.cash, st.trades, st.locked);
    LiquidationByTable(tape, day, till, st.positions);
    ExtendsMeans(till, LiquidateTill(tape, day, till, st.positions));
    NoneHeld(st.positions);
  }

  lemma NoneHeld(positions: seq<Pos>)
    ensures |Emptied(positions)| == |positions|
    ensures forall i :: 0 <= i < |positions| ==>
              Emptied(positions)[i] == positions[i].(remaining := Emptied(positions)[i].remaining)
              && Emptied(positions)[i].remaining <= 0
  {
  }

  // ---- round trips ------------------------------------------------------------------------------------------------

  /** The sales of a symbol among the entries `from` to `until - 1`. */
  function SalesIn(trades: seq<Trade>, symbol: string, from: nat, until: nat): seq<Trade>
    requires until <= |trades|
    decreases until
  {
    if until <= from then []
    else
      var last := trades[until - 1];
      SalesIn(trades, symbol, from, until - 1) + if last.side.Sell? && last.symbol == symbol then [last] else []
  }

  function Shares(sales: seq<Trade>): int {
    if sales == [] then 0 else Shares(sales[..|sales| - 1]) + sales[|sales| - 1].quantity
  }

  function Reasons(sales: seq<Trade>): seq<Reason> {
    if sales == [] then [] else Reasons(sales[..|sales| - 1]) + [sales[|sales| - 1].reason]
  }

  /** A line of the ledger: a purchase and the sales set off against it so far. */
  ghost predicate Collects(o: OpenTrip, buy: Trade, sales: seq<Trade>) {
    && o.symbol == buy.symbol && o.strategy == buy.strategy && o.entryDate == buy.date && o.entryPrice == buy.price
    && o.quantity == buy.quantity && o.stopPct == buy.stopPct && o.initialRisk == buy.initialRisk
    && o.cost == buy.amount + buy.fee
    && o.sold == Shares(sales) && o.proceeds == Sum(sales, (t: Trade) => Income(t))
    && o.fees == buy.fee + Sum(sales, (t: Trade) => t.fee)
    && o.notional == buy.amount + Sum(sales, (t: Trade) => t.amount)
    && o.reasons == Reasons(sales)
    && o.exitDate == (if sales == [] then buy.date else sales[|sales| - 1].date)
    && o.holdingDays == (if sales == [] then 0 else sales[|sales| - 1].holdingDays)
  }

  /** The result of a trip: absolute, in per cent of the cost, and in units of the initial risk, or of the stop
      where no risk was recorded. */
  ghost predicate Concludes(r: RoundTrip) {
    && r.pnl == r.trip.proceeds - r.trip.cost
    && (if r.trip.cost > 0.0 then r.pnlPct * r.trip.cost == r.pnl * 100.0 else r.pnlPct == 0.0)
    && (if r.trip.initialRisk > 0.0 then r.r * r.trip.initialRisk == r.pnl
        else if r.trip.stopPct > 0.0 then r.r * r.trip.stopPct == r.pnlPct else r.r == 0.0)
  }

  /** No purchase of the symbol among the entries `from` to `until - 1`. */
  ghost predicate NoPurchase(trades: seq<Trade>, symbol: string, from: nat, until: nat)
    requires until <= |trades|
  {
    forall k :: from <= k < until ==> !(trades[k].side.Buy? && trades[k].symbol == symbol)
  }

  /** The trip of the purchase at `b`, closed by the sale at `e`: all sales of the symbol in between and no
      other purchase of it; only the last takes it to the quantity bought. */
  ghost predicate TripOf(trades: seq<Trade>, b: nat, e: nat, r: RoundTrip) {
    && b < e < |trades| && trades[b].side.Buy? && trades[e].side.Sell? && trades[e].symbol == trades[b].symbol
    && NoPurchase(trades, trades[b].symbol, b + 1, e + 1)
    && Collects(r.trip, trades[b], SalesIn(trades, trades[b].symbol, b + 1, e + 1))
    && r.trip.sold >= r.trip.quantity && Concludes(r)
  }

  ghost predicate HasTrip(trades: seq<Trade>, r: RoundTrip) {
    exists b: nat, e: nat :: TripOf(trades, b, e, r)
  }

  /** The open line of the purchase at `b`. */
  ghost predicate OpenFrom(trades: seq<Trade>, b: nat, o: OpenTrip) {
    && b < |trades| && trades[b].side.Buy? && NoPurchase(trades, trades[b].symbol, b + 1, |trades|)
    && Collects(o, trades[b], SalesIn(trades, trades[b].symbol, b + 1, |trades|))
  }

  ghost predicate HasPurchase(trades: seq<Trade>, o: OpenTrip) {
    exists b: nat :: OpenFrom(trades, b, o)
  }

  lemma {:induction false} SalesInPrefix(trades: seq<Trade>, t: Trade, symbol: string, from: nat, until: nat)
    requires until <= |trades|
    ensures SalesIn(trades + [t], symbol, from, until) == SalesIn(trades, symbol, from, until)
    decreases until
  {
    if until > from { SalesInPrefix(trades, t, symbol, from, until - 1); }
  }

  lemma SalesSnoc(sales: seq<Trade>, t: Trade)
    ensures Shares(sales + [t]) == Shares(sales) + t.quantity && Reasons(sales + [t]) == Reasons(sales) + [t.reason]
    ensures Sum(sales + [t], (x: Trade) => Income(x)) == Sum(sales, (x: Trade) => Income(x)) + Income(t)
    ensures Sum(sales + [t], (x: Trade) => x.fee) == Sum(sales, (x: Trade) => x.fee) + t.fee
    ensures Sum(sales + [t], (x: Trade) => x.amount) == Sum(sales, (x: Trade) => x.amount) + t.amount
  {
    assert (sales + [t])[..|sales|] == sales;
    SumSnoc(sales, t, (x: Trade) => Income(x));
    SumSnoc(sales, t, (x: Trade) => x.fee);
    SumSnoc(sales, t, (x: Trade) => x.amount);
  }

  lemma AddCollects(o: OpenTrip, buy: Trade, sales: seq<Trade>, t: Trade)
    requires Collects(o, buy, sales)
    ensures Collects(AddSale(o, t), buy, sales + [t])
  {
    hide Sum, Shares, Reasons;
    SalesSnoc(sales, t);
  }

  lemma NewCollects(buy: Trade)
    ensures Collects(OpenOf(buy), buy, [])
  {
  }

  lemma CloseConcludes(o: OpenTrip)
    ensures Concludes(CloseTrip(o)) && CloseTrip(o).trip == o
  {
    var pnl := o.proceeds - o.cost;
    if o.cost > 0.0 { assert pnl / o.cost * o.cost == pnl; }
    var pct := if o.cost > 0.0 then pnl / o.cost * 100.0 else 0.0;
    if o.initialRisk > 0.0 { assert pnl / o.initialRisk * o.initialRisk == pnl; }
    else if o.stopPct > 0.0 { assert pct / o.stopPct * o.stopPct == pct; }
  }

  /** What a further entry adds to a symbol's sales, and that it is no purchase unless it is one. */
  lemma EntryExtends(trades: seq<Trade>, t: Trade, symbol: string, from: nat)
    requires from <= |trades| && !(t.side.Buy? && t.symbol == symbol)
    ensures SalesIn(trades + [t], symbol, from, |trades| + 1)
            == if t.side.Sell? && t.symbol == symbol then SalesIn(trades, symbol, from, |trades|) + [t]
               else SalesIn(trades, symbol, from, |trades|)
    ensures NoPurchase(trades, symbol, from, |trades|) ==> NoPurchase(trades + [t], symbol, from, |trades| + 1)
  {
    SalesInPrefix(trades, t, symbol, from, |trades|);
  }

  lemma TripStays(trades: seq<Trade>, t: Trade, r: RoundTrip)
    requires HasTrip(trades, r)
    ensures HasTrip(trades + [t], r)
  {
    hide Collects, Concludes;
    var b: nat, e: nat :| TripOf(trades, b, e, r);
    SalesInPrefix(trades, t, trades[b].symbol, b + 1, e + 1);
    assert TripOf(trades + [t], b, e, r);
  }

  /** Another symbol's entry leaves an open line as it is. */
  lemma OpenStays(trades: seq<Trade>, t: Trade, o: OpenTrip)
    requires HasPurchase(trades, o) && t.symbol != o.symbol
    ensures HasPurchase(trades + [t], o)
  {
    var b: nat :| OpenFrom(trades, b, o);
    CollectsSymbol(trades, b, o);
    hide Collects, SalesIn, NoPurchase;
    EntryExtends(trades, t, o.symbol, b + 1);
    assert OpenFrom(trades + [t], b, o);
  }

  lemma PurchaseOpens(trades: seq<Trade>, t: Trade)
    requires t.side.Buy?
    ensures HasPurchase(trades + [t], OpenOf(t))
  {
    hide Collects;
    NewCollects(t);
    assert SalesIn(trades + [t], t.symbol, |trades| + 1, |trades| + 1) == [];
    assert OpenFrom(trades + [t], |trades|, OpenOf(t));
  }

  /** A sale goes to the open line of its symbol, and closes it once the quantity is reached. */
  lemma SaleFeeds(trades: seq<Trade>, t: Trade, o: OpenTrip)
    requires HasPurchase(trades, o) && t.side.Sell? && t.symbol == o.symbol
    ensures HasPurchase(trades + [t], AddSale(o, t))
    ensures AddSale(o, t).sold >= o.quantity ==> HasTrip(trades + [t], CloseTrip(AddSale(o, t)))
  {
    var b: nat :| OpenFrom(trades, b, o);
    CollectsSymbol(trades, b, o);
    hide Collects, Concludes, CloseTrip, AddSale, SalesIn, NoPurchase;
    EntryExtends(trades, t, o.symbol, b + 1);
    AddCollects(o, trades[b], SalesIn(trades, o.symbol, b + 1, |trades|), t);
    CloseConcludes(AddSale(o, t));
    assert OpenFrom(trades + [t], b, AddSale(o, t));
    AddKeepsQuantity(o, t);
    if AddSale(o, t).sold >= o.quantity { assert TripOf(trades + [t], b, |trades|, CloseTrip(AddSale(o, t))); }
  }

  lemma CollectsSymbol(trades: seq<Trade>, b: nat, o: OpenTrip)
    requires OpenFrom(trades, b, o)
    ensures trades[b].symbol == o.symbol
  {
  }

  lemma AddKeepsQuantity(o: OpenTrip, t: Trade)
    ensures AddSale(o, t).quantity == o.quantity
  {
  }

  ghost predicate LedgerIs(trades: seq<Trade>, ledger: Ledger) {
    && (forall i, j :: 0 <= i < j < |ledger.open| ==> ledger.open[i].symbol != ledger.open[j].symbol)
    && (forall o :: o in ledger.open ==> HasPurchase(trades, o))
    && (forall r :: r in ledger.out ==> HasTrip(trades, r))
  }

  lemma PostKeepsLedger(trades: seq<Trade>, ledger: Ledger, t: Trade)
    requires LedgerIs(trades, ledger)
    ensures LedgerIs(trades + [t], Post(ledger, t))
  {
    hide HasPurchase, HasTrip, OpenOf, CloseTrip;
    var after := Post(ledger, t);
    var i := FindTrip(ledger.open, t.symbol);
    forall r | r in after.out ensures HasTrip(trades + [t], r) {
      if r in ledger.out { TripStays(trades, t, r); }
      else { SaleFeeds(trades, t, ledger.open[i]); }
    }
    forall o | o in after.open ensures HasPurchase(trades + [t], o) {
      if o in ledger.open && o.symbol != t.symbol { OpenStays(trades, t, o); }
      else if t.side.Buy? { PurchaseOpens(trades, t); OpensItsSymbol(t); }
      else { SaleFeeds(trades, t, ledger.open[i]); }
    }
    OpensItsSymbol(t);
  }

  lemma OpensItsSymbol(t: Trade)
    ensures OpenOf(t).symbol == t.symbol
  {
  }

  /** Every round trip the analyzer reports is that of one purchase: all sales of its symbol up to the one that
      reaches the quantity bought, with cost, proceeds, fees and reasons of exactly those entries. */
  lemma {:induction false} TripsByTable(trades: seq<Trade>)
    ensures LedgerIs(trades, Analyze(trades))
  {
    hide HasPurchase, HasTrip;
    if trades != [] {
      hide Post, LedgerIs, Analyze;
      var init, last := trades[..|trades| - 1], trades[|trades| - 1];
      TripsByTable(init);
      assert trades == init + [last];
      AnalyzeSnoc(init, last);
      PostKeepsLedger(init, Analyze(init), last);
    }
  }
}
