/** The books of a backtest balance: the cash account, the position book and the trade log are
    written by three different methods and read back by the analyzer, and they always agree. */
module Books {
  import opened Config
  import opened Exits
  import opened Engine
  import opened Analyzer
  import opened Sums
  import Fees

  // ---- what the log says ----------------------------------------------------------------------

  function FlowOf(t: Trade): real {
    match t.side
    case Buy => -(t.amount + t.fee)
    case Sell => t.amount - t.fee
  }

  function SalePnlOf(t: Trade): real {
    match t.side
    case Buy => 0.0
    case Sell => t.pnl
  }

  /** Σ SELL(amount − fee) − Σ BUY(amount + fee). */
  function CashFlow(trades: seq<Trade>): real {
    Sum(trades, FlowOf)
  }

  function SellEventPnl(trades: seq<Trade>): real {
    Sum(trades, SalePnlOf)
  }

  function SharesOf(symbol: string): Trade -> real {
    (t: Trade) => if t.symbol != symbol then 0.0 else if t.side.Buy? then t.quantity as real else -(t.quantity as real)
  }

  /** Bought minus sold shares of a symbol. */
  function NetShares(trades: seq<Trade>, symbol: string): real {
    Sum(trades, SharesOf(symbol))
  }

  /** What identifies a purchase. */
  datatype Purchase = Purchase(symbol: string, strategy: Strategy, date: int, price: real, quantity: int, cost: real)

  function PurchaseOf(t: Trade): Purchase {
    Purchase(t.symbol, t.strategy, t.date, t.price, t.quantity, t.amount + t.fee)
  }

  function Purchases(trades: seq<Trade>): multiset<Purchase> {
    if trades == [] then multiset{}
    else
      var t := trades[|trades| - 1];
      Purchases(trades[..|trades| - 1]) + if t.side.Buy? then multiset{PurchaseOf(t)} else multiset{}
  }

  // ---- what the analyzer says -----------------------------------------------------------------

  function PnlOf(r: RoundTrip): real {
    r.pnl
  }

  function OpenFlowOf(o: OpenTrip): real {
    o.proceeds - o.cost
  }

  function BookedOf(o: OpenTrip): real {
    o.proceeds - Fees.TotalCost(o.entryPrice, o.sold)
  }

  /** Shares of a symbol an open trip has not sold yet. */
  function UnsoldOf(symbol: string): OpenTrip -> real {
    (o: OpenTrip) => if o.symbol == symbol then (o.quantity - o.sold) as real else 0.0
  }

  function TripPurchase(o: OpenTrip): Purchase {
    Purchase(o.symbol, o.strategy, o.entryDate, o.entryPrice, o.quantity, o.cost)
  }

  function OpenPurchases(open: seq<OpenTrip>): multiset<Purchase> {
    if open == [] then multiset{}
    else OpenPurchases(open[..|open| - 1]) + multiset{TripPurchase(open[|open| - 1])}
  }

  function TripPurchases(out: seq<RoundTrip>): multiset<Purchase> {
    if out == [] then multiset{}
    else TripPurchases(out[..|out| - 1]) + multiset{TripPurchase(out[|out| - 1].trip)}
  }

  // ---- the invariant --------------------------------------------------------------------------

  ghost predicate UniqueSymbols(positions: seq<Pos>) {
    forall i, j :: 0 <= i < j < |positions| ==> positions[i].entry.symbol != positions[j].entry.symbol
  }

  /** A position and its line in the analyzer describe the same holding. */
  ghost predicate Mirrors(p: Pos, o: OpenTrip) {
    && o.symbol == p.entry.symbol && o.strategy == p.entry.strategy && o.entryDate == p.entry.date
    && o.entryPrice == p.entry.price && o.quantity == p.entry.quantity
    && o.cost == p.entry.costBasis == Fees.TotalCost(p.entry.price, p.entry.quantity)
    && 0 < p.remaining <= p.entry.quantity
    && o.sold == p.entry.quantity - p.remaining
  }

  ghost predicate MirrorAll(positions: seq<Pos>, open: seq<OpenTrip>) {
    |positions| == |open| && forall i :: 0 <= i < |open| ==> Mirrors(positions[i], open[i])
  }

  ghost predicate Reflects(positions: seq<Pos>, open: seq<OpenTrip>) {
    UniqueSymbols(positions) && MirrorAll(positions, open)
  }

  /** The money the log moved is the profit of finished trips plus what open trips still owe. */
  ghost predicate MoneyTies(trades: seq<Trade>, ledger: Ledger) {
    && CashFlow(trades) == Sum(ledger.out, PnlOf) + Sum(ledger.open, OpenFlowOf)
    && SellEventPnl(trades) == Sum(ledger.out, PnlOf) + Sum(ledger.open, BookedOf)
  }

  /** Every purchase in the log is one trip, finished or open, and there are no other trips. */
  ghost predicate PurchasesTie(trades: seq<Trade>, ledger: Ledger) {
    Purchases(trades) == TripPurchases(ledger.out) + OpenPurchases(ledger.open)
  }

  /** What was bought and not sold is what the open trips have left, symbol by symbol. */
  ghost predicate SharesTie(trades: seq<Trade>, ledger: Ledger) {
    forall symbol :: NetShares(trades, symbol) == Sum(ledger.open, UnsoldOf(symbol))
  }

  ghost predicate TripsDone(out: seq<RoundTrip>) {
    forall r :: r in out ==> r.trip.sold == r.trip.quantity && r.pnl == r.trip.proceeds - r.trip.cost
  }

  /** Cash, live positions and log agree with each other and with the analyzer's reading. */
  ghost predicate Balanced(initial: real, cash: real, positions: seq<Pos>, trades: seq<Trade>) {
    var ledger := Analyze(trades);
    && cash == initial + CashFlow(trades)
    && Reflects(positions, ledger.open)
    && MoneyTies(trades, ledger)
    && PurchasesTie(trades, ledger)
    && SharesTie(trades, ledger)
    && TripsDone(ledger.out)
  }

  // ---- bookkeeping lemmas ---------------------------------------------------------------------

  lemma {:induction false} OpenPurchasesConcat(a: seq<OpenTrip>, b: seq<OpenTrip>)
    ensures OpenPurchases(a + b) == OpenPurchases(a) + OpenPurchases(b)
  {
    if b == [] {
      assert a + b == a;
    } else {
      var init := b[..|b| - 1];
      assert (a + b)[..|a + b| - 1] == a + init;
      OpenPurchasesConcat(a, init);
    }
  }

  lemma OpenPurchasesSplit(a: seq<OpenTrip>, x: OpenTrip, b: seq<OpenTrip>)
    ensures OpenPurchases(a + [x] + b) == OpenPurchases(a) + multiset{TripPurchase(x)} + OpenPurchases(b)
  {
    OpenPurchasesConcat(a + [x], b);
    assert (a + [x])[..|a|] == a;
  }

  lemma LogSnoc(trades: seq<Trade>, t: Trade)
    ensures CashFlow(trades + [t]) == CashFlow(trades) + FlowOf(t)
    ensures SellEventPnl(trades + [t]) == SellEventPnl(trades) + SalePnlOf(t)
    ensures Purchases(trades + [t]) == Purchases(trades) + if t.side.Buy? then multiset{PurchaseOf(t)} else multiset{}
    ensures Analyze(trades + [t]) == Post(Analyze(trades), t)
  {
    SumSnoc(trades, t, FlowOf);
    SumSnoc(trades, t, SalePnlOf);
    AnalyzeSnoc(trades, t);
    assert (trades + [t])[..|trades|] == trades;
  }

  // ---- what one log entry does to each part of the balance -------------------------------------

  lemma CostOfBuy(entry: Entry)
    ensures BuyTrade(entry).amount + BuyTrade(entry).fee == Fees.TotalCost(entry.price, entry.quantity)
  {
  }

  lemma NothingSoldYet(o: OpenTrip)
    requires o.sold == 0 && o.proceeds == 0.0
    ensures BookedOf(o) == 0.0
  {
  }

  lemma OpeningShares(trades: seq<Trade>, t: Trade, ledger: Ledger)
    requires t.side.Buy? && SharesTie(trades, ledger)
    ensures SharesTie(trades + [t], ledger.(open := ledger.open + [OpenOf(t)]))
  {
    hide Sum;
    forall symbol
      ensures NetShares(trades + [t], symbol) == Sum(ledger.open + [OpenOf(t)], UnsoldOf(symbol))
    {
      assert NetShares(trades, symbol) == Sum(ledger.open, UnsoldOf(symbol));
      SumSnoc(trades, t, SharesOf(symbol));
      SumSnoc(ledger.open, OpenOf(t), UnsoldOf(symbol));
    }
  }

  /** A sale of a trip's symbol lowers what the trip has left by what was sold. */
  lemma SaleShares(trades: seq<Trade>, t: Trade, head: seq<OpenTrip>, o: OpenTrip, tail: seq<OpenTrip>,
                   out: seq<RoundTrip>)
    requires t.side.Sell? && t.symbol == o.symbol
    requires SharesTie(trades, Ledger(head + [o] + tail, out))
    ensures forall out' :: SharesTie(trades + [t], Ledger(head + [AddSale(o, t)] + tail, out'))
    ensures AddSale(o, t).sold == o.quantity ==> forall out' :: SharesTie(trades + [t], Ledger(head + tail, out'))
  {
    hide Sum;
    forall symbol
      ensures NetShares(trades + [t], symbol) == Sum(head + [AddSale(o, t)] + tail, UnsoldOf(symbol))
      ensures AddSale(o, t).sold == o.quantity ==> NetShares(trades + [t], symbol) == Sum(head + tail, UnsoldOf(symbol))
    {
      assert NetShares(trades, symbol) == Sum(head + [o] + tail, UnsoldOf(symbol));
      SumSnoc(trades, t, SharesOf(symbol));
      SumSplit(head, o, tail, UnsoldOf(symbol));
      SumSplit(head, AddSale(o, t), tail, UnsoldOf(symbol));
      SumConcat(head, tail, UnsoldOf(symbol));
    }
  }

  lemma OpeningTies(trades: seq<Trade>, t: Trade, ledger: Ledger)
    requires t.side.Buy? && MoneyTies(trades, ledger) && PurchasesTie(trades, ledger)
    ensures MoneyTies(trades + [t], ledger.(open := ledger.open + [OpenOf(t)]))
    ensures PurchasesTie(trades + [t], ledger.(open := ledger.open + [OpenOf(t)]))
  {
    hide Fees.TotalCost, Analyze;
    var o := OpenOf(t);
    LogSnoc(trades, t);
    SumSnoc(ledger.open, o, OpenFlowOf);
    SumSnoc(ledger.open, o, BookedOf);
    NothingSoldYet(o);
    assert (ledger.open + [o])[..|ledger.open|] == ledger.open;
    assert TripPurchase(o) == PurchaseOf(t);
  }

  /** A sale books exactly the profit of the shares it sells. */
  ghost predicate Books(o: OpenTrip, t: Trade) {
    && OpenFlowOf(AddSale(o, t)) == OpenFlowOf(o) + FlowOf(t)
    && BookedOf(AddSale(o, t)) == BookedOf(o) + SalePnlOf(t)
    && TripPurchase(AddSale(o, t)) == TripPurchase(o)
  }

  lemma SaleBooks(p: Pos, o: OpenTrip, holdingDays: int, day: int, a: Action)
    requires Mirrors(p, o)
    ensures Books(o, SellTrade(p.entry, holdingDays, day, a))
  {
    hide Fees.TotalCost;
    Fees.TotalCostAdds(o.entryPrice, o.sold, a.qty);
  }

  lemma PartialTies(trades: seq<Trade>, t: Trade, head: seq<OpenTrip>, o: OpenTrip, tail: seq<OpenTrip>,
                    out: seq<RoundTrip>)
    requires t.side.Sell? && Books(o, t)
    requires MoneyTies(trades, Ledger(head + [o] + tail, out)) && PurchasesTie(trades, Ledger(head + [o] + tail, out))
    ensures MoneyTies(trades + [t], Ledger(head + [AddSale(o, t)] + tail, out))
    ensures PurchasesTie(trades + [t], Ledger(head + [AddSale(o, t)] + tail, out))
  {
    hide Fees.TotalCost, Analyze, AddSale, OpenFlowOf, BookedOf, Purchases, OpenPurchases, TripPurchases, Sum;
    var sold := AddSale(o, t);
    LogSnoc(trades, t);
    SumSplit(head, o, tail, OpenFlowOf);
    SumSplit(head, o, tail, BookedOf);
    OpenPurchasesSplit(head, o, tail);
    SumSplit(head, sold, tail, OpenFlowOf);
    SumSplit(head, sold, tail, BookedOf);
    OpenPurchasesSplit(head, sold, tail);
  }

  lemma ClosingTies(trades: seq<Trade>, t: Trade, head: seq<OpenTrip>, o: OpenTrip, tail: seq<OpenTrip>,
                    out: seq<RoundTrip>)
    requires t.side.Sell? && Books(o, t) && AddSale(o, t).sold == o.quantity
    requires o.cost == Fees.TotalCost(o.entryPrice, o.quantity)
    requires MoneyTies(trades, Ledger(head + [o] + tail, out)) && PurchasesTie(trades, Ledger(head + [o] + tail, out))
    ensures MoneyTies(trades + [t], Ledger(head + tail, out + [CloseTrip(AddSale(o, t))]))
    ensures PurchasesTie(trades + [t], Ledger(head + tail, out + [CloseTrip(AddSale(o, t))]))
  {
    hide Fees.TotalCost, Analyze, Purchases, OpenPurchases, Sum;
    var sold := AddSale(o, t);
    var r := CloseTrip(sold);
    assert BookedOf(sold) == OpenFlowOf(sold) == PnlOf(r);
    LogSnoc(trades, t);
    SumSplit(head, o, tail, OpenFlowOf);
    SumSplit(head, o, tail, BookedOf);
    SumConcat(head, tail, OpenFlowOf);
    SumConcat(head, tail, BookedOf);
    SumSnoc(out, r, PnlOf);
    OpenPurchasesSplit(head, o, tail);
    OpenPurchasesConcat(head, tail);
    assert (out + [r])[..|out|] == out;
  }

  // ---- the mirror -----------------------------------------------------------------------------

  /** The analyzer finds the trip of a position at the position's own index. */
  lemma TripIndex(positions: seq<Pos>, open: seq<OpenTrip>, k: nat)
    requires Reflects(positions, open) && k < |positions|
    ensures FindTrip(open, positions[k].entry.symbol) == k
  {
    var i := FindTrip(open, positions[k].entry.symbol);
    assert Mirrors(positions[k], open[k]);
    assert i >= 0;
    assert Mirrors(positions[i], open[i]);
  }

  lemma AddMirrors(positions: seq<Pos>, open: seq<OpenTrip>, p: Pos, o: OpenTrip)
    requires Reflects(positions, open) && Mirrors(p, o)
    requires forall i :: 0 <= i < |positions| ==> positions[i].entry.symbol != p.entry.symbol
    ensures Reflects(positions + [p], open + [o])
  {
    hide Mirrors;
  }

  lemma RestMirrors(before: seq<Pos>, p: Pos, after: seq<Pos>, head: seq<OpenTrip>, o: OpenTrip, tail: seq<OpenTrip>,
                    p': Pos, o': OpenTrip)
    requires |before| == |head| && Reflects(before + [p] + after, head + [o] + tail)
    requires Mirrors(p', o') && p'.entry == p.entry
    ensures Reflects(before + [p'] + after, head + [o'] + tail)
  {
    hide Mirrors;
    var old_, new_ := before + [p] + after, before + [p'] + after;
    var oldO, newO := head + [o] + tail, head + [o'] + tail;
    assert |after| == |tail|;
    forall i | 0 <= i < |new_|
      ensures Mirrors(new_[i], newO[i])
    {
      assert Mirrors(old_[i], oldO[i]);
      assert i != |before| ==> new_[i] == old_[i] && newO[i] == oldO[i];
    }
    forall i, j | 0 <= i < j < |new_|
      ensures new_[i].entry.symbol != new_[j].entry.symbol
    {
      assert old_[i].entry.symbol != old_[j].entry.symbol;
      assert new_[i].entry == old_[i].entry && new_[j].entry == old_[j].entry;
    }
  }

  lemma DropMirrors(before: seq<Pos>, p: Pos, after: seq<Pos>, head: seq<OpenTrip>, o: OpenTrip, tail: seq<OpenTrip>)
    requires |before| == |head| && Reflects(before + [p] + after, head + [o] + tail)
    ensures Reflects(before + after, head + tail)
  {
    hide Mirrors;
    var old_, new_ := before + [p] + after, before + after;
    var oldO, newO := head + [o] + tail, head + tail;
    assert |after| == |tail|;
    forall i | 0 <= i < |new_|
      ensures Mirrors(new_[i], newO[i])
    {
      var j := if i < |before| then i else i + 1;
      assert Mirrors(old_[j], oldO[j]);
      assert new_[i] == old_[j] && newO[i] == oldO[j];
    }
    forall i, j | 0 <= i < j < |new_|
      ensures new_[i].entry.symbol != new_[j].entry.symbol
    {
      var i', j' := if i < |before| then i else i + 1, if j < |before| then j else j + 1;
      assert new_[i] == old_[i'] && new_[j] == old_[j'];
    }
  }

  // ---- one purchase, one sale -----------------------------------------------------------------

  /** A purchase of a symbol not held keeps the books balanced. */
  lemma BuyKeepsBalance(initial: real, cash: real, positions: seq<Pos>, trades: seq<Trade>, p: Pos)
    requires Balanced(initial, cash, positions, trades)
    requires Find(positions, p.entry.symbol) < 0
    requires p.remaining == p.entry.quantity > 0
    requires p.entry.costBasis == Fees.TotalCost(p.entry.price, p.entry.quantity)
    ensures Balanced(initial, cash - p.entry.costBasis, positions + [p], trades + [BuyTrade(p.entry)])
  {
    hide Fees.TotalCost, MoneyTies, PurchasesTie, SharesTie, TripsDone, Purchases, CashFlow, SellEventPnl, Post,
         Reflects, BuyTrade,
         OpenOf, Find;
    var t := BuyTrade(p.entry);
    var ledger := Analyze(trades);
    LogSnoc(trades, t);
    CostOfBuy(p.entry);
    PostBuy(positions, ledger, p);
    OpeningTies(trades, t, ledger);
    OpeningShares(trades, t, ledger);
  }

  lemma PostBuy(positions: seq<Pos>, ledger: Ledger, p: Pos)
    requires Reflects(positions, ledger.open) && Find(positions, p.entry.symbol) < 0
    requires p.remaining == p.entry.quantity > 0
    requires p.entry.costBasis == Fees.TotalCost(p.entry.price, p.entry.quantity)
    ensures var t := BuyTrade(p.entry);
      && Post(ledger, t) == ledger.(open := ledger.open + [OpenOf(t)])
      && Reflects(positions + [p], ledger.open + [OpenOf(t)])
      && t.side.Buy? && FlowOf(t) == -p.entry.costBasis
  {
    hide Fees.TotalCost;
    var t := BuyTrade(p.entry);
    CostOfBuy(p.entry);
    assert forall i :: 0 <= i < |positions| ==> Mirrors(positions[i], ledger.open[i]);
    assert FindTrip(ledger.open, t.symbol) < 0;
    AddMirrors(positions, ledger.open, p, OpenOf(t));
  }

  /** What is left of a position once `r` shares remain. */
  function Left(p: Pos, r: int): seq<Pos> {
    if r > 0 then [p.(remaining := r)] else []
  }

  /** A sale of at most what is left keeps the books balanced; the analyzer closes the round
      trip exactly when nothing is left. */
  lemma SaleKeepsBalance(initial: real, cash: real, before: seq<Pos>, p: Pos, after: seq<Pos>,
                         trades: seq<Trade>, holdingDays: int, day: int, a: Action)
    requires Balanced(initial, cash, before + [p] + after, trades)
    requires 0 < a.qty <= p.remaining
    ensures var t := SellTrade(p.entry, holdingDays, day, a);
      Balanced(initial, cash + (t.amount - t.fee), before + Left(p, p.remaining - a.qty) + after, trades + [t])
  {
    hide Fees.TotalCost, SellTrade, MoneyTies, SharesTie, PurchasesTie, Reflects, CashFlow, SellEventPnl, Books,
         Post, Purchases, AddSale, TripsDone;
    var all := before + [p] + after;
    var t := SellTrade(p.entry, holdingDays, day, a);
    SellFields(p.entry, holdingDays, day, a);
    var ledger := Analyze(trades);
    var k := |before|;
    LogSnoc(trades, t);
    var o := TripOf(all, ledger.open, k);
    assert all[k] == p;
    SaleBooks(p, o, holdingDays, day, a);
    var head, tail := ledger.open[..k], ledger.open[k + 1..];
    assert ledger.open == head + [o] + tail;
    PostSale(ledger, t, head, o, tail);
    SaleShares(trades, t, head, o, tail, ledger.out);
    if p.remaining > a.qty {
      PartialTies(trades, t, head, o, tail, ledger.out);
      RestMirrors(before, p, after, head, o, tail, p.(remaining := p.remaining - a.qty), AddSale(o, t));
    } else {
      ClosingTies(trades, t, head, o, tail, ledger.out);
      DropMirrors(before, p, after, head, o, tail);
      DoneSnoc(ledger.out, AddSale(o, t));
      assert before + [] + after == before + after;
    }
  }

  lemma SellFields(entry: Entry, holdingDays: int, day: int, a: Action)
    ensures var t := SellTrade(entry, holdingDays, day, a);
      && t.side.Sell? && t.symbol == entry.symbol && t.quantity == a.qty && FlowOf(t) == t.amount - t.fee
  {
  }

  lemma DoneSnoc(out: seq<RoundTrip>, o: OpenTrip)
    requires TripsDone(out) && o.sold == o.quantity
    ensures TripsDone(out + [CloseTrip(o)])
  {
  }

  /** What the analyzer does with a sale of the trip in the middle. */
  lemma PostSale(ledger: Ledger, t: Trade, head: seq<OpenTrip>, o: OpenTrip, tail: seq<OpenTrip>)
    requires t.side.Sell? && ledger.open == head + [o] + tail && FindTrip(ledger.open, t.symbol) == |head|
    ensures AddSale(o, t).sold == o.sold + t.quantity && AddSale(o, t).quantity == o.quantity
    ensures AddSale(o, t) == o.(sold := o.sold + t.quantity, proceeds := AddSale(o, t).proceeds,
      fees := AddSale(o, t).fees, notional := AddSale(o, t).notional, exitDate := t.date,
      holdingDays := t.holdingDays, reasons := o.reasons + [t.reason])
    ensures Post(ledger, t) == if o.sold + t.quantity >= o.quantity
      then Ledger(head + tail, ledger.out + [CloseTrip(AddSale(o, t))])
      else Ledger(head + [AddSale(o, t)] + tail, ledger.out)
  {
    hide CloseTrip;
    assert ledger.open[|head|] == o;
    assert Without(ledger.open, |head|) == head + tail;
    assert ledger.open[|head| := AddSale(o, t)] == head + [AddSale(o, t)] + tail;
  }

  lemma TripOf(positions: seq<Pos>, open: seq<OpenTrip>, k: nat) returns (o: OpenTrip)
    requires Reflects(positions, open) && k < |positions|
    ensures |open| == |positions| && o == open[k] && Mirrors(positions[k], o)
    ensures FindTrip(open, positions[k].entry.symbol) == k
  {
    TripIndex(positions, open, k);
    o := open[k];
  }

  // ---- shares per symbol ----------------------------------------------------------------------

  function LeftOf(symbol: string): Pos -> real {
    (p: Pos) => if p.entry.symbol == symbol then p.remaining as real else 0.0
  }

  lemma {:induction false} MirrorSums(positions: seq<Pos>, open: seq<OpenTrip>, symbol: string)
    requires MirrorAll(positions, open)
    ensures Sum(positions, LeftOf(symbol)) == Sum(open, UnsoldOf(symbol))
  {
    if positions != [] {
      var n := |positions| - 1;
      assert Mirrors(positions[n], open[n]);
      MirrorSums(positions[..n], open[..n], symbol);
    }
  }

  /** While the books balance, every symbol's bought minus sold shares are what is still held. */
  lemma BoughtMinusSoldIsHeld(initial: real, cash: real, positions: seq<Pos>, trades: seq<Trade>, symbol: string)
    requires Balanced(initial, cash, positions, trades)
    ensures NetShares(trades, symbol) == Sum(positions, LeftOf(symbol))
  {
    hide MoneyTies, PurchasesTie, TripsDone, Mirrors;
    MirrorSums(positions, Analyze(trades).open, symbol);
  }
}
