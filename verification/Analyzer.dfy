/** ResultAnalyzer.positions: the one reader of the trade log, which folds partial sales back
    into round trips. */
module Analyzer {
  import opened Config
  import opened Exits
  import opened Engine

  /** One row of the dict of unfinished round trips. */
  datatype OpenTrip = OpenTrip(symbol: string, strategy: Strategy, entryDate: int, exitDate: int,
                               entryPrice: real, quantity: int, sold: int, cost: real, proceeds: real,
                               fees: real, notional: real, stopPct: real, initialRisk: real,
                               holdingDays: int, reasons: seq<Reason>)

  datatype RoundTrip = RoundTrip(trip: OpenTrip, pnl: real, pnlPct: real, r: real)

  datatype Ledger = Ledger(open: seq<OpenTrip>, out: seq<RoundTrip>)

  function FindTrip(open: seq<OpenTrip>, symbol: string): (i: int)
    ensures -1 <= i < |open|
    ensures i >= 0 ==> open[i].symbol == symbol
    ensures i < 0 ==> forall j :: 0 <= j < |open| ==> open[j].symbol != symbol
  {
    if open == [] then -1
    else if open[|open| - 1].symbol == symbol then |open| - 1
    else FindTrip(open[..|open| - 1], symbol)
  }

  function OpenOf(t: Trade): OpenTrip {
    OpenTrip(t.symbol, t.strategy, t.date, t.date, t.price, t.quantity, 0, t.amount + t.fee, 0.0,
             t.fee, t.amount, t.stopPct, t.initialRisk, 0, [])
  }

  function AddSale(p: OpenTrip, t: Trade): OpenTrip {
    p.(proceeds := p.proceeds + (t.amount - t.fee), fees := p.fees + t.fee, notional := p.notional + t.amount,
       sold := p.sold + t.quantity, exitDate := t.date, holdingDays := t.holdingDays,
       reasons := p.reasons + [t.reason])
  }

  function CloseTrip(p: OpenTrip): RoundTrip {
    var pnl := p.proceeds - p.cost;
    var pct := if p.cost > 0.0 then pnl / p.cost * 100.0 else 0.0;
    RoundTrip(p, pnl, pct,
              if p.initialRisk > 0.0 then pnl / p.initialRisk
              else if p.stopPct > 0.0 then pct / p.stopPct else 0.0)
  }

  function Without<T>(s: seq<T>, i: int): seq<T>
    requires 0 <= i < |s|
  {
    s[..i] + s[i + 1..]
  }

  /** What one log entry does: a BUY opens (or replaces) the symbol's trip, a SELL feeds it and
      pops it once the bought quantity is sold. */
  function Post(ledger: Ledger, t: Trade): Ledger {
    var i := FindTrip(ledger.open, t.symbol);
    match t.side
    case Buy =>
      ledger.(open := if i >= 0 then ledger.open[i := OpenOf(t)] else ledger.open + [OpenOf(t)])
    case Sell =>
      if i < 0 then ledger
      else
        var p := AddSale(ledger.open[i], t);
        if p.sold >= p.quantity then Ledger(Without(ledger.open, i), ledger.out + [CloseTrip(p)])
        else ledger.(open := ledger.open[i := p])
  }

  function Analyze(trades: seq<Trade>): Ledger {
    if trades == [] then Ledger([], [])
    else Post(Analyze(trades[..|trades| - 1]), trades[|trades| - 1])
  }

  lemma AnalyzeSnoc(trades: seq<Trade>, t: Trade)
    ensures Analyze(trades + [t]) == Post(Analyze(trades), t)
  {
    assert (trades + [t])[..|trades|] == trades;
  }

  method Positions(trades: seq<Trade>) returns (out: seq<RoundTrip>)
    ensures out == Analyze(trades).out
  {
    var open: seq<OpenTrip> := [];
    out := [];
    assert trades[..0] == [];
    for k := 0 to |trades|
      invariant Analyze(trades[..k]) == Ledger(open, out)
    {
      hide CloseTrip, AddSale, OpenOf;
      assert trades[..k + 1][..k] == trades[..k];
      var t := trades[k];
      var i := FindTrip(open, t.symbol);
      if t.side.Buy? {
        open := if i >= 0 then open[i := OpenOf(t)] else open + [OpenOf(t)];
        continue;
      }
      if i < 0 {
        continue;
      }
      var p := AddSale(open[i], t);
      open := open[i := p];
      if p.sold >= p.quantity {
        out := out + [CloseTrip(p)];
        assert Without(open, i) == Without(Analyze(trades[..k]).open, i);
        open := Without(open, i);
      }
    }
    assert trades[..|trades|] == trades;
  }
}
