/** The risk ledger: the exporter turns trades into positions, the auditor recomputes their net result
    and picks the sample. */
module RiskLedger {
  import opened Basics
  import opened Fees
  import opened Sums

  /** One fill row; money is decimal, fees are whole won except when reconstructed. */
  datatype Row = Row(price: real, quantity: nat, fee: real)

  /** A recorded sale; an unusable quantity is 0, an unusable price None. */
  datatype SellLeg = SellLeg(quantity: nat, price: Option<real>)

  /** The risk snapshot of an entry; the last four fields are set once the order's fills are confirmed. */
  datatype Snapshot = Snapshot(cohort: string, riskMode: bool, stopPct: Option<real>,
                               filledQuantity: nat, entryCost: Option<real>,
                               initialRisk: Option<real>, actualStop: Option<real>)

  /** What the exit manager still holds on a symbol. */
  datatype ExitState = ExitState(initialRisk: Option<real>, actualStop: Option<real>)

  datatype Trade = Trade(id: string, entryQuantity: nat, entryPrice: Option<real>,
                         exitQuantity: nat, exitPrice: Option<real>, lastExit: Option<int>,
                         pnl: Option<real>, legs: seq<SellLeg>, snapshot: Option<Snapshot>)

  datatype Position = Position(id: string, cohort: string, sha: string, riskMode: bool, closed: bool,
                               buys: seq<Row>, sells: seq<Row>, netPnl: Option<real>,
                               lotsAmbiguous: bool, aggregated: bool,
                               stopPct: Option<real>, actualStop: Option<real>,
                               initialRisk: Option<real>, lastExit: Option<int>)

  // ---- the exporter ---------------------------------------------------------------------------------

  /** To the nearest multiple of 1/10000, ties to even. */
  function Quantize(x: real): real {
    var scaled := x * 10000.0;
    var low := scaled.Floor;
    var rest := scaled - low as real;
    var up := rest > 0.5 || (rest == 0.5 && low % 2 == 1);
    (if up then low + 1 else low) as real / 10000.0
  }

  predicate Closed(t: Trade) {
    t.exitQuantity >= t.entryQuantity > 0
  }

  /** Quantity and price of the entry: the confirmed order, when it was filled in more than one part. */
  function BuyLeg(t: Trade): (nat, real) {
    if t.snapshot.Some? && t.snapshot.value.filledQuantity > 0 && t.snapshot.value.entryCost.Some?
       && t.snapshot.value.entryCost.value > 0.0 && t.snapshot.value.filledQuantity != t.entryQuantity
    then (t.snapshot.value.filledQuantity, t.snapshot.value.entryCost.value / t.snapshot.value.filledQuantity as real)
    else (t.entryQuantity, if t.entryPrice.Some? then t.entryPrice.value else 0.0)
  }

  function BuyRow(t: Trade): Row {
    var (quantity, price) := BuyLeg(t);
    Row(price, quantity, WonBuyFee(Amount(price, quantity)) as real)
  }

  function SellRow(price: real, quantity: nat): Row {
    Row(price, quantity, WonSellFee(Amount(price, quantity)) as real)
  }

  function Cost(buy: Row): real {
    Amount(buy.price, buy.quantity) + buy.fee
  }

  function Proceeds(sell: Row): real {
    Amount(sell.price, sell.quantity) - sell.fee
  }

  /** What the whole sale must have grossed for the recorded net result to come out. */
  function Gross(pnl: real, cost: real): real {
    (pnl + cost) / (1.0 - SELL_FEE_RATE)
  }

  function ReconstructedSell(pnl: real, cost: real, quantity: nat): Row
    requires quantity > 0
  {
    var price := Quantize(Gross(pnl, cost) / quantity as real);
    Row(price, quantity, Amount(price, quantity) - cost - pnl)
  }

  predicate Usable(leg: SellLeg) {
    leg.quantity > 0 && leg.price.Some?
  }

  function LegRows(legs: seq<SellLeg>): seq<Row> {
    if legs == [] then []
    else
      var leg := legs[|legs| - 1];
      LegRows(legs[..|legs| - 1]) + if Usable(leg) then [SellRow(leg.price.value, leg.quantity)] else []
  }

  predicate SoldOnce(t: Trade) {
    t.exitQuantity > 0 && LegRows(t.legs) == [] && t.exitPrice.Some? && t.exitPrice.value > 0.0
  }

  /** A single sale at the recorded price does not explain the recorded net result. */
  predicate NeedsReconstruction(t: Trade)
    requires SoldOnce(t)
  {
    && Closed(t) && t.pnl.Some?
    && Abs(Proceeds(SellRow(t.exitPrice.value, t.exitQuantity)) - Cost(BuyRow(t)) - t.pnl.value) > 1.0
  }

  function SellRows(t: Trade): seq<Row> {
    if t.exitQuantity == 0 then []
    else if LegRows(t.legs) != [] then LegRows(t.legs)
    else if !SoldOnce(t) then []
    else if NeedsReconstruction(t) then [ReconstructedSell(t.pnl.value, Cost(BuyRow(t)), t.exitQuantity)]
    else [SellRow(t.exitPrice.value, t.exitQuantity)]
  }

  method FillsAndExits(t: Trade) returns (buy: Row, sells: seq<Row>, aggregated: bool)
    ensures buy == BuyRow(t) && sells == SellRows(t)
    ensures aggregated <==> SoldOnce(t) && NeedsReconstruction(t)
  {
    buy := BuyRow(t);
    sells, aggregated := [], false;
    if t.exitQuantity == 0 { return; }
    for i := 0 to |t.legs|
      invariant sells == LegRows(t.legs[..i])
    {
      var leg := t.legs[i];
      assert t.legs[..i + 1][..i] == t.legs[..i];
      if leg.quantity > 0 && leg.price.Some? {
        sells := sells + [SellRow(leg.price.value, leg.quantity)];
      }
    }
    assert t.legs[..|t.legs|] == t.legs;
    if sells == [] {
      if t.exitPrice.None? || t.exitPrice.value <= 0.0 { return; }
      var sell := SellRow(t.exitPrice.value, t.exitQuantity);
      if Closed(t) && t.pnl.Some? {
        var recomputed := Proceeds(sell) - Cost(buy);
        if Abs(recomputed - t.pnl.value) > 1.0 {
          aggregated := true;
          sell := ReconstructedSell(t.pnl.value, Cost(buy), t.exitQuantity);
        }
      }
      sells := [sell];
    }
  }

  function NotionalOf(rows: seq<Row>): real {
    Sum(rows, (r: Row) => Amount(r.price, r.quantity))
  }

  function FeesOf(rows: seq<Row>): real {
    Sum(rows, (r: Row) => r.fee)
  }

  /** What the ledger states: the recorded net result when there is one, else what the rows add up to. */
  function StatedPnl(t: Trade, sells: seq<Row>): Option<real> {
    if sells == [] then None
    else if t.pnl.Some? then t.pnl
    else Some(Sum(sells, (r: Row) => Proceeds(r)) - Cost(BuyRow(t)))
  }

  function Or(a: Option<real>, b: Option<real>): Option<real> {
    if a.Some? then a else b
  }

  function QuantityOf(rows: seq<Row>): nat {
    if rows == [] then 0 else QuantityOf(rows[..|rows| - 1]) + rows[|rows| - 1].quantity
  }

  /** What a stop at this many per cent loses of the entry cost. */
  function StopShare(cost: real, stop: real): real {
    cost * stop / 100.0
  }

  /** confirm_initial_risk: entry cost times the stop; nothing without a stop, shares or cost. */
  function Confirm(fills: seq<Row>, stop: real): Option<real> {
    if stop > 0.0 && QuantityOf(fills) > 0 && NotionalOf(fills) > 0.0
    then Some(StopShare(NotionalOf(fills), stop)) else None
  }

  /** merge_confirmed_risk: a snapshot is confirmed once, by valid values over actual fills. */
  function Merge(s: Snapshot, amount: Option<real>, stop: Option<real>, fills: seq<Row>): Snapshot {
    if s.initialRisk.Some? || amount.None? || amount.value <= 0.0 || stop.None? || stop.value <= 0.0
       || QuantityOf(fills) == 0
    then s
    else s.(initialRisk := amount, actualStop := stop,
            filledQuantity := QuantityOf(fills), entryCost := Some(NotionalOf(fills)))
  }

  /** One more fill in the running cost and quantity. */
  lemma NextFill(fills: seq<Row>, i: nat)
    requires i < |fills|
    ensures NotionalOf(fills[..i + 1]) == NotionalOf(fills[..i]) + Amount(fills[i].price, fills[i].quantity)
    ensures QuantityOf(fills[..i + 1]) == QuantityOf(fills[..i]) + fills[i].quantity
    ensures fills[i].quantity == 0 ==> Amount(fills[i].price, fills[i].quantity) == 0.0
  {
    assert fills[..i + 1] == fills[..i] + [fills[i]];
    SumSnoc(fills[..i], fills[i], (r: Row) => Amount(r.price, r.quantity));
  }

  method ConfirmInitialRisk(fills: seq<Row>, stop: real) returns (amount: Option<real>)
    ensures amount == Confirm(fills, stop)
  {
    hide NotionalOf, QuantityOf, Amount;
    if stop <= 0.0 { return None; }
    var cost, quantity := 0.0, 0;
    NoFills();
    for i := 0 to |fills|
      invariant cost == NotionalOf(fills[..i]) && quantity == QuantityOf(fills[..i])
    {
      NextFill(fills, i);
      if fills[i].quantity > 0 {
        cost := cost + Amount(fills[i].price, fills[i].quantity);
        quantity := quantity + fills[i].quantity;
      }
    }
    assert fills[..|fills|] == fills;
    if quantity == 0 || cost <= 0.0 { return None; }
    amount := Some(StopShare(cost, stop));
  }

  method MergeConfirmedRisk(s: Snapshot, amount: Option<real>, stop: Option<real>, fills: seq<Row>)
    returns (merged: Snapshot)
    ensures merged == Merge(s, amount, stop, fills)
  {
    hide NotionalOf, QuantityOf, Amount;
    if s.initialRisk.Some? || amount.None? || stop.None? || amount.value <= 0.0 || stop.value <= 0.0 { return s; }
    var cost, quantity := 0.0, 0;
    NoFills();
    for i := 0 to |fills|
      invariant cost == NotionalOf(fills[..i]) && quantity == QuantityOf(fills[..i])
    {
      NextFill(fills, i);
      if fills[i].quantity > 0 {
        quantity := quantity + fills[i].quantity;
        cost := cost + Amount(fills[i].price, fills[i].quantity);
      }
    }
    assert fills[..|fills|] == fills;
    if quantity == 0 { return s; }
    merged := s.(initialRisk := amount, actualStop := stop, filledQuantity := quantity, entryCost := Some(cost));
  }

  lemma NoFills()
    ensures NotionalOf([]) == 0.0 && QuantityOf([]) == 0
  {
  }

  /** The exit manager's values count for open positions only. */
  function Held(t: Trade, state: ExitState): ExitState {
    if Closed(t) then ExitState(None, None) else state
  }

  /** The stop in force: confirmed, else held, else planned. */
  function ActualStop(t: Trade, state: ExitState): Option<real> {
    if t.snapshot.None? then None
    else Or(t.snapshot.value.actualStop, Or(Held(t, state).actualStop, t.snapshot.value.stopPct))
  }

  /** The initial risk: confirmed, else held, else from the exported entry and the stop. */
  function InitialRisk(t: Trade, state: ExitState): Option<real> {
    if t.snapshot.None? then None
    else
      var known := Or(t.snapshot.value.initialRisk, Held(t, state).initialRisk);
      if known.Some? then known
      else if ActualStop(t, state).Some? then Confirm([BuyRow(t)], ActualStop(t, state).value)
      else None
  }

  function Export(t: Trade, state: ExitState, ambiguous: bool, sha: string): Position {
    var sells, aggregated := SellRows(t), SoldOnce(t) && NeedsReconstruction(t);
    Position(t.id, if t.snapshot.Some? then t.snapshot.value.cohort else "legacy-unmeasured", sha,
             t.snapshot.Some? && t.snapshot.value.riskMode, Closed(t), [BuyRow(t)], sells,
             if Closed(t) then StatedPnl(t, sells) else None,
             ambiguous || aggregated, aggregated,
             if t.snapshot.Some? then t.snapshot.value.stopPct else None, ActualStop(t, state),
             InitialRisk(t, state), t.lastExit)
  }

  // ---- the auditor ----------------------------------------------------------------------------------

  function Recomputed(p: Position): Option<real> {
    if p.buys == [] || p.sells == [] then None
    else Some(NotionalOf(p.sells) - NotionalOf(p.buys) - FeesOf(p.buys) - FeesOf(p.sells))
  }

  datatype NetPnlIssue = Unverifiable | Mismatch

  function CheckNetPnl(p: Position): Option<NetPnlIssue> {
    if !p.closed then None
    else if Recomputed(p).None? then Some(Unverifiable)
    else if p.netPnl.Some? && Abs(Recomputed(p).value - p.netPnl.value) > 1.0 then Some(Mismatch)
    else None
  }

  /** The stop the auditor goes by. */
  function Basis(p: Position): Option<real> {
    Or(p.actualStop, p.stopPct)
  }

  /** initial_risk_mismatch: the stated risk is more than a won off what the buys and the stop give. A closed
      position without a stop or an exit is reported for that instead. */
  predicate DisputesInitialRisk(p: Position) {
    && (p.closed ==> p.actualStop.Some? && p.sells != [])
    && p.initialRisk.Some? && p.buys != [] && Basis(p).Some? && !p.lotsAmbiguous
    && Abs(StopShare(NotionalOf(p.buys), Basis(p).value) - p.initialRisk.value) > 1.0
  }

  /** The auditor refuses a whole ledger over one closed position without a net result. */
  predicate Loads(p: Position) {
    p.closed ==> p.netPnl.Some?
  }

  datatype Exclusion = CohortMismatch | LegacyUnmeasured | StillOpen | LotsAmbiguous | MissingInitialRisk

  function Classify(p: Position, cohort: string, sha: Option<string>, asOf: Option<int>): Option<Exclusion> {
    if p.cohort != cohort || (sha.Some? && p.sha != sha.value) then Some(CohortMismatch)
    else if !p.riskMode then Some(LegacyUnmeasured)
    else if !p.closed then Some(StillOpen)
    else if asOf.Some? && (p.lastExit.None? || p.lastExit.value > asOf.value) then Some(StillOpen)
    else if p.lotsAmbiguous then Some(LotsAmbiguous)
    else if p.initialRisk.None? || p.initialRisk.value <= 0.0 then Some(MissingInitialRisk)
    else None
  }

  method Notional(rows: seq<Row>) returns (total: real)
    ensures total == NotionalOf(rows)
  {
    total := 0.0;
    for i := 0 to |rows|
      invariant total == NotionalOf(rows[..i])
    {
      assert rows[..i + 1] == rows[..i] + [rows[i]];
      SumSnoc(rows[..i], rows[i], (r: Row) => Amount(r.price, r.quantity));
      total := total + Amount(rows[i].price, rows[i].quantity);
    }
    assert rows[..|rows|] == rows;
  }

  method TotalFees(rows: seq<Row>) returns (total: real)
    ensures total == FeesOf(rows)
  {
    total := 0.0;
    for i := 0 to |rows|
      invariant total == FeesOf(rows[..i])
    {
      assert rows[..i + 1] == rows[..i] + [rows[i]];
      SumSnoc(rows[..i], rows[i], (r: Row) => r.fee);
      total := total + rows[i].fee;
    }
    assert rows[..|rows|] == rows;
  }

  method RecomputeNetPnl(p: Position) returns (result: Option<real>)
    ensures result == Recomputed(p)
  {
    if p.buys == [] || p.sells == [] { return None; }
    var sold := Notional(p.sells);
    var bought := Notional(p.buys);
    var buyFees := TotalFees(p.buys);
    var sellFees := TotalFees(p.sells);
    result := Some(sold - bought - buyFees - sellFees);
  }

  // ---- the two agree --------------------------------------------------------------------------------

  lemma OneRow(r: Row)
    ensures NotionalOf([r]) == Amount(r.price, r.quantity) && FeesOf([r]) == r.fee
    ensures Sum([r], (x: Row) => Proceeds(x)) == Proceeds(r)
  {
    SumSnoc([], r, (x: Row) => Amount(x.price, x.quantity));
    SumSnoc([], r, (x: Row) => x.fee);
    SumSnoc([], r, (x: Row) => Proceeds(x));
    assert [] + [r] == [r];
  }

  lemma {:induction false} ProceedsSplit(rows: seq<Row>)
    ensures Sum(rows, (r: Row) => Proceeds(r)) == NotionalOf(rows) - FeesOf(rows)
  {
    if rows != [] {
      var init, last := rows[..|rows| - 1], rows[|rows| - 1];
      assert rows == init + [last];
      ProceedsSplit(init);
      SumSnoc(init, last, (r: Row) => Proceeds(r));
      SumSnoc(init, last, (r: Row) => Amount(r.price, r.quantity));
      SumSnoc(init, last, (r: Row) => r.fee);
    }
  }

  /** What the auditor recomputes for an exported position is proceeds less cost of its rows. */
  lemma AuditorReadsTheRows(t: Trade, state: ExitState, ambiguous: bool, sha: string)
    ensures var p := Export(t, state, ambiguous, sha);
            Recomputed(p) == if p.sells == [] then None
                             else Some(Sum(p.sells, (r: Row) => Proceeds(r)) - Cost(BuyRow(t)))
  {
    hide SellRows, BuyRow;
    OneRow(BuyRow(t));
    ProceedsSplit(SellRows(t));
  }

  /** A reconstructed sale nets exactly the recorded result, whatever its rounded price. */
  lemma ReconstructionIsExact(pnl: real, cost: real, quantity: nat)
    requires quantity > 0
    ensures Proceeds(ReconstructedSell(pnl, cost, quantity)) - cost == pnl
  {
  }

  /** Without usable sell legs, exporter and auditor agree to the won, and exactly when the sale was
      reconstructed or the net result came from the rows. */
  lemma ExporterAndAuditorAgree(t: Trade, state: ExitState, ambiguous: bool, sha: string)
    requires Closed(t) && SoldOnce(t)
    ensures var p := Export(t, state, ambiguous, sha);
            && p.netPnl.Some? && Recomputed(p).Some?
            && Abs(Recomputed(p).value - p.netPnl.value) <= 1.0
            && (p.aggregated || t.pnl.None? ==> Recomputed(p).value == p.netPnl.value)
            && CheckNetPnl(p).None?
  {
    hide BuyRow, ReconstructedSell, Proceeds, Cost, SellRow, LegRows;
    AuditorReadsTheRows(t, state, ambiguous, sha);
    OneRow(SellRows(t)[0]);
    assert SellRows(t) == [SellRows(t)[0]];
    if NeedsReconstruction(t) {
      ReconstructionIsExact(t.pnl.value, Cost(BuyRow(t)), t.exitQuantity);
    }
  }

  lemma QuantizeIsClose(x: real)
    ensures Abs(Quantize(x) - x) <= 0.00005
  {
  }

  /** A multiple of 1/10000, the nearest one, and the even one of two equally near. */
  lemma QuantizeIsNearestEven(x: real) returns (n: int)
    ensures Quantize(x) == n as real / 10000.0
    ensures -0.5 <= n as real - x * 10000.0 <= 0.5
    ensures Abs(n as real - x * 10000.0) == 0.5 ==> n % 2 == 0
  {
    var low := (x * 10000.0).Floor;
    n := if Quantize(x) == low as real / 10000.0 then low else low + 1;
  }

  lemma ScaledError(off: real, bound: real, q: real)
    requires -bound <= off <= bound && q >= 0.0
    ensures Abs(off * q) <= bound * q
  {
    MulMono(off, bound, q);
    MulMono(-off, bound, q);
    assert -off * q == -(off * q);
  }

  /** The residual fee is the sell rate on the unrounded gross, up to the rounding of the price. */
  lemma ResidualFeeNearTheRate(pnl: real, cost: real, quantity: nat)
    requires quantity > 0
    ensures Abs(ReconstructedSell(pnl, cost, quantity).fee - Gross(pnl, cost) * SELL_FEE_RATE)
            <= 0.00005 * quantity as real
  {
    hide Quantize;
    var q, gross := quantity as real, Gross(pnl, cost);
    var exact := gross / q;
    QuantizeIsClose(exact);
    var off := Quantize(exact) - exact;
    assert exact * q == gross;
    assert Quantize(exact) * q == gross + off * q;
    assert gross - gross * SELL_FEE_RATE == pnl + cost;
    ScaledError(off, 0.00005, q);
    var sold := ReconstructedSell(pnl, cost, quantity);
    assert sold.fee == Quantize(exact) * q - cost - pnl;
    assert sold.fee - gross * SELL_FEE_RATE == off * q;
  }

  /** A reconstructed position is never part of the judged sample. */
  lemma ReconstructedNeverSampled(t: Trade, state: ExitState, ambiguous: bool, sha: string, cohort: string,
                                  only: Option<string>, asOf: Option<int>)
    requires Export(t, state, ambiguous, sha).aggregated
    ensures Classify(Export(t, state, ambiguous, sha), cohort, only, asOf).Some?
  {
  }

  // ---- the rows, read off the trade ---------------------------------------------------------------------

  /** A leg with shares and a price. */
  predicate HasSold(leg: SellLeg) {
    leg.quantity > 0 && leg.price.Some?
  }

  function UsableLegs(legs: seq<SellLeg>): seq<SellLeg> {
    if legs == [] then []
    else
      var last := legs[|legs| - 1];
      UsableLegs(legs[..|legs| - 1]) + if HasSold(last) then [last] else []
  }

  /** Price times quantity. */
  function LegAmount(leg: SellLeg): real
    requires HasSold(leg)
  {
    leg.price.value * leg.quantity as real
  }

  /** Sell fee and tax on an amount, in whole won. */
  function SellCharge(amount: real): real {
    RoundHalfUp(amount * 0.002130527) as real
  }

  function BuyCharge(amount: real): real {
    RoundHalfUp(amount * 0.000140527) as real
  }

  lemma SellFeeIs(amount: real)
    ensures WonSellFee(amount) as real == SellCharge(amount)
  {
    assert amount * 0.000130527 + amount * 0.002 == amount * 0.002130527;
  }

  lemma ChargesAreFees(leg: SellLeg)
    requires HasSold(leg)
    ensures SellRow(leg.price.value, leg.quantity)
            == Row(leg.price.value, leg.quantity, SellCharge(LegAmount(leg)))
    ensures Proceeds(SellRow(leg.price.value, leg.quantity)) == LegAmount(leg) - SellCharge(LegAmount(leg))
  {
    hide SellCharge;
    SellFeeIs(LegAmount(leg));
    assert Amount(leg.price.value, leg.quantity) == LegAmount(leg);
  }

  /** One row a usable leg, in order, with its price, its quantity and the charge on their product. */
  lemma {:induction false} RowsAreTheLegs(legs: seq<SellLeg>)
    ensures var rows, usable := LegRows(legs), UsableLegs(legs);
            && |rows| == |usable|
            && forall k :: 0 <= k < |rows| ==>
                 && HasSold(usable[k])
                 && rows[k].price == usable[k].price.value && rows[k].quantity == usable[k].quantity
                 && rows[k].fee == SellCharge(LegAmount(usable[k]))
  {
    if legs != [] {
      hide SellCharge, SellRow, LegAmount;
      var last := legs[|legs| - 1];
      RowsAreTheLegs(legs[..|legs| - 1]);
      if HasSold(last) { ChargesAreFees(last); }
    }
  }

  /** What a leg brought in after charges. */
  function LegProceeds(leg: SellLeg): real {
    if HasSold(leg) then LegAmount(leg) - SellCharge(LegAmount(leg)) else 0.0
  }

  function Received(legs: seq<SellLeg>): real {
    if legs == [] then 0.0 else Received(legs[..|legs| - 1]) + LegProceeds(legs[|legs| - 1])
  }

  lemma {:induction false} RowsBringInTheLegs(legs: seq<SellLeg>)
    ensures Sum(LegRows(legs), (r: Row) => Proceeds(r)) == Received(legs)
  {
    if legs != [] {
      hide SellCharge, SellRow, Proceeds, Sum, LegAmount;
      var init, last := legs[..|legs| - 1], legs[|legs| - 1];
      RowsBringInTheLegs(init);
      if HasSold(last) {
        ChargesAreFees(last);
        SumSnoc(LegRows(init), SellRow(last.price.value, last.quantity), (r: Row) => Proceeds(r));
      } else {
        assert LegRows(legs) == LegRows(init);
      }
    } else {
      assert LegRows(legs) == [];
    }
  }

  /** The amount of the entry: that of the confirmed order where its quantity is another than the journal's. */
  function EntryAmount(t: Trade): real {
    match t.snapshot
    case Some(s) =>
      if s.filledQuantity > 0 && s.filledQuantity != t.entryQuantity && s.entryCost.Some? && s.entryCost.value > 0.0
      then s.entryCost.value else RecordedCost(t)
    case None => RecordedCost(t)
  }

  /** The entry as the journal recorded it. */
  function RecordedCost(t: Trade): real {
    (if t.entryPrice.Some? then t.entryPrice.value else 0.0) * t.entryQuantity as real
  }

  /** What the entry cost, fee included. */
  function Paid(t: Trade): real {
    EntryAmount(t) + BuyCharge(EntryAmount(t))
  }

  lemma CostPerShare(cost: real, quantity: nat)
    requires quantity > 0
    ensures Amount(cost / quantity as real, quantity) == cost
  {
    var n := quantity as real;
    assert cost / n * n == cost;
  }

  lemma BuyRowIs(t: Trade)
    ensures Amount(BuyRow(t).price, BuyRow(t).quantity) == EntryAmount(t)
    ensures BuyRow(t).fee == BuyCharge(EntryAmount(t)) && Cost(BuyRow(t)) == Paid(t)
  {
    if t.snapshot.Some? && t.snapshot.value.filledQuantity > 0 && t.snapshot.value.entryCost.Some? {
      CostPerShare(t.snapshot.value.entryCost.value, t.snapshot.value.filledQuantity);
    }
  }

  lemma {:induction false} NoRows(legs: seq<SellLeg>)
    ensures LegRows(legs) == [] <==> forall leg :: leg in legs ==> !HasSold(leg)
  {
    if legs != [] {
      var init, last := legs[..|legs| - 1], legs[|legs| - 1];
      assert legs == init + [last];
      NoRows(init);
      assert last in legs;
    }
  }

  /** The exact conditions for every closed trade: the auditor refuses it when no sale can be read, and
      disputes the net result only when readable legs bring in, less the entry, another result than the
      recorded one by more than a won. */
  lemma DisputedExactlyWhen(t: Trade, state: ExitState, ambiguous: bool, sha: string)
    requires t.exitQuantity >= t.entryQuantity > 0
    ensures var p := Export(t, state, ambiguous, sha);
            var unread := forall leg :: leg in t.legs ==> leg.quantity == 0 || leg.price.None?;
            && (!Loads(p) <==> unread && !(t.exitPrice.Some? && t.exitPrice.value > 0.0))
            && (CheckNetPnl(p) == Some(Unverifiable) <==> !Loads(p))
            && (CheckNetPnl(p) == Some(Mismatch) <==>
                  !unread && t.pnl.Some? && Abs(Received(t.legs) - Paid(t) - t.pnl.value) > 1.0)
  {
    hide BuyRow, ReconstructedSell, Proceeds, Cost, SellRow, LegRows, Received, Paid;
    AuditorReadsTheRows(t, state, ambiguous, sha);
    RowsBringInTheLegs(t.legs);
    BuyRowIs(t);
    NoRows(t.legs);
    if SoldOnce(t) { ExporterAndAuditorAgree(t, state, ambiguous, sha); }
  }

  // ---- the initial risk -------------------------------------------------------------------------------

  /** A snapshot as confirmation leaves it. */
  ghost predicate Confirmed(s: Snapshot) {
    && s.filledQuantity > 0 && s.entryCost.Some? && s.entryCost.value > 0.0
    && s.actualStop.Some? && s.actualStop.value > 0.0
    && s.initialRisk == Some(StopShare(s.entryCost.value, s.actualStop.value))
  }

  /** What the exported entry costs: the confirmed cost when the confirmed quantity differs from the
      journal's, else the journal's own. */
  lemma ExportedEntryCost(t: Trade, state: ExitState, ambiguous: bool, sha: string)
    requires t.snapshot.Some? && Confirmed(t.snapshot.value)
    ensures var s := t.snapshot.value;
            NotionalOf(Export(t, state, ambiguous, sha).buys)
            == if s.filledQuantity != t.entryQuantity then s.entryCost.value else RecordedCost(t)
  {
    hide SellRows, StatedPnl, NotionalOf, Amount, BuyRow, RecordedCost;
    OneRow(BuyRow(t));
    BuyRowIs(t);
  }

  /** For every confirmed snapshot the auditor disputes the initial risk of a position it can judge exactly
      when the confirmed quantity is the journal's but the journal's cost is more than a won of risk off. */
  lemma InitialRiskDisputedExactlyWhen(t: Trade, state: ExitState, ambiguous: bool, sha: string)
    requires t.snapshot.Some? && Confirmed(t.snapshot.value)
    ensures var s, p := t.snapshot.value, Export(t, state, ambiguous, sha);
            DisputesInitialRisk(p) <==>
              && Loads(p) && !p.lotsAmbiguous && s.filledQuantity == t.entryQuantity
              && Abs(StopShare(RecordedCost(t), s.actualStop.value)
                     - StopShare(s.entryCost.value, s.actualStop.value)) > 1.0
  {
    hide SellRows, NotionalOf, BuyRow, RecordedCost, SoldOnce, NeedsReconstruction;
    ExportedEntryCost(t, state, ambiguous, sha);
  }

  /** A closed trade whose snapshot was never confirmed takes its risk from the exported entry itself, so
      the auditor never disputes it. */
  lemma UnconfirmedNeverDisputed(t: Trade, state: ExitState, ambiguous: bool, sha: string)
    requires Closed(t) && t.snapshot.Some? && t.snapshot.value.initialRisk.None?
    ensures !DisputesInitialRisk(Export(t, state, ambiguous, sha))
  {
    hide SellRows, StatedPnl, NotionalOf, BuyRow;
  }

  /** The journal keeps an order's first fill; the snapshot is confirmed over all of them. */
  ghost predicate FilledInParts(t: Trade, planned: Snapshot, fills: seq<Row>, stop: real) {
    && fills != [] && (forall i :: 0 <= i < |fills| ==> fills[i].quantity > 0 && fills[i].price > 0.0)
    && t.entryQuantity == fills[0].quantity && t.entryPrice == Some(fills[0].price)
    && planned.initialRisk.None? && stop > 0.0
    && t.snapshot == Some(Merge(planned, Confirm(fills, stop), Some(stop), fills))
  }

  lemma {:induction false} FillsAreReal(fills: seq<Row>)
    requires fills != [] && forall i :: 0 <= i < |fills| ==> fills[i].quantity > 0 && fills[i].price > 0.0
    ensures NotionalOf(fills) > 0.0 && QuantityOf(fills) >= fills[0].quantity
    ensures QuantityOf(fills) == fills[0].quantity <==> |fills| == 1
  {
    var init, last := fills[..|fills| - 1], fills[|fills| - 1];
    assert fills == init + [last];
    SumSnoc(init, last, (r: Row) => Amount(r.price, r.quantity));
    MulMono(0.0, last.quantity as real, last.price);
    assert Amount(last.price, last.quantity) > 0.0;
    if init == [] {
      assert NotionalOf(init) == 0.0;
      assert QuantityOf(init) == 0;
    } else {
      FillsAreReal(init);
    }
  }

  lemma SomethingAtStake(cost: real, stop: real)
    requires cost > 0.0 && stop > 0.0
    ensures StopShare(cost, stop) > 0.0
  {
  }

  lemma ConfirmedByFills(planned: Snapshot, fills: seq<Row>, stop: real)
    requires planned.initialRisk.None? && stop > 0.0 && NotionalOf(fills) > 0.0 && QuantityOf(fills) > 0
    ensures var s := Merge(planned, Confirm(fills, stop), Some(stop), fills);
            && Confirmed(s) && s.filledQuantity == QuantityOf(fills) && s.entryCost == Some(NotionalOf(fills))
  {
    hide NotionalOf, QuantityOf, StopShare;
    SomethingAtStake(NotionalOf(fills), stop);
  }

  /** However many parts an entry was filled in, the auditor does not dispute its initial risk. */
  lemma EntryInPartsNeverDisputed(t: Trade, planned: Snapshot, fills: seq<Row>, stop: real,
                                  state: ExitState, ambiguous: bool, sha: string)
    requires FilledInParts(t, planned, fills, stop)
    ensures !DisputesInitialRisk(Export(t, state, ambiguous, sha))
  {
    hide Export, DisputesInitialRisk, NotionalOf, QuantityOf, Loads;
    FillsAreReal(fills);
    ConfirmedByFills(planned, fills, stop);
    if |fills| == 1 {
      OneRow(fills[0]);
      assert fills == [fills[0]];
      assert RecordedCost(t) == NotionalOf(fills);
    }
    InitialRiskDisputedExactlyWhen(t, state, ambiguous, sha);
  }

  // ---- the report's partition -------------------------------------------------------------------------

  function SampleOf(positions: seq<Position>, cohort: string, sha: Option<string>, asOf: Option<int>): seq<Position> {
    if positions == [] then []
    else
      var p := positions[|positions| - 1];
      SampleOf(positions[..|positions| - 1], cohort, sha, asOf)
      + if Classify(p, cohort, sha, asOf).None? then [p] else []
  }

  function CountOf(positions: seq<Position>, e: Exclusion, cohort: string, sha: Option<string>,
                   asOf: Option<int>): nat {
    if positions == [] then 0
    else
      CountOf(positions[..|positions| - 1], e, cohort, sha, asOf)
      + if Classify(positions[|positions| - 1], cohort, sha, asOf) == Some(e) then 1 else 0
  }

  datatype Tally = Tally(cohortMismatch: nat, legacyUnmeasured: nat, open: nat, lotsAmbiguous: nat,
                         missingInitialRisk: nat)

  function TallyOf(positions: seq<Position>, cohort: string, sha: Option<string>, asOf: Option<int>): Tally {
    Tally(CountOf(positions, CohortMismatch, cohort, sha, asOf),
          CountOf(positions, LegacyUnmeasured, cohort, sha, asOf),
          CountOf(positions, StillOpen, cohort, sha, asOf), CountOf(positions, LotsAmbiguous, cohort, sha, asOf),
          CountOf(positions, MissingInitialRisk, cohort, sha, asOf))
  }

  method PartitionSample(positions: seq<Position>, cohort: string, sha: Option<string>, asOf: Option<int>)
    returns (sample: seq<Position>, excluded: Tally)
    ensures sample == SampleOf(positions, cohort, sha, asOf)
    ensures excluded == TallyOf(positions, cohort, sha, asOf)
  {
    hide Classify;
    sample, excluded := [], Tally(0, 0, 0, 0, 0);
    for i := 0 to |positions|
      invariant sample == SampleOf(positions[..i], cohort, sha, asOf)
      invariant excluded == TallyOf(positions[..i], cohort, sha, asOf)
    {
      assert positions[..i + 1][..i] == positions[..i];
      match Classify(positions[i], cohort, sha, asOf)
      case None => sample := sample + [positions[i]];
      case Some(CohortMismatch) => excluded := excluded.(cohortMismatch := excluded.cohortMismatch + 1);
      case Some(LegacyUnmeasured) => excluded := excluded.(legacyUnmeasured := excluded.legacyUnmeasured + 1);
      case Some(StillOpen) => excluded := excluded.(open := excluded.open + 1);
      case Some(LotsAmbiguous) => excluded := excluded.(lotsAmbiguous := excluded.lotsAmbiguous + 1);
      case Some(MissingInitialRisk) => excluded := excluded.(missingInitialRisk := excluded.missingInitialRisk + 1);
    }
    assert positions[..|positions|] == positions;
  }

  /** What makes a position part of the judged sample. */
  ghost predicate Judged(p: Position, cohort: string, sha: Option<string>, asOf: Option<int>) {
    && p.cohort == cohort && (sha.Some? ==> p.sha == sha.value)
    && p.riskMode && p.closed && !p.lotsAmbiguous
    && (asOf.Some? ==> p.lastExit.Some? && p.lastExit.value <= asOf.value)
    && p.initialRisk.Some? && p.initialRisk.value > 0.0
  }

  /** Every position is in the sample or under exactly one exclusion. */
  lemma {:induction false} SampleAndExclusionsAreEverything(positions: seq<Position>, cohort: string,
                                                            sha: Option<string>, asOf: Option<int>)
    ensures var t := TallyOf(positions, cohort, sha, asOf);
            |SampleOf(positions, cohort, sha, asOf)| + t.cohortMismatch + t.legacyUnmeasured + t.open
              + t.lotsAmbiguous + t.missingInitialRisk == |positions|
    ensures forall p :: p in SampleOf(positions, cohort, sha, asOf) <==> p in positions && Judged(p, cohort, sha, asOf)
  {
    if positions != [] {
      hide Classify, Judged;
      var init, last := positions[..|positions| - 1], positions[|positions| - 1];
      SampleAndExclusionsAreEverything(init, cohort, sha, asOf);
      ClassifiedAsJudged(last, cohort, sha, asOf);
      assert positions == init + [last];
    }
  }

  lemma ClassifiedAsJudged(p: Position, cohort: string, sha: Option<string>, asOf: Option<int>)
    ensures Classify(p, cohort, sha, asOf).None? <==> Judged(p, cohort, sha, asOf)
  {
  }
}
