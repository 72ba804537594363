/** What an exported position says, read off the trade, and why the auditor leaves a position out. */
module LedgerTable {
  import opened Basics
  import opened Fees
  import opened RiskLedger

  predicate Finished(t: Trade) {
    t.exitQuantity >= t.entryQuantity > 0
  }

  /** Some leg of the sale can be read. */
  predicate LegsReadable(t: Trade) {
    t.exitQuantity > 0 && UsableLegs(t.legs) != []
  }

  /** Only the trade's own exit price can be read. */
  predicate OnlyTotalReadable(t: Trade) {
    t.exitQuantity > 0 && UsableLegs(t.legs) == [] && t.exitPrice.Some? && t.exitPrice.value > 0.0
  }

  /** What the whole quantity at the recorded exit price would have netted. */
  function AtExitPrice(t: Trade): real
    requires t.exitPrice.Some?
  {
    ExitAmount(t) - SellCharge(ExitAmount(t)) - Paid(t)
  }

  function ExitAmount(t: Trade): real
    requires t.exitPrice.Some?
  {
    t.exitPrice.value * t.exitQuantity as real
  }

  /** The recorded result is another by more than a won: the sale was made in parts. */
  predicate SoldInParts(t: Trade) {
    && OnlyTotalReadable(t) && Finished(t) && t.pnl.Some?
    && !(-1.0 <= AtExitPrice(t) - t.pnl.value <= 1.0)
  }

  lemma ReadableRows(t: Trade)
    ensures LegRows(t.legs) == [] <==> UsableLegs(t.legs) == []
    ensures SoldOnce(t) <==> OnlyTotalReadable(t)
  {
    hide SellCharge;
    RowsAreTheLegs(t.legs);
  }

  lemma WholeSale(t: Trade)
    requires t.exitPrice.Some?
    ensures var row := SellRow(t.exitPrice.value, t.exitQuantity);
            && row == Row(t.exitPrice.value, t.exitQuantity, SellCharge(ExitAmount(t)))
            && Proceeds(row) - Cost(BuyRow(t)) == AtExitPrice(t)
  {
    hide SellCharge, BuyRow, Cost, Paid, WonSellFee;
    assert Amount(t.exitPrice.value, t.exitQuantity) == ExitAmount(t);
    SellFeeIs(ExitAmount(t));
    BuyRowIs(t);
  }

  lemma PartsAreReconstructed(t: Trade)
    ensures SoldInParts(t) <==> SoldOnce(t) && NeedsReconstruction(t)
  {
    hide LegRows, UsableLegs, SellRow, BuyRow, Proceeds, Cost, AtExitPrice;
    ReadableRows(t);
    if t.exitPrice.Some? { WholeSale(t); }
  }

  /** The buy is one row for the whole entry.  The sale is one row a readable leg; else one row at the exit
      price; else, where that contradicts the recorded result, one row that nets it; else nothing. */
  lemma RowsByTable(t: Trade, state: ExitState, ambiguous: bool, sha: string)
    ensures var p := Export(t, state, ambiguous, sha);
            && |p.buys| == 1 && Amount(p.buys[0].price, p.buys[0].quantity) == EntryAmount(t)
            && p.buys[0].fee == BuyCharge(EntryAmount(t))
            && (p.aggregated <==> SoldInParts(t)) && p.lotsAmbiguous == (ambiguous || SoldInParts(t))
            && (LegsReadable(t) ==>
                  && |p.sells| == |UsableLegs(t.legs)|
                  && forall k :: 0 <= k < |p.sells| ==>
                       && HasSold(UsableLegs(t.legs)[k]) && p.sells[k].price == UsableLegs(t.legs)[k].price.value
                       && p.sells[k].quantity == UsableLegs(t.legs)[k].quantity
                       && p.sells[k].fee == SellCharge(LegAmount(UsableLegs(t.legs)[k])))
            && (OnlyTotalReadable(t) ==>
                  && |p.sells| == 1 && p.sells[0].quantity == t.exitQuantity
                  && if SoldInParts(t) then
                       p.sells[0].price * t.exitQuantity as real - p.sells[0].fee - Paid(t) == t.pnl.value
                     else
                       p.sells[0].price == t.exitPrice.value
                       && p.sells[0].fee == SellCharge(ExitAmount(t)))
            && (!LegsReadable(t) && !OnlyTotalReadable(t) ==> p.sells == [])
  {
    hide LegRows, UsableLegs, SellRow, BuyRow, Proceeds, Cost, AtExitPrice, SellCharge, BuyCharge, Paid, EntryAmount,
         ReconstructedSell, LegAmount, ActualStop, InitialRisk, SoldOnce, NeedsReconstruction;
    BuyRowIs(t);
    ReadableRows(t);
    PartsAreReconstructed(t);
    RowsAreTheLegs(t.legs);
    if OnlyTotalReadable(t) {
      WholeSale(t);
      if SoldInParts(t) { NetsTheResult(t); }
    }
  }

  lemma NetsTheResult(t: Trade)
    requires t.pnl.Some? && t.exitQuantity > 0
    ensures var row := ReconstructedSell(t.pnl.value, Cost(BuyRow(t)), t.exitQuantity);
            && row.quantity == t.exitQuantity
            && row.price * t.exitQuantity as real - row.fee - Paid(t) == t.pnl.value
  {
    hide BuyRow, Cost, Paid, Gross, Quantize;
    BuyRowIs(t);
  }

  /** A recorded result stands; without one the rows give it; an open trade, or one without a sale, has none. */
  lemma ResultByTable(t: Trade, state: ExitState, ambiguous: bool, sha: string)
    ensures var p := Export(t, state, ambiguous, sha);
            p.netPnl == if !Finished(t) || (!LegsReadable(t) && !OnlyTotalReadable(t)) then None
                        else if t.pnl.Some? then t.pnl
                        else if LegsReadable(t) then Some(Received(t.legs) - Paid(t))
                        else Some(AtExitPrice(t))
    ensures var p := Export(t, state, ambiguous, sha);
            && p.id == t.id && p.sha == sha && (p.closed <==> Finished(t)) && p.lastExit == t.lastExit
            && p.cohort == (match t.snapshot case Some(s) => s.cohort case None => "legacy-unmeasured")
            && (p.riskMode <==> t.snapshot.Some? && t.snapshot.value.riskMode)
  {
    hide LegRows, UsableLegs, SellRow, BuyRow, Proceeds, Cost, AtExitPrice, ReconstructedSell, Received, ActualStop,
         InitialRisk, SoldOnce, NeedsReconstruction, Paid;
    ReadableRows(t);
    PartsAreReconstructed(t);
    RowsBringInTheLegs(t.legs);
    BuyRowIs(t);
    if OnlyTotalReadable(t) {
      WholeSale(t);
      OneRow(SellRow(t.exitPrice.value, t.exitQuantity));
    }
  }

  /** Confirmed values first; then, while the trade is open, those of the exit manager; then the planned stop,
      and the risk it puts on the exported entry. */
  lemma RiskByTable(t: Trade, state: ExitState, ambiguous: bool, sha: string)
    ensures var p := Export(t, state, ambiguous, sha);
            match t.snapshot
            case None => p.actualStop == None && p.initialRisk == None && p.stopPct == None
            case Some(s) =>
              && p.stopPct == s.stopPct
              && p.actualStop == (if s.actualStop.Some? then s.actualStop
                                  else if !Finished(t) && state.actualStop.Some? then state.actualStop else s.stopPct)
              && p.initialRisk == (if s.initialRisk.Some? then s.initialRisk
                                   else if !Finished(t) && state.initialRisk.Some? then state.initialRisk
                                   else if p.actualStop.Some? && p.actualStop.value > 0.0 && EntryAmount(t) > 0.0
                                   then Some(StopShare(EntryAmount(t), p.actualStop.value)) else None)
  {
    hide SellRows, BuyRow, NotionalOf, StatedPnl, EntryAmount, StopShare, QuantityOf;
    BuyRowIs(t);
    OneRow(BuyRow(t));
    EntryHasShares(t);
    assert NotionalOf([BuyRow(t)]) == EntryAmount(t);
  }

  /** A stop of as many per cent. */
  lemma StopShareIs(cost: real, stop: real)
    ensures StopShare(cost, stop) * 100.0 == cost * stop
  {
  }

  lemma EntryHasShares(t: Trade)
    ensures QuantityOf([BuyRow(t)]) == BuyRow(t).quantity
    ensures EntryAmount(t) > 0.0 ==> BuyRow(t).quantity > 0
  {
    hide BuyRow, EntryAmount;
    BuyRowIs(t);
    assert [BuyRow(t)][..0] == [];
    assert QuantityOf([]) == 0;
    NothingOfNone(BuyRow(t).price, BuyRow(t).quantity);
  }

  lemma NothingOfNone(price: real, quantity: nat)
    ensures quantity == 0 ==> Amount(price, quantity) == 0.0
  {
  }

  /** A snapshot not confirmed yet takes a positive risk, a positive stop, and shares and cost of the fills; one
      that is, or fills or values that confirm nothing, leave it as it was. */
  lemma MergedByTable(s: Snapshot, amount: Option<real>, stop: Option<real>, fills: seq<Row>)
    ensures var m := Merge(s, amount, stop, fills);
            var confirms := && s.initialRisk == None && amount.Some? && amount.value > 0.0
                            && stop.Some? && stop.value > 0.0 && exists f :: f in fills && f.quantity > 0;
            && m.cohort == s.cohort && m.riskMode == s.riskMode && m.stopPct == s.stopPct
            && if confirms then
                 m.initialRisk == amount && m.actualStop == stop && m.filledQuantity == QuantityOf(fills)
                 && m.entryCost == Some(NotionalOf(fills))
               else m == s
  {
    hide QuantityOf, NotionalOf;
    SomeQuantity(fills);
  }

  lemma {:induction false} SomeQuantity(fills: seq<Row>)
    ensures QuantityOf(fills) > 0 <==> exists f :: f in fills && f.quantity > 0
  {
    if fills != [] {
      var init, last := fills[..|fills| - 1], fills[|fills| - 1];
      assert fills == init + [last];
      SomeQuantity(init);
      if last.quantity > 0 { assert last in fills; }
    }
  }

  // ---- why a position is left out -----------------------------------------------------------------------------

  /** The condition of each exclusion, whatever else holds. */
  predicate Applies(p: Position, cohort: string, sha: Option<string>, asOf: Option<int>, e: Exclusion) {
    match e
    case CohortMismatch => p.cohort != cohort || (sha.Some? && sha.value != p.sha)
    case LegacyUnmeasured => !p.riskMode
    case StillOpen => !p.closed || (asOf.Some? && (p.lastExit.Some? ==> asOf.value < p.lastExit.value))
    case LotsAmbiguous => p.lotsAmbiguous
    case MissingInitialRisk => p.initialRisk.Some? ==> p.initialRisk.value <= 0.0
  }

  const EXCLUSIONS: seq<Exclusion> := [CohortMismatch, LegacyUnmeasured, StillOpen, LotsAmbiguous, MissingInitialRisk]

  /** A position is left out for the first exclusion of the documented order that applies, and judged when none
      does. */
  lemma ExcludedByTable(p: Position, cohort: string, sha: Option<string>, asOf: Option<int>) returns (first: nat)
    ensures first <= |EXCLUSIONS|
    ensures forall k :: 0 <= k < first ==> !Applies(p, cohort, sha, asOf, EXCLUSIONS[k])
    ensures first < |EXCLUSIONS| ==> Applies(p, cohort, sha, asOf, EXCLUSIONS[first])
    ensures Classify(p, cohort, sha, asOf) == if first < |EXCLUSIONS| then Some(EXCLUSIONS[first]) else None
  {
    match Classify(p, cohort, sha, asOf)
    case Some(CohortMismatch) => first := 0;
    case Some(LegacyUnmeasured) => first := 1;
    case Some(StillOpen) => first := 2;
    case Some(LotsAmbiguous) => first := 3;
    case Some(MissingInitialRisk) => first := 4;
    case None => first := 5;
  }
}
