/** Best first: how orders and signals are ranked, which of a day's orders get the slots, and which signals
    become orders. */
module Ranking {
  import opened Basics
  import opened Market
  import opened Config
  import opened Engine
  import LookAhead
  import opened LimitsOverRuns

  // ---- the ranking ----------------------------------------------------------------------------------------

  ghost predicate BestFirst(orders: seq<Order>) {
    forall i, j :: 0 <= i < j < |orders| ==> orders[i].score >= orders[j].score
  }

  /** The orders of one score, in the order they came. */
  function WithScore(orders: seq<Order>, score: real): seq<Order> {
    if orders == [] then []
    else
      var last := orders[|orders| - 1];
      WithScore(orders[..|orders| - 1], score) + if last.score == score then [last] else []
  }

  lemma WithScoreSnoc(orders: seq<Order>, o: Order, score: real)
    ensures WithScore(orders + [o], score) == WithScore(orders, score) + if o.score == score then [o] else []
  {
    assert (orders + [o])[..|orders|] == orders;
  }

  lemma {:induction false} InsertAdds(sorted: seq<Order>, order: Order, o: Order)
    ensures o in InsertByScore(sorted, order) ==> o in sorted || o == order
  {
    if sorted != [] {
      InsertAdds(sorted[..|sorted| - 1], order, o);
    }
  }

  lemma {:induction false} InsertRanks(sorted: seq<Order>, order: Order)
    requires BestFirst(sorted)
    ensures BestFirst(InsertByScore(sorted, order))
  {
    if sorted != [] && sorted[|sorted| - 1].score < order.score {
      var init, last := sorted[..|sorted| - 1], sorted[|sorted| - 1];
      InsertRanks(init, order);
      var shorter := InsertByScore(init, order);
      forall i | 0 <= i < |shorter| ensures shorter[i].score >= last.score {
        InsertAdds(init, order, shorter[i]);
      }
      AppendWorst(shorter, last);
    }
  }

  lemma AppendWorst(orders: seq<Order>, last: Order)
    requires BestFirst(orders) && forall i :: 0 <= i < |orders| ==> orders[i].score >= last.score
    ensures BestFirst(orders + [last])
  {
  }

  lemma OneIsEmpty<T>(a: seq<T>, b: seq<T>, c: seq<T>)
    requires b == [] || c == []
    ensures a + b + c == a + c + b
  {
  }

  lemma {:induction false} InsertIsStable(sorted: seq<Order>, order: Order, score: real)
    ensures WithScore(InsertByScore(sorted, order), score)
            == WithScore(sorted, score) + if order.score == score then [order] else []
  {
    hide WithScore;
    WithScoreSnoc(sorted, order, score);
    if sorted == [] {
      assert sorted + [order] == [order];
    } else {
      var init, last := sorted[..|sorted| - 1], sorted[|sorted| - 1];
      if last.score < order.score {
        assert sorted == init + [last];
        InsertIsStable(init, order, score);
        WithScoreSnoc(init, last, score);
        WithScoreSnoc(InsertByScore(init, order), last, score);
        OneIsEmpty(WithScore(init, score), if last.score == score then [last] else [],
                   if order.score == score then [order] else []);
      }
    }
  }

  /** Sorting puts the best first, keeps every order, and keeps the order of arrival among equals. */
  lemma {:induction false} SortRanks(orders: seq<Order>)
    ensures BestFirst(SortByScore(orders))
    ensures multiset(SortByScore(orders)) == multiset(orders)
    ensures forall score :: WithScore(SortByScore(orders), score) == WithScore(orders, score)
  {
    if orders != [] {
      hide InsertByScore;
      var init, last := orders[..|orders| - 1], orders[|orders| - 1];
      assert orders == init + [last];
      SortRanks(init);
      InsertRanks(SortByScore(init), last);
      LookAhead.InsertElements(SortByScore(init), last);
      forall score ensures WithScore(SortByScore(orders), score) == WithScore(orders, score) {
        InsertIsStable(SortByScore(init), last, score);
      }
    }
  }

  lemma SortedMember(orders: seq<Order>, o: Order)
    ensures o in SortByScore(orders) <==> o in orders
  {
    SortRanks(orders);
    assert o in multiset(SortByScore(orders)) <==> o in multiset(orders);
  }

  // ---- who gets the slots -----------------------------------------------------------------------------------

  /** Two orders that draw on the same slots. */
  predicate SamePool(a: Order, b: Order) {
    a.strategy.Core? <==> b.strategy.Core?
  }

  lemma {:induction false} CountersGrow(cfg: BacktestConfig, tape: Tape, day: int, useClose: bool, desk: Desk,
                                        orders: seq<Order>)
    ensures match ExecuteOrders(cfg, tape, day, useClose, desk, orders)
            case None => true
            case Some(d) => d.shortUsed >= desk.shortUsed && d.coreUsed >= desk.coreUsed
  {
    if orders != [] {
      hide Opening, Skipped, Untimely;
      CountersGrow(cfg, tape, day, useClose, desk, orders[..|orders| - 1]);
    }
  }

  lemma {:induction false} OrdersSplit(cfg: BacktestConfig, tape: Tape, day: int, useClose: bool, desk: Desk,
                                       first: seq<Order>, rest: seq<Order>)
    ensures ExecuteOrders(cfg, tape, day, useClose, desk, first + rest)
            == match ExecuteOrders(cfg, tape, day, useClose, desk, first)
               case None => None
               case Some(d) => ExecuteOrders(cfg, tape, day, useClose, d, rest)
  {
    hide ExecuteOrder;
    if rest == [] {
      assert first + rest == first;
    } else {
      var init := rest[..|rest| - 1];
      assert (first + rest)[..|first + rest| - 1] == first + init;
      OrdersSplit(cfg, tape, day, useClose, desk, first, init);
    }
  }

  /** The desk the `j`-th order finds has no slot for it. */
  ghost predicate FoundNoSlot(cfg: BacktestConfig, tape: Tape, day: int, useClose: bool, start: Desk,
                              orders: seq<Order>, j: nat) {
    && j < |orders|
    && var desk := ExecuteOrders(cfg, tape, day, useClose, start, orders[..j]);
       desk.Some? && SlotsFull(cfg, desk.value, orders[j].strategy)
  }

  /** Slots that are full stay full, so an order filled was looked at before one of its pool that found none. */
  lemma FilledBeforeFull(cfg: BacktestConfig, tape: Tape, day: int, useClose: bool, start: Desk, orders: seq<Order>,
                         i: nat, j: nat, p: Exits.Pos)
    requires FillsAt(cfg, tape, day, useClose, start, orders, i, p)
    requires FoundNoSlot(cfg, tape, day, useClose, start, orders, j) && SamePool(orders[i], orders[j])
    ensures i < j < |orders|
  {
    hide Opening, Untimely;
    if j <= i {
      var desk := ExecuteOrders(cfg, tape, day, useClose, start, orders[..j]).value;
      assert orders[..i] == orders[..j] + orders[j..i];
      OrdersSplit(cfg, tape, day, useClose, start, orders[..j], orders[j..i]);
      CountersGrow(cfg, tape, day, useClose, desk, orders[j..i]);
    }
  }

  /** On every day of every run: where an order finds no slot, each order of its pool filled in the same loop
      scores at least as much. */
  lemma SlotsGoToTheBest(cfg: BacktestConfig, universe: Universe, tape: Tape, initial: real, days: seq<int>, k: nat,
                         useClose: bool, i: nat, j: nat, p: Exits.Pos)
    requires k < |days|
    requires var st := BeforeFills(cfg, universe, tape, initial, days, k, useClose);
             && st.Some?
             && var orders := SortByScore(st.value.pending);
                && FillsAt(cfg, tape, days[k], useClose, OpeningDesk(cfg, st.value), orders, i, p)
                && FoundNoSlot(cfg, tape, days[k], useClose, OpeningDesk(cfg, st.value), orders, j)
                && SamePool(orders[i], orders[j])
    ensures var orders := SortByScore(BeforeFills(cfg, universe, tape, initial, days, k, useClose).value.pending);
            i < j && orders[i].score >= orders[j].score
  {
    hide BeforeFills, FillsAt, FoundNoSlot;
    var st := BeforeFills(cfg, universe, tape, initial, days, k, useClose).value;
    SortRanks(st.pending);
    FilledBeforeFull(cfg, tape, days[k], useClose, OpeningDesk(cfg, st), SortByScore(st.pending), i, j, p);
  }

  // ---- which signals become orders ----------------------------------------------------------------------------

  ghost predicate DistinctSymbols(orders: seq<Order>) {
    forall i, j :: 0 <= i < j < |orders| ==> orders[i].symbol != orders[j].symbol
  }

  /** A signal that was not taken: its symbol was, with no lower score, or the seats went to others no worse. */
  ghost predicate Outdone(chosen: seq<Order>, seats: real, s: Order) {
    || (exists c :: c in chosen && c.symbol == s.symbol && c.score >= s.score)
    || (|chosen| as real >= seats && forall c :: c in chosen ==> c.score >= s.score)
  }

  /** As many as there are seats, the last fraction of a seat counting as one. */
  ghost predicate WithinSeats(chosen: seq<Order>, seats: real) {
    chosen != [] ==> |chosen| as real - 1.0 < seats
  }

  ghost predicate BestChoice(signals: seq<Order>, chosen: seq<Order>, seats: real) {
    && DistinctSymbols(chosen) && WithinSeats(chosen, seats)
    && (forall c :: c in chosen ==> c in signals)
    && (forall s :: s in signals ==> s in chosen || Outdone(chosen, seats, s))
  }

  ghost predicate Picked(picks: Picks, seats: real) {
    && picks.available == seats - |picks.chosen| as real
    && (forall c :: c in picks.chosen ==> c.symbol in picks.seen)
    && (forall symbol :: symbol in picks.seen ==> exists c :: c in picks.chosen && c.symbol == symbol)
  }

  lemma {:induction false} PickIsBest(seats: real, signals: seq<Order>)
    requires BestFirst(signals)
    ensures BestChoice(signals, Pick(seats, signals).chosen, seats) && Picked(Pick(seats, signals), seats)
  {
    if signals != [] {
      var init, sig := signals[..|signals| - 1], signals[|signals| - 1];
      assert signals == init + [sig];
      PickIsBest(seats, init);
      var before := Pick(seats, init);
      forall c | c in before.chosen ensures c.score >= sig.score {
        assert c in init;
      }
      PickOneIsBest(seats, init, before, sig);
    }
  }

  lemma PickOneIsBest(seats: real, signals: seq<Order>, before: Picks, sig: Order)
    requires BestChoice(signals, before.chosen, seats) && Picked(before, seats)
    requires forall c :: c in before.chosen ==> c.score >= sig.score
    ensures BestChoice(signals + [sig], PickOne(before, sig).chosen, seats) && Picked(PickOne(before, sig), seats)
  {
    var after := PickOne(before, sig);
    forall s | s in signals + [sig] ensures s in after.chosen || Outdone(after.chosen, seats, s) {
      if s in signals && s !in before.chosen {
        assert Outdone(before.chosen, seats, s);
      }
    }
  }

  /** What a signal of the day is made of: the last bar up to the day, its close and date, its score. */
  ghost predicate SignalOf(o: Order, dated: DatedBar, day: int, score: real) {
    && o.score == score && o.signalClose == Some(dated.bar.close)
    && o.signalDate == Some(day) && o.indicatorAsof == Some(dated.day)
  }

  /** A short-term signal the day admits: a listed symbol, neither held nor waiting, of a strategy that is on,
      scored at least its minimum; no SEPA signals in a bear market. */
  ghost predicate AdmitsShort(cfg: BacktestConfig, tape: Tape, day: int, skip: set<string>, tickers: seq<string>,
                              o: Order) {
    && o.symbol in tickers && o.symbol !in skip
    && match LastBar(tape, o.symbol, day)
       case None => false
       case Some(dated) =>
         match o.strategy
         case Sepa =>
           && cfg.sepaOn && tape.regime(day) != Bearish && o.score >= cfg.sepaMinScore
           && SignalOf(o, dated, day, dated.bar.sepaScore)
         case Rsi2 => cfg.rsi2On && o.score >= cfg.rsi2MinScore && SignalOf(o, dated, day, dated.bar.rsi2Score)
         case Core => false
  }

  ghost predicate AdmitsCore(cfg: BacktestConfig, tape: Tape, day: int, skip: set<string>, tickers: seq<string>,
                             o: Order) {
    && o.symbol in tickers && o.symbol !in skip && o.strategy.Core?
    && match LastBar(tape, o.symbol, day)
       case None => false
       case Some(dated) => o.score >= cfg.coreMinScore && SignalOf(o, dated, day, dated.bar.coreScore)
  }

  lemma {:induction false} ShortSignalsAre(cfg: BacktestConfig, tape: Tape, day: int, skip: set<string>,
                                           tickers: seq<string>, o: Order)
    ensures o in ShortSignals(cfg, tape, day, skip, tickers) <==> AdmitsShort(cfg, tape, day, skip, tickers, o)
  {
    if tickers != [] {
      var init, last := tickers[..|tickers| - 1], tickers[|tickers| - 1];
      assert tickers == init + [last];
      ShortSignalsAre(cfg, tape, day, skip, init, o);
      ShortSignalsOfOne(cfg, tape, day, skip, last, o);
    }
  }

  lemma ShortSignalsOfOne(cfg: BacktestConfig, tape: Tape, day: int, skip: set<string>, ticker: string, o: Order)
    ensures o in ShortSignalsOf(cfg, tape, day, skip, ticker) <==> AdmitsShort(cfg, tape, day, skip, [ticker], o)
  {
  }

  lemma {:induction false} CoreSignalsAre(cfg: BacktestConfig, tape: Tape, day: int, skip: set<string>,
                                          tickers: seq<string>, o: Order)
    ensures o in CoreSignals(cfg, tape, day, skip, tickers) <==> AdmitsCore(cfg, tape, day, skip, tickers, o)
  {
    if tickers != [] {
      var init, last := tickers[..|tickers| - 1], tickers[|tickers| - 1];
      assert tickers == init + [last];
      CoreSignalsAre(cfg, tape, day, skip, init, o);
    }
  }

  /** Neither waiting nor held. */
  function Taken(st: State): set<string> {
    (set o | o in st.pending :: o.symbol) + (set p | p in st.positions && p.remaining > 0 :: p.entry.symbol)
  }

  lemma TakenIs(st: State)
    ensures Symbols(st.pending) + HeldSymbols(st.positions) == Taken(st)
  {
  }

  /** The short-term orders of a day are its best admissible signals, one per symbol, as many as there are
      seats. */
  lemma ShortPicksAreTheBest(cfg: BacktestConfig, universe: Universe, tape: Tape, day: int, st: State)
    ensures var picks := ShortPicks(cfg, universe, tape, day, st);
            var seats := MaxShort(cfg) - CountHeld(st.positions, false) as real;
            && DistinctSymbols(picks) && WithinSeats(picks, seats) && BestFirst(picks)
            && (forall o :: o in picks ==> AdmitsShort(cfg, tape, day, Taken(st), universe.tickers, o))
            && (forall o :: AdmitsShort(cfg, tape, day, Taken(st), universe.tickers, o) ==>
                  o in picks || Outdone(picks, seats, o))
  {
    hide AdmitsShort, Outdone, ShortSignals, SortByScore, Pick, Taken, CountHeld;
    var seats := MaxShort(cfg) - CountHeld(st.positions, false) as real;
    var signals := ShortSignals(cfg, tape, day, Taken(st), universe.tickers);
    var picks := ShortPicks(cfg, universe, tape, day, st);
    TakenIs(st);
    forall o ensures o in SortByScore(signals) <==> AdmitsShort(cfg, tape, day, Taken(st), universe.tickers, o) {
      ShortSignalsAre(cfg, tape, day, Taken(st), universe.tickers, o);
      SortedMember(signals, o);
    }
    SortRanks(signals);
    PickIsBest(seats, SortByScore(signals));
    PickKeepsOrder(seats, SortByScore(signals));
    if seats <= 0.0 {
      forall o ensures Outdone(picks, seats, o) { NobodyChosen(seats, o); }
    }
  }

  lemma NobodyChosen(seats: real, o: Order)
    requires seats <= 0.0
    ensures Outdone([], seats, o)
  {
  }

  lemma {:induction false} PickKeepsOrder(seats: real, signals: seq<Order>)
    requires BestFirst(signals)
    ensures BestFirst(Pick(seats, signals).chosen) && forall c :: c in Pick(seats, signals).chosen ==> c in signals
  {
    if signals != [] {
      var init := signals[..|signals| - 1];
      PickKeepsOrder(seats, init);
      var sig := signals[|signals| - 1];
      assert signals == init + [sig];
      var before := Pick(seats, init).chosen;
      forall i | 0 <= i < |before| ensures before[i].score >= sig.score {
        assert before[i] in init;
      }
      AppendWorst(before, sig);
    }
  }

  /** The core orders of a day: none but on a month's first trading day; then the best admissible, as many as
      there are seats. */
  lemma CorePicksAreTheBest(cfg: BacktestConfig, universe: Universe, tape: Tape, day: int, st: State)
    ensures var picks := CorePicks(cfg, universe, tape, day, st);
            var seats := cfg.maxPositionsCore - CountHeld(st.positions, true);
            if !cfg.coreOn || !MonthStart(universe, tape, day) || seats <= 0 then picks == []
            else
              && |picks| <= seats && BestFirst(picks)
              && (forall o :: o in picks ==> AdmitsCore(cfg, tape, day, Taken(st), universe.tickers, o))
              && (forall o :: AdmitsCore(cfg, tape, day, Taken(st), universe.tickers, o) ==>
                    o in picks || (|picks| == seats && forall c :: c in picks ==> c.score >= o.score))
  {
    hide AdmitsCore, CoreSignals, SortByScore, MonthStart, Taken, CountHeld;
    var seats := cfg.maxPositionsCore - CountHeld(st.positions, true);
    var sorted := SortByScore(CoreSignals(cfg, tape, day, Taken(st), universe.tickers));
    TakenIs(st);
    forall o ensures o in sorted <==> AdmitsCore(cfg, tape, day, Taken(st), universe.tickers, o) {
      CoreSignalsAre(cfg, tape, day, Taken(st), universe.tickers, o);
      SortedMember(CoreSignals(cfg, tape, day, Taken(st), universe.tickers), o);
    }
    SortRanks(CoreSignals(cfg, tape, day, Taken(st), universe.tickers));
    if seats > 0 { BestOfAll(sorted, seats); }
  }

  lemma BestOfAll(sorted: seq<Order>, seats: nat)
    requires BestFirst(sorted)
    ensures var picks := if |sorted| <= seats then sorted else sorted[..seats];
            && BestFirst(picks)
            && (forall o :: o in picks ==> o in sorted)
            && (forall o :: o in sorted ==>
                  o in picks || (|picks| == seats && forall c :: c in picks ==> c.score >= o.score))
  {
  }

  /** Two days of one month are not both its first trading day, if the sample symbol trades on the first. */
  lemma OneCoreDayAMonth(universe: Universe, tape: Tape, first: int, later: int)
    requires 0 <= first < later && universe.tickers != [] && RowOn(tape, universe.tickers[0], first).Some?
    requires forall day :: first <= day <= later ==> universe.monthOf(day) == universe.monthOf(first)
    ensures !MonthStart(universe, tape, later)
  {
    LastBarFrom(tape, universe.tickers[0], first, later - 1);
  }

  lemma {:induction false} LastBarFrom(tape: Tape, symbol: string, day: int, later: int)
    requires 0 <= day <= later && RowOn(tape, symbol, day).Some?
    ensures LastBar(tape, symbol, later).Some? && day <= LastBar(tape, symbol, later).value.day <= later
    decreases later
  {
    if later > day && (symbol, later) !in tape.bars { LastBarFrom(tape, symbol, day, later - 1); }
  }
}
