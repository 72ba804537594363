/** The price history a backtest reads: daily bars per symbol, with the indicator columns as
    fields of the bar they are stored on, and the market regime of each day.  Days are ordinals,
    so the textual date order of the program is the order of the integers. */
module Market {
  import opened Basics

  datatype Regime = Bullish | Neutral | Bearish

  /** One row of a symbol's frame. A missing or NaN indicator is `None`; the entry scores, which
      the program computes from the columns of the row alone, are columns too. */
  datatype Bar = Bar(open: real, high: real, low: real, close: real,
                     atrPct: Option<real>, low10: Option<real>, low20: Option<real>,
                     ma5: Option<real>, prevLow: Option<real>,
                     sepaScore: real, rsi2Score: real, coreScore: real)

  datatype Tape = Tape(bars: map<(string, int), Bar>, regime: int -> Regime)

  /** A bar together with the day it belongs to (the row's index label). */
  datatype DatedBar = DatedBar(day: int, bar: Bar)

  /** get_row_on_date: the bar of exactly that day. */
  function RowOn(tape: Tape, symbol: string, day: int): Option<Bar> {
    if (symbol, day) in tape.bars then Some(tape.bars[(symbol, day)]) else None
  }

  /** get_data: the last bar on or before the day. */
  function LastBar(tape: Tape, symbol: string, day: int): Option<DatedBar>
    decreases if day < 0 then 0 else day + 1
  {
    if day < 0 then None
    else if (symbol, day) in tape.bars then Some(DatedBar(day, tape.bars[(symbol, day)]))
    else LastBar(tape, symbol, day - 1)
  }

  /** get_last_bar_before: the last bar strictly before the day. */
  function LastBarBefore(tape: Tape, symbol: string, day: int): Option<DatedBar> {
    LastBar(tape, symbol, day - 1)
  }

  /** Two histories tell the same story on every day before `day`. */
  ghost predicate AgreeBefore(a: Tape, b: Tape, day: int) {
    && (forall symbol: string, t: int :: t < day ==> RowOn(a, symbol, t) == RowOn(b, symbol, t))
    && (forall t: int :: t < day ==> a.regime(t) == b.regime(t))
  }

  /** On `day` itself only two things are shared: which symbols trade, and at what open. */
  ghost predicate AgreeOpens(a: Tape, b: Tape, day: int) {
    forall symbol: string ::
      match (RowOn(a, symbol, day), RowOn(b, symbol, day))
      case (Some(x), Some(y)) => x.open == y.open
      case (None, None) => true
      case _ => false
  }

  /** What was known before a day is the same whatever came later. */
  lemma {:induction false} LastBarAgrees(a: Tape, b: Tape, symbol: string, day: int, horizon: int)
    requires AgreeBefore(a, b, horizon) && day < horizon
    ensures LastBar(a, symbol, day) == LastBar(b, symbol, day)
    decreases if day < 0 then 0 else day + 1
  {
    if day >= 0 {
      assert RowOn(a, symbol, day) == RowOn(b, symbol, day);
      LastBarAgrees(a, b, symbol, day - 1, horizon);
    }
  }

  /** The last bar is never younger than the day asked for. */
  lemma {:induction false} LastBarIsPast(tape: Tape, symbol: string, day: int)
    ensures LastBar(tape, symbol, day).Some? ==> LastBar(tape, symbol, day).value.day <= day
    decreases if day < 0 then 0 else day + 1
  {
    if day >= 0 {
      LastBarIsPast(tape, symbol, day - 1);
    }
  }

  ghost predicate BarNonNegative(bar: Bar) {
    bar.open >= 0.0 && bar.high >= 0.0 && bar.low >= 0.0 && bar.close >= 0.0
  }

  /** No price on the tape is negative. */
  ghost predicate TapeNonNegative(tape: Tape) {
    forall key :: key in tape.bars ==> BarNonNegative(tape.bars[key])
  }

  lemma {:induction false} LastBarNonNegative(tape: Tape, symbol: string, day: int)
    requires TapeNonNegative(tape)
    ensures LastBar(tape, symbol, day).Some? ==> BarNonNegative(LastBar(tape, symbol, day).value.bar)
    decreases if day < 0 then 0 else day + 1
  {
    if day >= 0 {
      LastBarNonNegative(tape, symbol, day - 1);
    }
  }
}
