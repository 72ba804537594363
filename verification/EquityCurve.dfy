/** Two one-pass readings of the equity curve, against what they are meant to measure: the
    maximum drawdown over all pairs of days, and monthly returns that compound to the whole. */
module EquityCurve {
  import opened Basics

  type Curve = seq<(int, real)>

  ghost predicate Positive(curve: Curve) {
    forall i :: 0 <= i < |curve| ==> curve[i].1 > 0.0
  }

  // ---- maximum drawdown -----------------------------------------------------------------------

  /** Percentage change from an earlier to a later point. */
  function ChangePct(from: real, to: real): real
    requires from != 0.0
  {
    (to - from) / from * 100.0
  }

  /** Measured from a higher start, a fall is never smaller. */
  lemma HigherStartFallsFurther(low: real, high: real, to: real)
    requires 0.0 < low <= high && to > 0.0
    ensures ChangePct(high, to) <= ChangePct(low, to)
  {
    var a, b := to / high, to / low;
    assert a * high == to && b * low == to && b >= 0.0;
    MulMono(low, high, b);
    CancelFactor(a, b, high);
    ChangeIsRatio(high, to);
    ChangeIsRatio(low, to);
  }

  lemma CancelFactor(a: real, b: real, k: real)
    requires k > 0.0 && a * k <= b * k
    ensures a <= b
  {
  }

  lemma QuotientIs(n: real, d: real, q: real)
    requires d != 0.0 && q * d == n
    ensures n / d == q
  {
  }

  lemma ChangeIsRatio(from: real, to: real)
    requires from > 0.0
    ensures ChangePct(from, to) == (to / from - 1.0) * 100.0
  {
    var q := to / from;
    assert q * from == to;
    assert (q - 1.0) * from == to - from;
    QuotientIs(to - from, from, q - 1.0);
  }

  /** _calc_mdd. The running peak suffices: the result is the smallest change over all ordered
      pairs of days, and its dates are those of a pair that attains it. */
  method CalcMdd(curve: Curve) returns (mdd: real, start: Option<int>, end: Option<int>)
    requires Positive(curve)
    ensures forall i, j :: 0 <= i <= j < |curve| ==> mdd <= ChangePct(curve[i].1, curve[j].1)
    ensures mdd < 0.0 ==> exists i, j :: 0 <= i <= j < |curve| && mdd == ChangePct(curve[i].1, curve[j].1)
                                        && start == Some(curve[i].0) && end == Some(curve[j].0)
    ensures mdd >= 0.0 ==> mdd == 0.0 && start == None && end == None
  {
    mdd, start, end := 0.0, None, None;
    if curve == [] {
      return;
    }
    var peak, peakDate := curve[0].1, curve[0].0;
    ghost var top := 0;
    for k := 0 to |curve|
      invariant 0 <= top < |curve| && (k == 0 ==> top == 0) && (k > 0 ==> top < k)
      invariant peak == curve[top].1 && peakDate == curve[top].0
      invariant forall i :: 0 <= i < k ==> curve[i].1 <= peak
      invariant forall i, j :: 0 <= i <= j < k ==> mdd <= ChangePct(curve[i].1, curve[j].1)
      invariant mdd <= 0.0
      invariant mdd == 0.0 ==> start == None && end == None
      invariant mdd < 0.0 ==> exists i, j :: 0 <= i <= j < k && mdd == ChangePct(curve[i].1, curve[j].1)
                                            && start == Some(curve[i].0) && end == Some(curve[j].0)
    {
      hide ChangePct;
      var (date, eq) := curve[k];
      if eq > peak {
        peak, peakDate := eq, date;
        top := k;
      }
      var dd := ChangePct(peak, eq);
      forall i | 0 <= i <= k
        ensures dd <= ChangePct(curve[i].1, curve[k].1)
      {
        HigherStartFallsFurther(curve[i].1, peak, eq);
      }
      if dd < mdd {
        mdd, start, end := dd, Some(peakDate), Some(date);
        assert mdd == ChangePct(curve[top].1, curve[k].1) && start == Some(curve[top].0) && end == Some(curve[k].0);
      }
    }
  }

  // ---- monthly returns ------------------------------------------------------------------------

  /** A dict of returns by month, in insertion order. */
  type Returns = seq<(int, real)>

  function IndexOf(rets: Returns, month: int): (i: int)
    ensures -1 <= i < |rets|
    ensures i >= 0 ==> rets[i].0 == month
    ensures i < 0 ==> forall j :: 0 <= j < |rets| ==> rets[j].0 != month
  {
    if rets == [] then -1
    else if rets[|rets| - 1].0 == month then |rets| - 1
    else IndexOf(rets[..|rets| - 1], month)
  }

  function Assign(rets: Returns, month: int, value: real): Returns {
    var i := IndexOf(rets, month);
    if i >= 0 then rets[i := (month, value)] else rets + [(month, value)]
  }

  /** The loop state: finished months, equity at the start of the current one, current month. */
  datatype Months = Months(done: Returns, start: real, current: int)

  function Advance(m: Months, month: int, eq: real): Months
    requires m.start != 0.0
  {
    if month != m.current
    then Months(Assign(m.done, m.current, ChangePct(m.start, eq)), eq, month)
    else m
  }

  function Walk(curve: Curve, monthOf: int -> int, k: nat): (m: Months)
    requires 0 < |curve| && k <= |curve| && Positive(curve)
    ensures m.start > 0.0
  {
    if k == 0 then Months([], curve[0].1, monthOf(curve[0].0))
    else Advance(Walk(curve, monthOf, k - 1), monthOf(curve[k - 1].0), curve[k - 1].1)
  }

  function MonthlyReturnsOf(curve: Curve, monthOf: int -> int): Returns
    requires Positive(curve)
  {
    if curve == [] then []
    else
      var m := Walk(curve, monthOf, |curve|);
      Assign(m.done, m.current, ChangePct(m.start, curve[|curve| - 1].1))
  }

  method MonthlyReturns(curve: Curve, monthOf: int -> int) returns (monthly: Returns)
    requires Positive(curve)
    ensures monthly == MonthlyReturnsOf(curve, monthOf)
  {
    hide ChangePct, Assign;
    if curve == [] {
      return [];
    }
    monthly := [];
    var start, current := curve[0].1, monthOf(curve[0].0);
    for k := 0 to |curve|
      invariant Walk(curve, monthOf, k) == Months(monthly, start, current)
    {
      var (date, eq) := curve[k];
      var month := monthOf(date);
      if month != current {
        monthly := Assign(monthly, current, ChangePct(start, eq));
        start, current := eq, month;
      }
    }
    monthly := Assign(monthly, current, ChangePct(start, curve[|curve| - 1].1));
  }

  /** The growth factor of a percentage return. */
  function Factor(pct: real): real {
    1.0 + pct / 100.0
  }

  /** The growth factor a dict of returns compounds to. */
  function Compounded(rets: Returns): real {
    if rets == [] then 1.0
    else Compounded(rets[..|rets| - 1]) * Factor(rets[|rets| - 1].1)
  }

  ghost predicate DateSorted(curve: Curve, monthOf: int -> int) {
    && (forall i, j :: 0 <= i <= j < |curve| ==> curve[i].0 <= curve[j].0)
    && (forall a, b :: a <= b ==> monthOf(a) <= monthOf(b))
  }

  ghost predicate MonthsBefore(rets: Returns, month: int) {
    forall i :: 0 <= i < |rets| ==> rets[i].0 < month
  }

  ghost predicate MonthsIncreasing(rets: Returns) {
    forall i, j :: 0 <= i < j < |rets| ==> rets[i].0 < rets[j].0
  }

  lemma AssignNew(rets: Returns, month: int, value: real)
    requires MonthsBefore(rets, month)
    ensures Assign(rets, month, value) == rets + [(month, value)]
    ensures Compounded(Assign(rets, month, value)) == Compounded(rets) * Factor(value)
  {
    assert (rets + [(month, value)])[..|rets|] == rets;
  }

  lemma NextMonth(rets: Returns, month: int, value: real, next: int)
    requires MonthsIncreasing(rets) && MonthsBefore(rets, month) && month <= next
    ensures MonthsIncreasing(rets + [(month, value)])
    ensures month < next ==> MonthsBefore(rets + [(month, value)], next)
  {
  }

  /** `growth` takes `first` to `value`. */
  ghost predicate Grows(first: real, growth: real, value: real) {
    growth * first == value
  }

  lemma Telescopes(growth: real, first: real, start: real, eq: real, next: real)
    requires start > 0.0 && Grows(first, growth, start)
    requires next == growth * Factor(ChangePct(start, eq))
    ensures Grows(first, next, eq)
  {
    ChangeIsRatio(start, eq);
    var ratio := eq / start;
    assert Factor(ChangePct(start, eq)) == ratio;
    assert ratio * start == eq;
    assert growth * ratio * first == ratio * (growth * first);
  }

  ghost predicate MonthsSound(first: real, m: Months) {
    MonthsIncreasing(m.done) && MonthsBefore(m.done, m.current) && Grows(first, Compounded(m.done), m.start)
  }

  lemma AdvanceCompounds(first: real, m: Months, month: int, eq: real)
    requires m.start > 0.0 && m.current <= month && MonthsSound(first, m)
    ensures MonthsSound(first, Advance(m, month, eq)) && Advance(m, month, eq).current == month
  {
    hide ChangePct, Grows, Factor, Assign, Compounded, MonthsBefore, MonthsIncreasing;
    if month != m.current {
      var value := ChangePct(m.start, eq);
      AssignNew(m.done, m.current, value);
      NextMonth(m.done, m.current, value, month);
      Telescopes(Compounded(m.done), first, m.start, eq, Compounded(Advance(m, month, eq).done));
    }
  }

  /** `k` points in, the finished months compound to the equity the current month starts from. */
  lemma {:induction false} WalkCompounds(curve: Curve, monthOf: int -> int, k: nat)
    requires 0 < |curve| && k <= |curve| && Positive(curve) && DateSorted(curve, monthOf)
    ensures MonthsSound(curve[0].1, Walk(curve, monthOf, k))
    ensures Walk(curve, monthOf, k).current == monthOf(curve[if k == 0 then 0 else k - 1].0)
  {
    if k > 0 {
      hide MonthsSound, Advance;
      WalkCompounds(curve, monthOf, k - 1);
      assert curve[if k == 1 then 0 else k - 2].0 <= curve[k - 1].0;
      AdvanceCompounds(curve[0].1, Walk(curve, monthOf, k - 1), monthOf(curve[k - 1].0), curve[k - 1].1);
    }
  }

  /** The monthly returns of a date-sorted positive curve compound exactly to the return of the
      whole curve, month after month, none twice. */
  lemma MonthlyReturnsCompound(curve: Curve, monthOf: int -> int)
    requires curve != [] && Positive(curve) && DateSorted(curve, monthOf)
    ensures var monthly := MonthlyReturnsOf(curve, monthOf);
      && Compounded(monthly) == curve[|curve| - 1].1 / curve[0].1
      && MonthsIncreasing(monthly)
  {
    hide ChangePct, Factor, Compounded, Assign, Walk;
    WalkCompounds(curve, monthOf, |curve|);
    var m := Walk(curve, monthOf, |curve|);
    var last := curve[|curve| - 1].1;
    AssignNew(m.done, m.current, ChangePct(m.start, last));
    NextMonth(m.done, m.current, ChangePct(m.start, last), m.current);
    Telescopes(Compounded(m.done), curve[0].1, m.start, last, Compounded(MonthlyReturnsOf(curve, monthOf)));
    var monthly := MonthlyReturnsOf(curve, monthOf);
    QuotientIs(last, curve[0].1, Compounded(monthly));
  }

  ghost predicate MonthsDistinct(rets: Returns) {
    forall i, j :: 0 <= i < j < |rets| ==> rets[i].0 != rets[j].0
  }

  lemma AssignKeepsDistinct(rets: Returns, month: int, value: real)
    requires MonthsDistinct(rets)
    ensures MonthsDistinct(Assign(rets, month, value)) && (month, value) in Assign(rets, month, value)
  {
    var after := Assign(rets, month, value);
    var i := IndexOf(rets, month);
    assert after[if i >= 0 then i else |rets|] == (month, value);
  }

  lemma {:induction false} WalkKeepsDistinct(curve: Curve, monthOf: int -> int, k: nat)
    requires 0 < |curve| && k <= |curve| && Positive(curve)
    ensures MonthsDistinct(Walk(curve, monthOf, k).done)
  {
    if k > 0 {
      hide Assign, ChangePct, MonthsDistinct;
      WalkKeepsDistinct(curve, monthOf, k - 1);
      var m := Walk(curve, monthOf, k - 1);
      AssignKeepsDistinct(m.done, m.current, ChangePct(m.start, curve[k - 1].1));
    } else {
      assert Walk(curve, monthOf, 0).done == [];
    }
  }

  /** On any positive curve, sorted or not, each month has one return. */
  lemma OneReturnAMonth(curve: Curve, monthOf: int -> int)
    requires Positive(curve)
    ensures MonthsDistinct(MonthlyReturnsOf(curve, monthOf))
  {
    if curve != [] {
      hide Assign, ChangePct;
      WalkKeepsDistinct(curve, monthOf, |curve|);
      var m := Walk(curve, monthOf, |curve|);
      AssignKeepsDistinct(m.done, m.current, ChangePct(m.start, curve[|curve| - 1].1));
    }
  }
}
