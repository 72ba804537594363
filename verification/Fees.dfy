/** The two fee models of the repository: the backtester's unrounded rates, and the live
    calculator that rounds every fee, and the net result, to whole won. */
module Fees {
  import opened Basics

  const BUY_FEE_RATE: real := 0.000140527
  const SELL_FEE_RATE: real := 0.002130527

  // ---- BTFeeCalculator: plain rates -------------------------------------------------------

  function BuyFee(amount: real): real {
    amount * BUY_FEE_RATE
  }

  function SellFee(amount: real): real {
    amount * SELL_FEE_RATE
  }

  function Amount(price: real, quantity: int): real {
    price * quantity as real
  }

  function TotalCost(price: real, quantity: int): real {
    Amount(price, quantity) + BuyFee(Amount(price, quantity))
  }

  function NetProceeds(price: real, quantity: int): real {
    Amount(price, quantity) - SellFee(Amount(price, quantity))
  }

  function NetPnl(buyPrice: real, sellPrice: real, quantity: int): real {
    NetProceeds(sellPrice, quantity) - TotalCost(buyPrice, quantity)
  }

  function NetPnlPct(buyPrice: real, sellPrice: real, quantity: int): real {
    var cost := TotalCost(buyPrice, quantity);
    if cost > 0.0 then NetPnl(buyPrice, sellPrice, quantity) / cost * 100.0 else 0.0
  }

  /** Cost is additive in the quantity: however a purchase is split, the parts cost what the
      whole costs. */
  lemma TotalCostAdds(price: real, a: int, b: int)
    ensures TotalCost(price, a + b) == TotalCost(price, a) + TotalCost(price, b)
  {
    var x, y := a as real, b as real;
    assert (a + b) as real == x + y;
    assert price * (x + y) == price * x + price * y;
  }

  // ---- FeeCalculator: fees and result rounded to whole won --------------------------------

  function WonBuyFee(amount: real): int {
    RoundHalfUp(amount * 0.000140527)
  }

  function WonSellFee(amount: real): int {
    RoundHalfUp(amount * 0.000130527 + amount * 0.002)
  }

  function WonNetPnl(buyPrice: real, sellPrice: real, quantity: int): int {
    var buyAmount := Amount(buyPrice, quantity);
    var sellAmount := Amount(sellPrice, quantity);
    RoundHalfUp((sellAmount - WonSellFee(sellAmount) as real) - (buyAmount + WonBuyFee(buyAmount) as real))
  }

  function WonNetPnlPct(buyPrice: real, sellPrice: real, quantity: int): real {
    var buyAmount := Amount(buyPrice, quantity);
    var totalCost := buyAmount + WonBuyFee(buyAmount) as real;
    if totalCost > 0.0 then WonNetPnl(buyPrice, sellPrice, quantity) as real / totalCost * 100.0 else 0.0
  }

  // ---- risk_quantity_cap --------------------------------------------------------------------

  /** planned_risk: the loss planned for `quantity` shares, entry fee included. */
  function PlannedRisk(price: real, quantity: int, stopPct: real): real {
    PlannedLoss(Amount(price, quantity), stopPct)
  }

  function PlannedLoss(cost: real, stopPct: real): real {
    CostWithFee(cost) * stopPct / 100.0
  }

  function CostWithFee(amount: real): real {
    amount + WonBuyFee(amount) as real
  }

  /** The correction loop: give up one share at a time while the planned risk is over budget. */
  function ShrinkToBudget(price: real, stopPct: real, budget: real, quantity: int): int
    decreases if quantity > 0 then quantity else 0
  {
    if quantity > 0 && PlannedRisk(price, quantity, stopPct) > budget
    then ShrinkToBudget(price, stopPct, budget, quantity - 1)
    else quantity
  }

  /** Where the correction loop starts: the fee taken unrounded. */
  function FirstGuess(equity: real, price: real, stopPct: real, riskPct: real): int
    requires price > 0.0 && stopPct > 0.0
  {
    var budget := equity * riskPct / 100.0;
    assert stopPct * price > 0.0;
    var perShare := stopPct * price * (1.0 + 0.000140527);
    assert perShare > 0.0;
    Trunc(budget * 100.0 / perShare)
  }

  function RiskQuantityCap(equity: real, price: real, stopPct: real, riskPct: real): int {
    if equity <= 0.0 || price <= 0.0 || stopPct <= 0.0 then 0
    else ShrinkToBudget(price, stopPct, equity * riskPct / 100.0, FirstGuess(equity, price, stopPct, riskPct))
  }

  /** What the loop returns is within the budget, or is no order at all; and nothing it passed over was. */
  lemma {:induction false} ShrinkMeetsBudget(price: real, stopPct: real, budget: real, quantity: int)
    ensures var q := ShrinkToBudget(price, stopPct, budget, quantity);
      && q <= quantity && (quantity <= 0 ==> q == quantity) && (q > 0 ==> PlannedRisk(price, q, stopPct) <= budget)
      && (forall n :: q < n <= quantity && n > 0 ==> PlannedRisk(price, n, stopPct) > budget)
    decreases if quantity > 0 then quantity else 0
  {
    if quantity > 0 && PlannedRisk(price, quantity, stopPct) > budget {
      ShrinkMeetsBudget(price, stopPct, budget, quantity - 1);
    }
  }

  lemma CostWithFeeMonotone(a: real, b: real)
    requires a <= b
    ensures CostWithFee(a) <= CostWithFee(b)
  {
    RoundHalfUpMonotone(a * 0.000140527, b * 0.000140527);
  }

  lemma PlannedLossMonotone(x: real, y: real, stopPct: real)
    requires x <= y && stopPct >= 0.0
    ensures PlannedLoss(x, stopPct) <= PlannedLoss(y, stopPct)
  {
    CostWithFeeMonotone(x, y);
    MulMono(CostWithFee(x), CostWithFee(y), stopPct);
  }

  /** Fewer shares never plan a larger loss, rounding included. */
  lemma PlannedRiskMonotone(price: real, a: int, b: int, stopPct: real)
    requires price >= 0.0 && stopPct >= 0.0 && 0 <= a <= b
    ensures PlannedRisk(price, a, stopPct) <= PlannedRisk(price, b, stopPct)
  {
    hide PlannedLoss;
    MulMono(a as real, b as real, price);
    PlannedLossMonotone(Amount(price, a), Amount(price, b), stopPct);
  }

  // ---- is it the largest quantity? --------------------------------------------------------------------

  /** The documented meaning: the positive quantities within the budget are those up to `cap`. */
  ghost predicate IsLargestWithin(cap: int, price: real, stopPct: real, budget: real) {
    forall n :: n > 0 ==> (PlannedRisk(price, n, stopPct) <= budget <==> n <= cap)
  }

  function AtLeastZero(n: int): int {
    if n > 0 then n else 0
  }

  /** The cap is the largest quantity within the budget exactly when one share above the first guess is
      not within it: the guess charges the unrounded fee, so a fee that rounds down can leave room. */
  lemma LargestExactlyWhen(equity: real, price: real, stopPct: real, riskPct: real)
    requires equity > 0.0 && price > 0.0 && stopPct > 0.0
    ensures var budget := equity * riskPct / 100.0;
      IsLargestWithin(RiskQuantityCap(equity, price, stopPct, riskPct), price, stopPct, budget)
      <==> PlannedRisk(price, AtLeastZero(FirstGuess(equity, price, stopPct, riskPct)) + 1, stopPct) > budget
  {
    hide PlannedRisk, ShrinkToBudget, FirstGuess;
    var budget := equity * riskPct / 100.0;
    var guess := FirstGuess(equity, price, stopPct, riskPct);
    var cap := RiskQuantityCap(equity, price, stopPct, riskPct);
    ShrinkMeetsBudget(price, stopPct, budget, guess);
    var above := AtLeastZero(guess) + 1;
    if PlannedRisk(price, above, stopPct) > budget {
      forall n | n > 0 ensures PlannedRisk(price, n, stopPct) <= budget <==> n <= cap {
        if n <= cap { PlannedRiskMonotone(price, n, cap, stopPct); }
        if n >= above { PlannedRiskMonotone(price, above, n, stopPct); }
      }
    }
  }

  lemma RoundedFeeCost(amount: real)
    requires amount >= 0.0
    ensures CostWithFee(amount) >= amount * 1.000140527 - 0.5
  {
  }

  lemma GuessPlusOne(budget: real, perShare: real, guess: int)
    requires budget >= 0.0 && perShare > 0.0 && guess == Trunc(budget * 100.0 / perShare)
    ensures guess >= 0 && budget * 100.0 < (guess + 1) as real * perShare
  {
    var x := budget * 100.0 / perShare;
    assert x * perShare == budget * 100.0;
    if x < 0.0 { MulMono(x, 0.0, perShare); }
    var k := (guess + 1) as real;
    assert x < k;
    assert (k - x) * perShare > 0.0;
  }

  lemma PerShareLoss(k: real, price: real, stopPct: real, cost: real)
    requires cost >= k * (price * 1.000140527) && stopPct > 0.0
    ensures cost * stopPct >= k * (stopPct * price * 1.000140527)
  {
    var unit := price * 1.000140527;
    MulMono(k * unit, cost, stopPct);
    assert k * unit * stopPct == k * (stopPct * price * 1.000140527);
  }

  lemma TwoAboveTheGuess(equity: real, price: real, stopPct: real, riskPct: real, n: int)
    requires equity > 0.0 && price >= 0.5 && stopPct > 0.0 && riskPct >= 0.0
    requires n > FirstGuess(equity, price, stopPct, riskPct) + 1
    ensures PlannedRisk(price, n, stopPct) > equity * riskPct / 100.0
  {
    hide CostWithFee;
    var budget := equity * riskPct / 100.0;
    MulMono(0.0, equity, riskPct);
    assert stopPct * price > 0.0;
    var perShare := stopPct * price * (1.0 + 0.000140527);
    var guess := FirstGuess(equity, price, stopPct, riskPct);
    GuessPlusOne(budget, perShare, guess);
    var k := (guess + 1) as real;
    var amount := Amount(price, n);
    MulMono(k + 1.0, n as real, price);
    assert amount >= (k + 1.0) * price;
    RoundedFeeCost(amount);
    var cost := CostWithFee(amount);
    assert (k + 1.0) * price * 1.000140527 == k * (price * 1.000140527) + price * 1.000140527;
    assert cost >= k * (price * 1.000140527);
    PerShareLoss(k, price, stopPct, cost);
  }

  lemma NothingWithinLess(equity: real, price: real, stopPct: real, riskPct: real, n: int)
    requires equity > 0.0 && price > 0.0 && stopPct > 0.0 && riskPct < 0.0 && n > 0
    ensures PlannedRisk(price, n, stopPct) > equity * riskPct / 100.0
  {
    PlannedRiskMonotone(price, 0, n, stopPct);
    assert PlannedRisk(price, 0, stopPct) == 0.0;
    assert equity * riskPct < 0.0;
  }

  /** It is never more than one share short where a share costs at least half a won: the fee rounds by
      no more than that. */
  lemma AtMostOneShareShort(equity: real, price: real, stopPct: real, riskPct: real, n: int)
    requires equity > 0.0 && price >= 0.5 && stopPct > 0.0
    requires n > RiskQuantityCap(equity, price, stopPct, riskPct) + 1 && n > 0
    ensures PlannedRisk(price, n, stopPct) > equity * riskPct / 100.0
  {
    hide PlannedRisk, ShrinkToBudget, FirstGuess;
    var guess := FirstGuess(equity, price, stopPct, riskPct);
    ShrinkMeetsBudget(price, stopPct, equity * riskPct / 100.0, guess);
    if riskPct < 0.0 {
      NothingWithinLess(equity, price, stopPct, riskPct, n);
    } else if n > guess + 1 {
      TwoAboveTheGuess(equity, price, stopPct, riskPct, n);
    } else if n == guess + 1 {
      assert guess > 0 && PlannedRisk(price, guess, stopPct) > equity * riskPct / 100.0;
      PlannedRiskMonotone(price, guess, n, stopPct);
    }
  }

  /** A budget of 150 won pays the planned loss of one share at 3,000 with a stop of 5 per cent, since the
      fee of 0.42 won rounds to nothing; the cap allows none. */
  lemma RoundedFeeLeavesRoom()
    ensures RiskQuantityCap(15000.0, 3000.0, 5.0, 1.0) == 0 && PlannedRisk(3000.0, 1, 5.0) <= 15000.0 * 1.0 / 100.0
  {
    assert 150.0 * 100.0 / (5.0 * 3000.0 * (1.0 + 0.000140527)) < 1.0;
    assert ShrinkToBudget(3000.0, 5.0, 150.0, 0) == 0;
  }
}
