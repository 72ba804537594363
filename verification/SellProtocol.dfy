/** The one-off sell script: first orders, a wait, cancels, a re-read and a market fallback, against a
    market that fills whatever is live, whenever it likes.  Nobody else trades the account. */
module SellProtocol {
  import opened Basics

  type Symbol = string

  function Get(m: map<Symbol, nat>, s: Symbol): nat {
    if s in m then m[s] else 0
  }

  function Positive(q: int): nat {
    if q > 0 then q else 0
  }

  datatype Request = Request(symbol: Symbol, quantity: int)

  /** What the arguments ask for in all. */
  function Requested(orders: seq<Request>, s: Symbol): int {
    if orders == [] then 0
    else
      Requested(orders[..|orders| - 1], s)
      + if orders[|orders| - 1].symbol == s then orders[|orders| - 1].quantity else 0
  }

  /** Of the request, what is not sold yet, within what is held now. */
  function FallbackQty(requested: int, before: Option<nat>, now: nat): nat {
    if before.None? then 0
    else
      var sold := Positive(before.value - now);
      Positive(if requested - sold <= now then requested - sold else now)
  }

  /** A fallback order never exceeds the unsold rest; there is none without a snapshot, and none once
      the target is met; and it is the whole rest, or the whole holding where that is less. */
  lemma FallbackFitsTheRest(requested: int, before: Option<nat>, now: nat)
    ensures var fb := FallbackQty(requested, before, now);
            && fb <= now
            && (fb > 0 ==> before.Some? && Positive(before.value - now) + fb <= requested)
            && (fb == 0 <==> before.None? || now == 0 || Positive(before.value - now) >= requested)
            && (fb > 0 ==> fb == now || Positive(before.value - now) + fb == requested)
  {
  }

  /** What the script asks of the broker, with the broker's answer where it matters later. */
  datatype Call =
    | Read(positions: Option<map<Symbol, nat>>)
    | Sell(symbol: Symbol, quantity: int)
    | CancelAll(symbol: Symbol, count: nat)

  function Sells(orders: seq<Request>): seq<Call> {
    seq(|orders|, (i: nat) requires i < |orders| => Sell(orders[i].symbol, orders[i].quantity))
  }

  function Cancels(orders: seq<Request>, counts: seq<nat>): seq<Call>
    requires |counts| == |orders|
  {
    seq(|orders|, (i: nat) requires i < |orders| => CancelAll(orders[i].symbol, counts[i]))
  }

  /** Whether a target gets a second order: it is still listed, and either an order of its was cancelled or the
      target is met by what the holding has lost. */
  predicate MayFollow(target: Request, before: Option<nat>, listed: bool, now: nat, count: nat) {
    listed && (count > 0 || (before.Some? && before.value - now >= target.quantity))
  }

  /** The second orders, in the order of the targets. */
  function Fallbacks(targets: seq<Request>, before: map<Symbol, nat>, counts: seq<nat>, positions: map<Symbol, nat>)
    : seq<Request>
    requires |counts| == |targets|
  {
    if targets == [] then []
    else
      var n := |targets| - 1;
      var sym := targets[n].symbol;
      var held := if sym in before then Some(before[sym]) else None;
      var quantity := FallbackQty(targets[n].quantity, held, Get(positions, sym));
      Fallbacks(targets[..n], before, counts[..n], positions)
      + if MayFollow(targets[n], held, sym in positions, Get(positions, sym), counts[n]) && quantity > 0
        then [Request(sym, quantity)] else []
  }

  /** Fills move shares from live to sold and out of the holdings, and nothing else. */
  ghost predicate Filled(holdings0: map<Symbol, nat>, live0: map<Symbol, nat>, sold0: map<Symbol, nat>,
                         holdings: map<Symbol, nat>, live: map<Symbol, nat>, sold: map<Symbol, nat>) {
    forall s ::
      && Get(sold, s) + Get(live, s) == Get(sold0, s) + Get(live0, s)
      && Get(holdings, s) + Get(sold, s) == Get(holdings0, s) + Get(sold0, s)
      && Get(live, s) <= Get(live0, s)
  }

  class Account {
    var holdings: map<Symbol, nat>
    var live: map<Symbol, nat>           // unfilled part of the script's own orders
    var sold: map<Symbol, nat>
    ghost var confirmed: set<Symbol>     // a cancel reported at least one of the script's orders
    ghost var calls: seq<Call>           // everything the script has asked for

    method FillOne()
      modifies this`holdings, this`live, this`sold
      ensures Filled(old(holdings), old(live), old(sold), holdings, live, sold)
    {
      var s: Symbol := *;
      var quantity: nat :| quantity <= Get(live, s) && quantity <= Get(holdings, s);
      holdings := holdings[s := Get(holdings, s) - quantity];
      live := live[s := Get(live, s) - quantity];
      sold := sold[s := Get(sold, s) + quantity];
    }

    /** Any number of partial fills of live orders. */
    method Market()
      modifies this`holdings, this`live, this`sold
      ensures Filled(old(holdings), old(live), old(sold), holdings, live, sold)
    {
      hide Get;
      var fills: nat :| fills >= 0;
      for k := 0 to fills
        invariant Filled(old(holdings), old(live), old(sold), holdings, live, sold)
      {
        FillOne();
      }
    }

    /** A read shows some of the positions, each as it is; it may fail. */
    method GetPositions() returns (r: Option<map<Symbol, nat>>)
      modifies this`calls
      ensures r.Some? ==> forall s :: s in r.value ==> r.value[s] == Get(holdings, s)
      ensures calls == old(calls) + [Read(r)]
    {
      var fails: bool := *;
      if fails {
        r := None;
      } else {
        var hidden: set<Symbol> := *;
        r := Some(map s | s in holdings && s !in hidden :: holdings[s]);
      }
      calls := calls + [Read(r)];
    }

    /** An order that reports failure may still have gone through. */
    method Submit(s: Symbol, quantity: int) returns (ok: bool)
      modifies this`live, this`calls
      ensures calls == old(calls) + [Sell(s, quantity)]
      ensures live == old(live) || live == old(live)[s := Get(old(live), s) + Positive(quantity)]
    {
      calls := calls + [Sell(s, quantity)];
      ok := *;
      var arrived: bool := *;
      if ok || arrived {
        live := live[s := Get(live, s) + Positive(quantity)];
      }
    }

    /** A reported cancel means the rest is dead; otherwise anything may be left of it. */
    method Cancel(s: Symbol) returns (count: nat)
      modifies this`live, this`confirmed, this`calls
      ensures calls == old(calls) + [CancelAll(s, count)]
      ensures forall q :: Get(live, q) <= old(Get(live, q))
      ensures forall q :: q != s ==> Get(live, q) == old(Get(live, q))
      ensures count >= 1 ==> Get(live, s) == 0
      ensures confirmed == old(confirmed) + if count >= 1 then {s} else {}
    {
      count := *;
      var rest: nat :| rest <= Get(live, s);
      live := live[s := if count >= 1 then 0 else rest];
      if count >= 1 { confirmed := confirmed + {s}; }
      calls := calls + [CancelAll(s, count)];
    }
  }

  function SymbolsOf(orders: seq<Request>): seq<Symbol> {
    seq(|orders|, (i: nat) requires i < |orders| => orders[i].symbol)
  }

  /** The symbols of the arguments, each where it comes first. */
  function FirstSeen(orders: seq<Request>): seq<Symbol> {
    if orders == [] then []
    else
      var before, last := FirstSeen(orders[..|orders| - 1]), orders[|orders| - 1].symbol;
      before + if last in before then [] else [last]
  }

  /** Same-symbol arguments become one request, in the order of first appearance. */
  method MergeRequests(orders: seq<Request>) returns (targets: seq<Request>)
    ensures forall i, j :: 0 <= i < j < |targets| ==> targets[i].symbol != targets[j].symbol
    ensures forall t :: t in targets ==> t.quantity == Requested(orders, t.symbol)
    ensures forall o :: o in orders ==> exists t :: t in targets && t.symbol == o.symbol
    ensures SymbolsOf(targets) == FirstSeen(orders)
  {
    hide Requested, FirstSeen;
    var req: map<Symbol, int> := map[];
    var keys: seq<Symbol> := [];
    NothingRequested();
    for i := 0 to |orders|
      invariant forall a, b :: 0 <= a < b < |keys| ==> keys[a] != keys[b]
      invariant forall s :: s in req <==> s in keys
      invariant keys == FirstSeen(orders[..i])
      invariant forall s :: Requested(orders[..i], s) == if s in req then req[s] else 0
      invariant forall o :: o in orders[..i] ==> o.symbol in req
    {
      var o := orders[i];
      OneMoreRequest(orders, i);
      if o.symbol !in req {
        keys := keys + [o.symbol];
        req := req[o.symbol := o.quantity];
      } else {
        req := req[o.symbol := req[o.symbol] + o.quantity];
      }
    }
    assert orders[..|orders|] == orders;
    targets := seq(|keys|, (k: nat) requires k < |keys| && keys[k] in req => Request(keys[k], req[keys[k]]));
    assert SymbolsOf(targets) == keys;
    forall o | o in orders ensures exists t :: t in targets && t.symbol == o.symbol {
      var k :| 0 <= k < |keys| && keys[k] == o.symbol;
      assert targets[k] in targets;
    }
  }

  lemma NothingRequested()
    ensures FirstSeen([]) == [] && forall s :: Requested([], s) == 0
  {
  }

  lemma OneMoreRequest(orders: seq<Request>, i: nat)
    requires i < |orders|
    ensures FirstSeen(orders[..i + 1])
            == FirstSeen(orders[..i]) + if orders[i].symbol in FirstSeen(orders[..i]) then [] else [orders[i].symbol]
    ensures forall s :: Requested(orders[..i + 1], s)
                        == Requested(orders[..i], s) + if orders[i].symbol == s then orders[i].quantity else 0
    ensures forall o :: o in orders[..i + 1] ==> o in orders[..i] || o == orders[i]
  {
    assert orders[..i + 1][..i] == orders[..i];
  }

  // ---- the whole run ------------------------------------------------------------------------------

  /** What the run keeps about every symbol: shares are conserved, and what is sold or may still sell
      stays within the request. */
  ghost predicate Bounded(orders: seq<Request>, start: map<Symbol, nat>, holdings: map<Symbol, nat>,
                          live: map<Symbol, nat>, sold: map<Symbol, nat>) {
    forall s :: Get(holdings, s) + Get(sold, s) == Get(start, s)
                && Get(sold, s) + Get(live, s) <= Positive(Requested(orders, s))
  }

  /** The second orders still to be sent: nothing of the first is live, and they fit the rest. */
  ghost predicate Fits(orders: seq<Request>, rest: seq<Request>, live: map<Symbol, nat>, sold: map<Symbol, nat>,
                       confirmed: set<Symbol>) {
    && (forall i, j :: 0 <= i < j < |rest| ==> rest[i].symbol != rest[j].symbol)
    && (forall i :: 0 <= i < |rest| ==>
          && rest[i].quantity > 0 && Get(live, rest[i].symbol) == 0
          && Get(sold, rest[i].symbol) + rest[i].quantity <= Positive(Requested(orders, rest[i].symbol))
          && rest[i].symbol in confirmed)
  }

  lemma FillsKeep(orders: seq<Request>, rest: seq<Request>, start: map<Symbol, nat>,
                  holdings0: map<Symbol, nat>, live0: map<Symbol, nat>, sold0: map<Symbol, nat>,
                  holdings: map<Symbol, nat>, live: map<Symbol, nat>, sold: map<Symbol, nat>, confirmed: set<Symbol>)
    requires Bounded(orders, start, holdings0, live0, sold0) && Fits(orders, rest, live0, sold0, confirmed)
    requires Filled(holdings0, live0, sold0, holdings, live, sold)
    ensures Bounded(orders, start, holdings, live, sold) && Fits(orders, rest, live, sold, confirmed)
  {
    hide Requested;
  }

  lemma OneFallback(orders: seq<Request>, rest: seq<Request>, start: map<Symbol, nat>, holdings: map<Symbol, nat>,
                    live: map<Symbol, nat>, sold: map<Symbol, nat>, confirmed: set<Symbol>, after: map<Symbol, nat>)
    requires Bounded(orders, start, holdings, live, sold) && rest != [] && Fits(orders, rest, live, sold, confirmed)
    requires after == live
             || after == live[rest[0].symbol := Get(live, rest[0].symbol) + Positive(rest[0].quantity)]
    ensures Bounded(orders, start, holdings, after, sold) && Fits(orders, rest[1..], after, sold, confirmed)
    ensures rest[0].symbol in confirmed
  {
    hide Requested;
  }

  /** A read that failed counts as empty. */
  function OrNothing(positions: Option<map<Symbol, nat>>): map<Symbol, nat> {
    if positions.Some? then positions.value else map[]
  }

  lemma NoCalls(orders: seq<Request>, counts: seq<nat>)
    ensures Sells(orders[..0]) == [] && (|counts| == 0 ==> Cancels(orders[..0], counts) == [])
  {
  }

  lemma OneMoreSell(orders: seq<Request>, i: nat)
    requires i < |orders|
    ensures Sells(orders[..i + 1]) == Sells(orders[..i]) + [Sell(orders[i].symbol, orders[i].quantity)]
  {
  }

  lemma OneMoreCancel(orders: seq<Request>, counts: seq<nat>, i: nat, count: nat)
    requires |counts| == i < |orders|
    ensures Cancels(orders[..i + 1], counts + [count])
            == Cancels(orders[..i], counts) + [CancelAll(orders[i].symbol, count)]
  {
  }

  lemma NoFallbacks(before: map<Symbol, nat>, positions: map<Symbol, nat>)
    ensures Fallbacks([], before, [], positions) == []
  {
  }

  lemma OneMoreFallback(targets: seq<Request>, before: map<Symbol, nat>, counts: seq<nat>,
                        positions: map<Symbol, nat>, i: nat)
    requires i < |targets| == |counts|
    ensures var sym := targets[i].symbol;
            var held := if sym in before then Some(before[sym]) else None;
            var quantity := FallbackQty(targets[i].quantity, held, Get(positions, sym));
            Fallbacks(targets[..i + 1], before, counts[..i + 1], positions)
            == Fallbacks(targets[..i], before, counts[..i], positions)
               + if MayFollow(targets[i], held, sym in positions, Get(positions, sym), counts[i]) && quantity > 0
                 then [Request(sym, quantity)] else []
  {
    assert targets[..i + 1][..i] == targets[..i] && counts[..i + 1][..i] == counts[..i];
  }

  /** A second order is sent only for a symbol of which the broker reported a cancel. */
  lemma {:induction false} FallbacksFollowCancels(targets: seq<Request>, before: map<Symbol, nat>, counts: seq<nat>,
                                                  positions: map<Symbol, nat>)
    requires |counts| == |targets|
    ensures forall r :: r in Fallbacks(targets, before, counts, positions) ==>
              exists k :: 0 <= k < |targets| && targets[k].symbol == r.symbol && counts[k] >= 1
  {
    if targets != [] {
      var n := |targets| - 1;
      FallbacksFollowCancels(targets[..n], before, counts[..n], positions);
      forall r | r in Fallbacks(targets, before, counts, positions)
        ensures exists k :: 0 <= k < |targets| && targets[k].symbol == r.symbol && counts[k] >= 1
      {
        if r in Fallbacks(targets[..n], before, counts[..n], positions) {
          var k :| 0 <= k < n && targets[..n][k].symbol == r.symbol && counts[..n][k] >= 1;
          assert targets[k].symbol == r.symbol;
        } else {
          assert targets[n].symbol == r.symbol;
        }
      }
    }
  }

  class Script {
    const account: Account

    constructor (a: Account)
      ensures account == a
    {
      account := a;
    }

    method FirstOrders(orders: seq<Request>, targets: seq<Request>, ghost start: map<Symbol, nat>)
      requires forall i, j :: 0 <= i < j < |targets| ==> targets[i].symbol != targets[j].symbol
      requires forall t :: t in targets ==> t.quantity == Requested(orders, t.symbol)
      requires forall s :: Get(account.live, s) == 0 && Get(account.sold, s) == 0
      requires forall s :: Get(account.holdings, s) == Get(start, s)
      modifies account`holdings, account`live, account`sold, account`calls
      ensures Bounded(orders, start, account.holdings, account.live, account.sold)
      ensures account.calls == old(account.calls) + Sells(targets)
    {
      hide Requested, Positive, Sells;
      NoCalls(targets, []);
      for i := 0 to |targets|
        invariant account.calls == old(account.calls) + Sells(targets[..i])
        invariant Bounded(orders, start, account.holdings, account.live, account.sold)
        invariant forall k :: i <= k < |targets| ==>
                    Get(account.live, targets[k].symbol) == 0 && Get(account.sold, targets[k].symbol) == 0
      {
        var ok := account.Submit(targets[i].symbol, targets[i].quantity);
        OneMoreSell(targets, i);
        account.Market();
      }
      assert targets[..|targets|] == targets;
    }

    method CancelAll(orders: seq<Request>, targets: seq<Request>, ghost start: map<Symbol, nat>)
      returns (cancelled: map<Symbol, nat>, ghost counts: seq<nat>)
      requires forall i, j :: 0 <= i < j < |targets| ==> targets[i].symbol != targets[j].symbol
      requires Bounded(orders, start, account.holdings, account.live, account.sold)
      modifies account`holdings, account`live, account`sold, account`confirmed, account`calls
      ensures Bounded(orders, start, account.holdings, account.live, account.sold)
      ensures |counts| == |targets| && account.calls == old(account.calls) + Cancels(targets, counts)
      ensures forall k :: 0 <= k < |targets| ==>
                targets[k].symbol in cancelled && cancelled[targets[k].symbol] == counts[k]
      ensures forall s :: s in cancelled && cancelled[s] >= 1 ==> Get(account.live, s) == 0 && s in account.confirmed
      ensures old(account.confirmed) <= account.confirmed
    {
      hide Requested, Cancels;
      cancelled, counts := map[], [];
      NoCalls(targets, counts);
      for i := 0 to |targets|
        invariant |counts| == i && account.calls == old(account.calls) + Cancels(targets[..i], counts)
        invariant Bounded(orders, start, account.holdings, account.live, account.sold)
        invariant forall k :: 0 <= k < i ==>
                    targets[k].symbol in cancelled && cancelled[targets[k].symbol] == counts[k]
        invariant forall s :: s in cancelled && cancelled[s] >= 1 ==>
                    Get(account.live, s) == 0 && s in account.confirmed
        invariant old(account.confirmed) <= account.confirmed
      {
        var count := account.Cancel(targets[i].symbol);
        cancelled := cancelled[targets[i].symbol := count];
        OneMoreCancel(targets, counts, i, count);
        counts := counts + [count];
        account.Market();
      }
      assert targets[..|targets|] == targets;
    }

    /** Which targets get a second order, and of what size. */
    method PlanFallbacks(orders: seq<Request>, targets: seq<Request>, before: map<Symbol, nat>,
                         positions: map<Symbol, nat>, cancelled: map<Symbol, nat>, ghost counts: seq<nat>,
                         ghost start: map<Symbol, nat>)
      returns (rest: seq<Request>)
      requires |counts| == |targets| && forall k :: 0 <= k < |targets| ==>
                 targets[k].symbol in cancelled && cancelled[targets[k].symbol] == counts[k]
      requires forall i, j :: 0 <= i < j < |targets| ==> targets[i].symbol != targets[j].symbol
      requires forall t :: t in targets ==> t.quantity == Requested(orders, t.symbol) && t.symbol in cancelled
      requires Bounded(orders, start, account.holdings, account.live, account.sold)
      requires forall s :: s in before ==> before[s] == Get(start, s)
      requires forall s :: s in positions ==> positions[s] == Get(account.holdings, s)
      requires forall s :: s in cancelled && cancelled[s] >= 1 ==> Get(account.live, s) == 0 && s in account.confirmed
      ensures Fits(orders, rest, account.live, account.sold, account.confirmed)
      ensures rest == Fallbacks(targets, before, counts, positions)
    {
      hide Requested, Fallbacks;
      rest := [];
      NoFallbacks(before, positions);
      assert targets[..0] == [] && counts[..0] == [];
      for i := 0 to |targets|
        invariant rest == Fallbacks(targets[..i], before, counts[..i], positions)
        invariant Fits(orders, rest, account.live, account.sold, account.confirmed)
        invariant forall j :: 0 <= j < |rest| ==> exists k :: 0 <= k < i && targets[k].symbol == rest[j].symbol
      {
        var sym, quantity := targets[i].symbol, targets[i].quantity;
        var now := Get(positions, sym);
        var b := if sym in before then Some(before[sym]) else None;
        var fb := FallbackQty(quantity, b, now);
        FallbackFitsTheRest(quantity, b, now);
        var short := b.None? || b.value - now < quantity;
        OneMoreFallback(targets, before, counts, positions, i);
        if sym in positions && !(cancelled[sym] == 0 && short) && fb > 0 {
          assert targets[i] in targets;
          rest := rest + [Request(sym, fb)];
        }
      }
      assert targets[..|targets|] == targets && counts[..|counts|] == counts;
    }

    method SendFallbacks(orders: seq<Request>, rest: seq<Request>, ghost start: map<Symbol, nat>)
      requires Bounded(orders, start, account.holdings, account.live, account.sold)
      requires Fits(orders, rest, account.live, account.sold, account.confirmed)
      modifies account`holdings, account`live, account`sold, account`calls
      ensures Bounded(orders, start, account.holdings, account.live, account.sold)
      ensures account.calls == old(account.calls) + Sells(rest)
    {
      hide Requested, Bounded, Fits, Filled, Get, Sells;
      NoCalls(rest, []);
      ghost var holdings, live, sold := account.holdings, account.live, account.sold;
      account.Market();
      FillsKeep(orders, rest, start, holdings, live, sold,
                account.holdings, account.live, account.sold, account.confirmed);
      assert rest[0..] == rest;
      for i := 0 to |rest|
        invariant Bounded(orders, start, account.holdings, account.live, account.sold)
        invariant Fits(orders, rest[i..], account.live, account.sold, account.confirmed)
        invariant account.calls == old(account.calls) + Sells(rest[..i])
      {
        holdings, live, sold := account.holdings, account.live, account.sold;
        var ok := account.Submit(rest[i].symbol, rest[i].quantity);
        OneMoreSell(rest, i);
        OneFallback(orders, rest[i..], start, account.holdings, live, sold, account.confirmed, account.live);
        assert rest[i..][1..] == rest[i + 1..];
        live := account.live;
        account.Market();
        FillsKeep(orders, rest[i + 1..], start, holdings, live, sold,
                  account.holdings, account.live, account.sold, account.confirmed);
      }
      assert rest[..|rest|] == rest;
    }

    /** Reads the positions, sends the merged requests, asks for every cancel, reads again and sends the second
        orders of those that may follow: that and nothing else.  Never more than the request, never more than
        was held, and a second order only after one of the script's own orders was reported cancelled. */
    method Run(orders: seq<Request>)
      returns (ghost targets: seq<Request>, ghost counts: seq<nat>,
               ghost snapshot: Option<map<Symbol, nat>>, ghost reread: Option<map<Symbol, nat>>)
      requires forall s :: Get(account.live, s) == 0 && Get(account.sold, s) == 0
      requires account.confirmed == {}
      modifies account
      ensures forall s :: Get(account.sold, s) + Get(account.live, s) <= Positive(Requested(orders, s))
      ensures forall s :: Get(account.holdings, s) + Get(account.sold, s) == old(Get(account.holdings, s))
      ensures SymbolsOf(targets) == FirstSeen(orders)
      ensures forall t :: t in targets ==> t.quantity == Requested(orders, t.symbol)
      ensures |counts| == |targets|
      ensures account.calls == old(account.calls) + [Read(snapshot)] + Sells(targets) + Cancels(targets, counts)
                               + [Read(reread)]
                               + Sells(Fallbacks(targets, OrNothing(snapshot), counts, OrNothing(reread)))
      ensures forall r :: r in Fallbacks(targets, OrNothing(snapshot), counts, OrNothing(reread)) ==>
                exists k :: 0 <= k < |targets| && targets[k].symbol == r.symbol && counts[k] >= 1
    {
      hide Requested, Sells, Cancels, Fallbacks, FirstSeen;
      ghost var start := account.holdings;
      var merged := MergeRequests(orders);
      targets := merged;
      var first := account.GetPositions();
      snapshot := first;
      var before := OrNothing(first);
      FirstOrders(orders, merged, start);
      var cancelled;
      cancelled, counts := CancelAll(orders, merged, start);
      var second := account.GetPositions();
      reread := second;
      var positions := OrNothing(second);
      var rest := PlanFallbacks(orders, merged, before, positions, cancelled, counts, start);
      SendFallbacks(orders, rest, start);
      FallbacksFollowCancels(merged, before, counts, positions);
    }
  }
}
