/** Where a day of the backtest ends: whether it trades, what every holding is worth then, and what cash is left. */
module TradingDays {
  import opened Basics
  import opened Simulator
  import opened Accounting

  // ---------------------------------------------------------------- vocabulary

  /** What is held of a ticker, in money. */
  function WorthOf(s: State, q: Quotes, tk: Ticker): real {
    if tk in s.shares && tk in q then Worth(s.shares[tk], q[tk]) else 0.0
  }

  /** Every ticker held or wanted, once, in any order. */
  ghost predicate Lists(tks: seq<Ticker>, s: State, want: Target) {
    NoDup(tks) && forall tk :: tk in tks <==> tk in s.order || Wants(want, tk)
  }

  /** The summed distance between the weights wanted and the weights held. */
  function Distance(tks: seq<Ticker>, s: State, q: Quotes, want: Target, value: real): real
    requires value != 0.0
  {
    if tks == [] then 0.0
    else Abs(Weight(want, tks[0]) - WorthOf(s, q, tks[0]) / value) + Distance(tks[1..], s, q, want, value)
  }

  // ---------------------------------------------------------------- the drift is that distance

  function Unwanted(order: seq<Ticker>, want: Target): seq<Ticker> {
    if order == [] then []
    else if Wants(want, order[0]) then Unwanted(order[1..], want)
    else [order[0]] + Unwanted(order[1..], want)
  }

  lemma {:induction false} DistanceAppend(a: seq<Ticker>, b: seq<Ticker>, s: State, q: Quotes, want: Target,
                                          value: real)
    requires value != 0.0
    ensures Distance(a + b, s, q, want, value) == Distance(a, s, q, want, value) + Distance(b, s, q, want, value)
  {
    hide WorthOf, Weight;
    if a == [] {
      assert a + b == b;
    } else {
      assert (a + b)[1..] == a[1..] + b;
      DistanceAppend(a[1..], b, s, q, want, value);
    }
  }

  lemma {:induction false} DistanceTakesOut(a: seq<Ticker>, tk: Ticker, s: State, q: Quotes, want: Target, value: real)
    requires value != 0.0 && NoDup(a) && tk in a
    ensures Distance(a, s, q, want, value)
         == Abs(Weight(want, tk) - WorthOf(s, q, tk) / value) + Distance(Without(a, tk), s, q, want, value)
  {
    hide WorthOf, Weight;
    if a[0] == tk {
      assert tk !in a[1..];
      WithoutAbsent(a[1..], tk);
    } else {
      DistanceTakesOut(a[1..], tk, s, q, want, value);
      assert Without(a, tk)[1..] == Without(a[1..], tk);
    }
  }

  lemma NoMembers(a: seq<Ticker>)
    ensures a != [] ==> exists tk :: tk in a
  {
    if a != [] {
      assert a[0] in a;
    }
  }

  /** The order in which tickers are listed does not matter. */
  lemma {:induction false} DistanceAnyOrder(a: seq<Ticker>, b: seq<Ticker>, s: State, q: Quotes, want: Target,
                                            value: real)
    requires value != 0.0 && NoDup(a) && NoDup(b) && forall tk :: tk in a <==> tk in b
    ensures Distance(a, s, q, want, value) == Distance(b, s, q, want, value)
  {
    hide WorthOf, Weight;
    if a == [] {
      NoMembers(b);
    } else {
      assert a[0] in a && a[0] !in a[1..] && NoDup(a[1..]);
      assert forall tk :: tk in a <==> tk == a[0] || tk in a[1..];
      DistanceAnyOrder(a[1..], Without(b, a[0]), s, q, want, value);
      DistanceTakesOut(b, a[0], s, q, want, value);
    }
  }

  lemma {:induction false} WantedIsDistance(s: State, q: Quotes, want: Target, value: real, k: nat)
    requires value > 0.0 && Quoted(s.order, q) && Coherent(s) && TargetQuoted(want, q) && OneLegEach(want) &&
        k <= |want|
    ensures TargetQuoted(want[k..], q)
    ensures WantedDrift(s.shares, q, value, want[k..]) == Distance(Names(want)[k..], s, q, want, value)
    decreases |want| - k
  {
    hide NoDup;
    if k < |want| {
      WantedIsDistance(s, q, want, value, k + 1);
      WeightOfLeg(want, k);
      assert want[k..][1..] == want[k + 1..] && Names(want)[k..][1..] == Names(want)[k + 1..];
      assert want[k] in want;
      CurrentIsShare(s, q, want[k].ticker, value);
    }
  }

  lemma CurrentIsShare(s: State, q: Quotes, tk: Ticker, value: real)
    requires value > 0.0 && tk in q
    ensures CurrentWeight(s.shares, q, value, tk) == WorthOf(s, q, tk) / value
  {
  }

  lemma {:induction false} UnwantedIsDistance(tks: seq<Ticker>, s: State, q: Quotes, want: Target, value: real)
    requires value > 0.0 && Quoted(tks, q)
    ensures UnwantedDrift(tks, s.shares, q, value, want) == Distance(Unwanted(tks, want), s, q, want, value)
  {
    hide CurrentWeight;
    if tks != [] {
      UnwantedIsDistance(tks[1..], s, q, want, value);
      if !Wants(want, tks[0]) {
        UnwantedWeighsNothing(want, tks[0]);
        CurrentIsShare(s, q, tks[0], value);
        assert Unwanted(tks, want)[1..] == Unwanted(tks[1..], want);
      }
    }
  }

  lemma {:induction false} UnwantedAre(order: seq<Ticker>, want: Target)
    requires NoDup(order)
    ensures NoDup(Unwanted(order, want))
    ensures forall tk :: tk in Unwanted(order, want) <==> tk in order && !Wants(want, tk)
  {
    hide Wants;
    if order != [] {
      assert NoDup(order[1..]) && order[0] !in order[1..];
      UnwantedAre(order[1..], want);
      assert forall tk :: tk in order <==> tk == order[0] || tk in order[1..];
    }
  }

  lemma NamesAre(want: Target)
    requires OneLegEach(want)
    ensures NoDup(Names(want)) && forall tk :: tk in Names(want) <==> Wants(want, tk)
  {
    forall tk
      ensures tk in Names(want) <==> Wants(want, tk)
    {
      if Wants(want, tk) {
        var leg :| leg in want && leg.ticker == tk;
        var k :| 0 <= k < |want| && want[k] == leg;
        assert Names(want)[k] == tk;
      }
      if tk in Names(want) {
        var k :| 0 <= k < |want| && Names(want)[k] == tk;
        assert want[k] in want;
      }
    }
  }

  /** What decides whether a day trades is the distance summed over every ticker held or wanted. */
  lemma DriftIsDistance(tks: seq<Ticker>, s: State, q: Quotes, want: Target, value: real)
    requires value > 0.0 && Coherent(s) && Quoted(s.order, q) && TargetQuoted(want, q) && OneLegEach(want)
    requires Lists(tks, s, want)
    ensures DriftOf(s.order, s.shares, q, value, want) == Distance(tks, s, q, want, value)
  {
    hide WantedDrift, UnwantedDrift, Distance, Names, Unwanted, WorthOf, Weight, Wants;
    var names, rest := Names(want), Unwanted(s.order, want);
    WantedIsDistance(s, q, want, value, 0);
    assert want[0..] == want && names[0..] == names;
    UnwantedIsDistance(s.order, s, q, want, value);
    DistanceAppend(names, rest, s, q, want, value);
    NamesAre(want);
    UnwantedAre(s.order, want);
    DistinctTogether(names, rest);
    DistanceAnyOrder(names + rest, tks, s, q, want, value);
  }

  lemma DistinctTogether(a: seq<Ticker>, b: seq<Ticker>)
    requires NoDup(a) && NoDup(b) && forall tk :: tk in a ==> tk !in b
    ensures NoDup(a + b)
  {
    forall i, j | 0 <= i < j < |a + b|
      ensures (a + b)[i] != (a + b)[j]
    {
      if i < |a| <= j {
        assert (a + b)[i] in a && (a + b)[j] in b;
      }
    }
  }

  // ---------------------------------------------------------------- the sales

  /** What the target wants of a ticker, in money. */
  function Aim(want: Target, tk: Ticker, value: real): real { Weight(want, tk) * value }

  /** What a holding is worth beyond its target, and what it is short of it, when that is more than half a percent of
      the book; anything less is left alone. */
  function Surplus(s: State, q: Quotes, want: Target, value: real, tk: Ticker): real {
    var over := WorthOf(s, q, tk) - Aim(want, tk, value);
    if tk in s.shares && over > value * 0.005 then over else 0.0
  }

  function Shortfall(s: State, q: Quotes, want: Target, value: real, tk: Ticker): real {
    var short := Aim(want, tk, value) - WorthOf(s, q, tk);
    if short > value * 0.005 then short else 0.0
  }

  /** A holding left with less than half a percent of the book stops being one. */
  predicate Dropped(s: State, q: Quotes, want: Target, value: real, tk: Ticker) {
    Surplus(s, q, want, value, tk) > 0.0 && Aim(want, tk, value) < value * 0.005
  }

  function Raised(tks: seq<Ticker>, s: State, q: Quotes, want: Target, value: real): real {
    if tks == [] then 0.0
    else Raised(tks[..|tks| - 1], s, q, want, value) + Surplus(s, q, want, value, tks[|tks| - 1])
  }

  /** What selling leaves of one holding. */
  ghost predicate SoldDown(s: State, r: State, q: Quotes, want: Target, value: real, tk: Ticker) {
    if Surplus(s, q, want, value, tk) > 0.0 then
      if Dropped(s, q, want, value, tk) then tk !in r.shares
      else tk in r.shares && WorthOf(r, q, tk) == Aim(want, tk, value)
    else SameHolding(s, r, tk)
  }

  ghost predicate SameHolding(s: State, r: State, tk: Ticker) {
    (tk in r.shares <==> tk in s.shares) && (tk in s.shares ==> r.shares[tk] == s.shares[tk])
  }

  /** What is left of what is traded once it has paid its dealing cost. */
  function Net(amount: real, t: Terms): real { amount * (1.0 - t.costBps / 10000.0) }

  lemma CostLeavesKept(amount: real, t: Terms)
    ensures amount - DealingCost(amount, t) == Net(amount, t)
  {
  }

  lemma BookSaleDoes(s: State, tk: Ticker, want: Target, value: real, q: Quotes, t: Terms)
    requires Coherent(s) && tk in s.shares && Quoted(s.order, q)
    ensures var excess := Excess(s.shares[tk], q[tk], Weight(want, tk), value);
      var r := BookSale(s, tk, SaleOf(excess, Get(s.basis, tk, q[tk]), s.lossBank, q[tk], t));
      && tk in r.shares && Worth(r.shares[tk], q[tk]) == Aim(want, tk, value)
      && (forall k :: k != tk ==> SameHolding(s, r, k))
      && (excess >= 0.0 ==>
          r.cash == s.cash + Net(excess, t) - (r.taxPaid - s.taxPaid) && r.traded == s.traded + excess)
  {
    hide NoDup, Worth, Holdings, DealingCost, Settle, Net;
    var excess := Excess(s.shares[tk], q[tk], Weight(want, tk), value);
    SaleIsWorthItsExcess(excess, Get(s.basis, tk, q[tk]), s.lossBank, q[tk], t);
    SaleLandsOnTarget(s, tk, Weight(want, tk), value, q, t);
    CostLeavesKept(excess, t);
  }

  lemma CloseDoes(s: State, tk: Ticker, p: Price, day: int)
    requires Coherent(s) && tk in s.shares
    ensures var r := Close(s, tk, p, day);
      && tk !in r.shares && r.cash == s.cash && r.taxPaid == s.taxPaid && r.traded == s.traded
      && forall k :: k != tk ==> SameHolding(s, r, k)
  {
    hide NoDup, Worth, TripReturn;
  }

  lemma SurplusIsTraded(s: State, tk: Ticker, want: Target, value: real, q: Quotes)
    requires tk in s.shares && tk in q && value > 0.0
    ensures var excess := Excess(s.shares[tk], q[tk], Weight(want, tk), value);
      Surplus(s, q, want, value, tk) == if Negligible(excess, value) then 0.0 else excess
    ensures Surplus(s, q, want, value, tk) >= 0.0
  {
    hide Worth, Weight;
  }

  lemma SellStepIs(s: State, tk: Ticker, want: Target, value: real, q: Quotes, day: int, t: Terms)
    requires Coherent(s) && tk in s.shares && Quoted(s.order, q) && value > 0.0
    ensures var excess := Excess(s.shares[tk], q[tk], Weight(want, tk), value);
      var sold := BookSale(s, tk, SaleOf(excess, Get(s.basis, tk, q[tk]), s.lossBank, q[tk], t));
      SellStep(s, tk, want, value, q, day, t)
      == if Negligible(excess, value) then s
        else if Dust(sold.shares[tk], q[tk], value) then Close(sold, tk, q[tk], day) else sold
  {
    hide NoDup, Worth, Holdings, BookSale, SaleOf, Close, Negligible, Dust, Excess;
  }

  lemma SellStepDoes(s: State, tk: Ticker, want: Target, value: real, q: Quotes, day: int, t: Terms)
    requires Coherent(s) && tk in s.shares && Quoted(s.order, q) && value > 0.0
    ensures var r := SellStep(s, tk, want, value, q, day, t);
      && SoldDown(s, r, q, want, value, tk)
      && (forall k :: k != tk ==> SameHolding(s, r, k))
      && r.cash == s.cash + Net(Surplus(s, q, want, value, tk), t) - (r.taxPaid - s.taxPaid)
      && r.traded == s.traded + Surplus(s, q, want, value, tk)
  {
    hide Coherent, Quoted, Worth, Net, BookSale, SaleOf, Close, SellStep, Surplus, Excess, Negligible, Weight,
         SameHolding;
    HeldIsQuoted(s, tk, q);
    var excess := Excess(s.shares[tk], q[tk], Weight(want, tk), value);
    SellStepIs(s, tk, want, value, q, day, t);
    SurplusIsTraded(s, tk, want, value, q);
    if Negligible(excess, value) {
      SameAsItself(s);
      NothingKept(t);
    } else {
      BookSaleDoes(s, tk, want, value, q, t);
      CloseDoes(BookSale(s, tk, SaleOf(excess, Get(s.basis, tk, q[tk]), s.lossBank, q[tk], t)), tk, q[tk], day);
      TradedIsMore(excess, value);
      forall k | k != tk
        ensures SameHolding(s, SellStep(s, tk, want, value, q, day, t), k)
      {
        var sold := BookSale(s, tk, SaleOf(excess, Get(s.basis, tk, q[tk]), s.lossBank, q[tk], t));
        if Dust(sold.shares[tk], q[tk], value) {
          SameHoldingTwice(s, sold, Close(sold, tk, q[tk], day), k);
        }
      }
    }
  }

  lemma HeldIsQuoted(s: State, tk: Ticker, q: Quotes)
    requires Coherent(s) && tk in s.shares && Quoted(s.order, q)
    ensures tk in q && tk in s.order && tk in s.basis
  {
    hide NoDup;
  }

  lemma TradedIsMore(excess: real, value: real)
    requires !Negligible(excess, value) && value > 0.0
    ensures excess > 0.0
  {
  }

  lemma NothingKept(t: Terms)
    ensures Net(0.0, t) == 0.0
  {
  }

  lemma KeptAdds(x: real, y: real, t: Terms)
    ensures Net(x + y, t) == Net(x, t) + Net(y, t)
  {
  }

  /** These holdings have been gone through and no other touched. */
  ghost predicate SalesDone(s: State, r: State, tks: seq<Ticker>, q: Quotes, want: Target, value: real) {
    && (forall tk :: tk in tks ==> SoldDown(s, r, q, want, value, tk))
    && (forall tk :: tk !in tks ==> SameHolding(s, r, tk))
  }

  lemma SalesDoneNext(s: State, m: State, r: State, tks: seq<Ticker>, q: Quotes, want: Target, value: real)
    requires tks != [] && NoDup(tks) && SalesDone(s, m, tks[..|tks| - 1], q, want, value)
    requires var tk := tks[|tks| - 1];
      SoldDown(m, r, q, want, value, tk) && forall k :: k != tk ==> SameHolding(m, r, k)
    ensures SalesDone(s, r, tks, q, want, value)
    ensures Surplus(m, q, want, value, tks[|tks| - 1]) == Surplus(s, q, want, value, tks[|tks| - 1])
  {
    hide SoldDown, SameHolding, Surplus;
    var n := |tks| - 1;
    assert tks[n] !in tks[..n] && tks == tks[..n] + [tks[n]];
    SameHoldingSameSurplus(s, m, q, want, value, tks[n]);
    forall tk | tk in tks
      ensures SoldDown(s, r, q, want, value, tk)
    {
      if tk == tks[n] {
        SoldDownFrom(s, m, r, q, want, value, tk);
      } else {
        SoldDownStays(s, m, r, q, want, value, tk);
      }
    }
    forall tk | tk !in tks
      ensures SameHolding(s, r, tk)
    {
      SameHoldingTwice(s, m, r, tk);
    }
  }

  /** Once these holdings have been gone through, the proceeds, less dealing cost and tax, are cash. */
  lemma {:induction false} SalesDo(s: State, tks: seq<Ticker>, want: Target, value: real, q: Quotes, day: int, t: Terms)
    requires Sellable(s, tks, q) && Quoted(s.order, q) && value > 0.0
    ensures var r := SellAll(s, tks, want, value, q, day, t);
      && SalesDone(s, r, tks, q, want, value)
      && r.cash == s.cash + Net(Raised(tks, s, q, want, value), t) - (r.taxPaid - s.taxPaid)
      && r.traded == s.traded + Raised(tks, s, q, want, value)
    decreases |tks|
  {
    hide SellStep, SellAll, SalesDone, SoldDown, Surplus, Net, SameHolding, Coherent, NoDup, Quoted;
    if tks == [] {
      SellAllOfNone(s, tks, want, value, q, day, t);
      NothingKept(t);
      NoSalesDone(s, tks, q, want, value);
    } else {
      var n := |tks| - 1;
      FirstOfSellable(s, tks, n, q);
      assert tks[..n + 1] == tks;
      SalesDo(s, tks[..n], want, value, q, day, t);
      SellAllNext(s, tks, n, want, value, q, day, t);
      var m := SellAll(s, tks[..n], want, value, q, day, t);
      SoldIsQuoted(s, tks[..n], want, value, q, day, t);
      SellStepDoes(m, tks[n], want, value, q, day, t);
      SellableIsDistinct(s, tks, q);
      SalesDoneNext(s, m, SellStep(m, tks[n], want, value, q, day, t), tks, q, want, value);
      KeptAdds(Raised(tks[..n], s, q, want, value), Surplus(s, q, want, value, tks[n]), t);
    }
  }

  lemma FirstOfSellable(s: State, tks: seq<Ticker>, k: nat, q: Quotes)
    requires Sellable(s, tks, q) && k <= |tks|
    ensures Sellable(s, tks[..k], q)
  {
  }

  lemma SellableIsDistinct(s: State, tks: seq<Ticker>, q: Quotes)
    requires Sellable(s, tks, q)
    ensures NoDup(tks)
  {
  }

  lemma SoldIsQuoted(s: State, tks: seq<Ticker>, want: Target, value: real, q: Quotes, day: int, t: Terms)
    requires Sellable(s, tks, q) && Quoted(s.order, q)
    ensures var m := SellAll(s, tks, want, value, q, day, t); Coherent(m) && Quoted(m.order, q)
  {
    hide SellStep, NoDup;
  }

  lemma NoSalesDone(s: State, tks: seq<Ticker>, q: Quotes, want: Target, value: real)
    requires tks == []
    ensures SalesDone(s, s, tks, q, want, value)
  {
  }

  lemma SameAsItself(s: State)
    ensures forall tk :: SameHolding(s, s, tk)
  {
  }

  lemma SameHoldingTwice(s: State, m: State, r: State, tk: Ticker)
    requires SameHolding(s, m, tk) && SameHolding(m, r, tk)
    ensures SameHolding(s, r, tk)
  {
  }

  lemma SameHoldingSameSurplus(s: State, m: State, q: Quotes, want: Target, value: real, tk: Ticker)
    requires SameHolding(s, m, tk)
    ensures WorthOf(m, q, tk) == WorthOf(s, q, tk) && Surplus(m, q, want, value, tk) == Surplus(s, q, want, value, tk)
  {
  }

  lemma SoldDownFrom(s: State, m: State, r: State, q: Quotes, want: Target, value: real, tk: Ticker)
    requires SameHolding(s, m, tk) && SoldDown(m, r, q, want, value, tk)
    ensures SoldDown(s, r, q, want, value, tk)
  {
    hide Worth, Weight;
  }

  lemma SoldDownStays(s: State, m: State, r: State, q: Quotes, want: Target, value: real, tk: Ticker)
    requires SoldDown(s, m, q, want, value, tk) && SameHolding(m, r, tk)
    ensures SoldDown(s, r, q, want, value, tk)
  {
    hide Worth, Weight;
  }

  // ---------------------------------------------------------------- the purchases

  /** What the first k entries of the target are short of. */
  function NeededBefore(s: State, q: Quotes, want: Target, value: real, k: nat): (n: real)
    requires k <= |want|
    ensures value > 0.0 ==> n >= 0.0
  {
    if k == 0 then 0.0 else NeededBefore(s, q, want, value, k - 1) + Shortfall(s, q, want, value, want[k - 1].ticker)
  }

  /** What is left of some cash once so much was asked of it. */
  function LeftFrom(cash: real, needed: real): real { if cash <= 0.0 then cash else Max(0.0, cash - needed) }

  /** What is spent on the k-th entry of the target, out of what the entries before it left. */
  function SpentOn(cash: real, s: State, q: Quotes, want: Target, value: real, k: nat): real
    requires k < |want|
  {
    Max(0.0, Min(Shortfall(s, q, want, value, want[k].ticker), LeftFrom(cash, NeededBefore(s, q, want, value, k))))
  }

  lemma LeftAfterMore(cash: real, needed: real, more: real)
    requires needed >= 0.0 && more >= 0.0
    ensures LeftFrom(cash, needed + more) == LeftFrom(cash, needed) - Max(0.0, Min(more, LeftFrom(cash, needed)))
  {
  }

  /** One ticker bought for so much money, dealing cost included. */
  ghost predicate Bought(s: State, r: State, q: Quotes, t: Terms, tk: Ticker, spent: real) {
    && (tk in r.shares <==> tk in s.shares || spent > 0.0)
    && WorthOf(r, q, tk) == WorthOf(s, q, tk) + Net(spent, t)
    && (spent == 0.0 ==> SameHolding(s, r, tk))
  }

  lemma BookPurchaseDoes(s: State, tk: Ticker, spend: real, basis: real, q: Quotes, day: int, t: Terms)
    requires Coherent(s) && tk in q && spend > 0.0
    ensures var r := BookPurchase(s, tk, spend, PurchaseOf(spend, Get(s.shares, tk, 0.0), basis, q[tk], t), q[tk], day);
      && Bought(s, r, q, t, tk, spend) && r.cash == s.cash - spend && r.taxPaid == s.taxPaid &&
           r.traded == s.traded + spend
      && forall k :: k != tk ==> SameHolding(s, r, k)
  {
    hide NoDup, Worth, DealingCost, Net, AverageCost;
    var buy := PurchaseOf(spend, Get(s.shares, tk, 0.0), basis, q[tk], t);
    PurchaseIsWorthItsSpend(spend, Get(s.shares, tk, 0.0), basis, q[tk], t);
    CostLeavesKept(spend, t);
    WorthOfSum(Get(s.shares, tk, 0.0), buy.shares, q[tk]);
    WorthOfDifference(0.0, 0.0, q[tk]);
  }

  lemma BuyStepIs(s: State, leg: Leg, value: real, q: Quotes, day: int, t: Terms)
    requires Coherent(s) && leg.ticker in q
    ensures var tk, held := leg.ticker, Get(s.shares, leg.ticker, 0.0);
      var short := -Excess(held, q[tk], leg.weight, value);
      var spend := Min(short, s.cash);
      BuyStep(s, leg, value, q, day, t)
      == if Negligible(short, value) || spend <= 0.0 then s
         else BookPurchase(s, tk, spend, PurchaseOf(spend, held, Get(s.basis, tk, 0.0), q[tk], t), q[tk], day)
  {
    hide Coherent, Worth, Excess, Negligible, PurchaseOf, BookPurchase;
  }

  lemma ShortfallIsTraded(s: State, leg: Leg, want: Target, value: real, q: Quotes)
    requires leg.ticker in q && value > 0.0 && leg.weight == Weight(want, leg.ticker)
    ensures var short := -Excess(Get(s.shares, leg.ticker, 0.0), q[leg.ticker], leg.weight, value);
      Shortfall(s, q, want, value, leg.ticker) == if Negligible(short, value) then 0.0 else short
    ensures Shortfall(s, q, want, value, leg.ticker) >= 0.0
  {
    hide Weight;
  }

  lemma BuyStepDoes(s: State, leg: Leg, want: Target, value: real, q: Quotes, day: int, t: Terms)
    requires Coherent(s) && leg.ticker in q && value > 0.0 && leg.weight == Weight(want, leg.ticker)
    ensures var r := BuyStep(s, leg, value, q, day, t);
      var spent := Max(0.0, Min(Shortfall(s, q, want, value, leg.ticker), s.cash));
      && Bought(s, r, q, t, leg.ticker, spent) && r.cash == s.cash - spent && r.taxPaid == s.taxPaid &&
           r.traded == s.traded + spent
      && forall k :: k != leg.ticker ==> SameHolding(s, r, k)
  {
    hide Coherent, Worth, Excess, Negligible, PurchaseOf, BookPurchase, BuyStep, Shortfall, Bought, SameHolding, Weight;
    var tk := leg.ticker;
    var short := -Excess(Get(s.shares, tk, 0.0), q[tk], leg.weight, value);
    BuyStepIs(s, leg, value, q, day, t);
    ShortfallIsTraded(s, leg, want, value, q);
    if Negligible(short, value) || Min(short, s.cash) <= 0.0 {
      SameAsItself(s);
      NothingBought(s, q, t, tk);
    } else {
      BookPurchaseDoes(s, tk, Min(short, s.cash), Get(s.basis, tk, 0.0), q, day, t);
    }
  }

  lemma NothingBought(s: State, q: Quotes, t: Terms, tk: Ticker)
    ensures Bought(s, s, q, t, tk, 0.0)
  {
    NothingKept(t);
  }

  /** The first k entries of the target have been gone through and no other ticker touched. */
  ghost predicate PurchasesDone(s: State, r: State, want: Target, k: nat, q: Quotes, value: real, t: Terms)
    requires k <= |want|
  {
    && (forall i :: 0 <= i < k ==> Bought(s, r, q, t, want[i].ticker, SpentOn(s.cash, s, q, want, value, i)))
    && (forall tk :: (forall i :: 0 <= i < k ==> want[i].ticker != tk) ==> SameHolding(s, r, tk))
  }

  /** Each entry of the target is bought, in order, for what it is short of or for what the entries before it left. */
  lemma {:induction false} PurchasesDo(s: State, want: Target, k: nat, value: real, q: Quotes, day: int, t: Terms)
    requires Coherent(s) && TargetQuoted(want, q) && OneLegEach(want) && value > 0.0 && k <= |want|
    ensures TargetQuoted(want[..k], q)
    ensures var r := BuyAll(s, want[..k], value, q, day, t);
      && PurchasesDone(s, r, want, k, q, value, t)
      && r.cash == LeftFrom(s.cash, NeededBefore(s, q, want, value, k)) && r.taxPaid == s.taxPaid
      && r.traded == s.traded + (s.cash - r.cash)
    decreases k
  {
    hide Coherent, BuyStep, Bought, SameHolding, Shortfall, Weight, LeftFrom, SpentOn;
    LegsQuoted(want, k, q);
    if k == 0 {
      NothingAsked(s.cash);
      SameAsItself(s);
    } else {
      var n := k - 1;
      PurchasesDo(s, want, n, value, q, day, t);
      assert want[..k][..n] == want[..n] && want[..k][n] == want[n];
      var m := BuyAll(s, want[..n], value, q, day, t);
      WeightOfLeg(want, n);
      BuyStepDoes(m, want[n], want, value, q, day, t);
      PurchasesDoneNext(s, m, BuyStep(m, want[n], value, q, day, t), want, n, q, value, t);
      LeftAfterMore(s.cash, NeededBefore(s, q, want, value, n), Shortfall(s, q, want, value, want[n].ticker));
    }
  }

  lemma LegsQuoted(want: Target, k: nat, q: Quotes)
    requires TargetQuoted(want, q) && k <= |want|
    ensures TargetQuoted(want[..k], q) && forall i :: 0 <= i < |want| ==> want[i].ticker in q
  {
    assert forall i :: 0 <= i < |want| ==> want[i] in want;
  }

  lemma NothingAsked(cash: real)
    ensures LeftFrom(cash, 0.0) == cash
  {
  }

  lemma PurchasesDoneNext(s: State, m: State, r: State, want: Target, n: nat, q: Quotes, value: real, t: Terms)
    requires OneLegEach(want) && n < |want| && value > 0.0 && PurchasesDone(s, m, want, n, q, value, t)
    requires m.cash == LeftFrom(s.cash, NeededBefore(s, q, want, value, n))
    requires Bought(m, r, q, t, want[n].ticker, Max(0.0, Min(Shortfall(m, q, want, value, want[n].ticker), m.cash)))
    requires forall k :: k != want[n].ticker ==> SameHolding(m, r, k)
    ensures PurchasesDone(s, r, want, n + 1, q, value, t)
    ensures Shortfall(m, q, want, value, want[n].ticker) == Shortfall(s, q, want, value, want[n].ticker) >= 0.0
  {
    hide Bought, SameHolding, Shortfall, LeftFrom, NeededBefore;
    var tk := want[n].ticker;
    SameHoldingSameShortfall(s, m, q, want, value, tk);
    forall i | 0 <= i < n + 1
      ensures Bought(s, r, q, t, want[i].ticker, SpentOn(s.cash, s, q, want, value, i))
    {
      if i == n {
        BoughtFrom(s, m, r, q, t, tk, SpentOn(s.cash, s, q, want, value, i));
      } else {
        BoughtStays(s, m, r, q, t, want[i].ticker, SpentOn(s.cash, s, q, want, value, i));
      }
    }
    forall k | forall i :: 0 <= i < n + 1 ==> want[i].ticker != k
      ensures SameHolding(s, r, k)
    {
      SameHoldingTwice(s, m, r, k);
    }
  }

  lemma SameHoldingSameShortfall(s: State, m: State, q: Quotes, want: Target, value: real, tk: Ticker)
    requires SameHolding(s, m, tk) && value > 0.0
    ensures WorthOf(m, q, tk) == WorthOf(s, q, tk)
    ensures Shortfall(m, q, want, value, tk) == Shortfall(s, q, want, value, tk) >= 0.0
  {
  }

  lemma BoughtFrom(s: State, m: State, r: State, q: Quotes, t: Terms, tk: Ticker, spent: real)
    requires SameHolding(s, m, tk) && Bought(m, r, q, t, tk, spent)
    ensures Bought(s, r, q, t, tk, spent)
  {
    hide Worth, Net;
  }

  lemma BoughtStays(s: State, m: State, r: State, q: Quotes, t: Terms, tk: Ticker, spent: real)
    requires Bought(s, m, q, t, tk, spent) && SameHolding(m, r, tk)
    ensures Bought(s, r, q, t, tk, spent)
  {
    hide Worth, Net;
  }

  // ---------------------------------------------------------------- a day

  /** What a ticker's holding is worth once sales are done. */
  function WorthKept(s: State, q: Quotes, want: Target, value: real, tk: Ticker): real {
    if Dropped(s, q, want, value, tk) then 0.0
    else if Surplus(s, q, want, value, tk) > 0.0 then Aim(want, tk, value)
    else WorthOf(s, q, tk)
  }

  /** A ticker is bought for what was spent on it, on top of what selling left of it. */
  ghost predicate EndsAt(s: State, r: State, q: Quotes, want: Target, value: real, t: Terms, tk: Ticker, spent: real) {
    && WorthOf(r, q, tk) == WorthKept(s, q, want, value, tk) + Net(spent, t)
    && (tk in r.shares <==> (tk in s.shares && !Dropped(s, q, want, value, tk)) || spent > 0.0)
    && (Surplus(s, q, want, value, tk) == 0.0 && spent == 0.0 ==> SameHolding(s, r, tk))
  }

  /** A day that trades: what is over target is sold first; the cash there was and the proceeds, less dealing cost and
      tax, then buy what the target is short of, entry by entry, while they last.  Nothing else is touched. */
  ghost predicate TradedTo(s: State, r: State, q: Quotes, want: Target, value: real, t: Terms) {
    var cash := s.cash + Net(Raised(s.order, s, q, want, value), t) - (r.taxPaid - s.taxPaid);
    && r.cash == LeftFrom(cash, NeededBefore(s, q, want, value, |want|))
    && r.traded == s.traded + Raised(s.order, s, q, want, value) + (cash - r.cash)
    && (forall k :: 0 <= k < |want| ==>
          EndsAt(s, r, q, want, value, t, want[k].ticker, SpentOn(cash, s, q, want, value, k)))
    && (forall tk :: !Wants(want, tk) ==> EndsAt(s, r, q, want, value, t, tk, 0.0))
  }

  lemma SoldWorth(s: State, m: State, q: Quotes, want: Target, value: real, tk: Ticker)
    requires value > 0.0 && if tk in s.shares then SoldDown(s, m, q, want, value, tk) else SameHolding(s, m, tk)
    ensures WorthOf(m, q, tk) == WorthKept(s, q, want, value, tk)
    ensures Shortfall(m, q, want, value, tk) == Shortfall(s, q, want, value, tk)
    ensures tk in m.shares <==> tk in s.shares && !Dropped(s, q, want, value, tk)
    ensures Surplus(s, q, want, value, tk) == 0.0 ==> SameHolding(s, m, tk)
  {
    hide Weight;
  }

  lemma {:induction false} SameNeeds(s: State, m: State, q: Quotes, want: Target, value: real, k: nat)
    requires k <= |want| && forall tk :: Shortfall(m, q, want, value, tk) == Shortfall(s, q, want, value, tk)
    ensures NeededBefore(m, q, want, value, k) == NeededBefore(s, q, want, value, k)
  {
    hide Shortfall;
    if k > 0 {
      SameNeeds(s, m, q, want, value, k - 1);
    }
  }

  lemma BoughtEndsAt(s: State, m: State, r: State, q: Quotes, want: Target, value: real, t: Terms, tk: Ticker,
                     spent: real)
    requires value > 0.0 && if tk in s.shares then SoldDown(s, m, q, want, value, tk) else SameHolding(s, m, tk)
    requires Bought(m, r, q, t, tk, spent)
    ensures EndsAt(s, r, q, want, value, t, tk, spent)
  {
    hide WorthOf, Surplus, Dropped, Shortfall, WorthKept, Net, SoldDown;
    SoldWorth(s, m, q, want, value, tk);
  }

  lemma NotNamed(want: Target, tk: Ticker)
    requires !Wants(want, tk)
    ensures forall i :: 0 <= i < |want| ==> want[i].ticker != tk
  {
    assert forall i :: 0 <= i < |want| ==> want[i] in want;
  }

  lemma SameHoldingIsBought(s: State, r: State, q: Quotes, t: Terms, tk: Ticker)
    requires SameHolding(s, r, tk)
    ensures Bought(s, r, q, t, tk, 0.0)
  {
    NothingKept(t);
  }

  /** What the sales leave of a ticker. */
  ghost predicate Sold(s: State, m: State, q: Quotes, want: Target, value: real, tk: Ticker) {
    if tk in s.shares then SoldDown(s, m, q, want, value, tk) else SameHolding(s, m, tk)
  }

  lemma WantedEnds(s: State, m: State, r: State, q: Quotes, want: Target, value: real, t: Terms, k: nat)
    requires value > 0.0 && k < |want| && forall tk :: Sold(s, m, q, want, value, tk)
    requires PurchasesDone(m, r, want, |want|, q, value, t)
    ensures EndsAt(s, r, q, want, value, t, want[k].ticker, SpentOn(m.cash, s, q, want, value, k))
  {
    hide Bought, SameHolding, Shortfall, Surplus, Dropped, SoldDown, LeftFrom, WorthKept, EndsAt, Net;
    forall tk
      ensures Shortfall(m, q, want, value, tk) == Shortfall(s, q, want, value, tk)
    {
      assert Sold(s, m, q, want, value, tk);
      SoldWorth(s, m, q, want, value, tk);
    }
    SameNeeds(s, m, q, want, value, k);
    assert Sold(s, m, q, want, value, want[k].ticker);
    BoughtEndsAt(s, m, r, q, want, value, t, want[k].ticker, SpentOn(m.cash, s, q, want, value, k));
  }

  lemma UnwantedEnds(s: State, m: State, r: State, q: Quotes, want: Target, value: real, t: Terms, tk: Ticker)
    requires value > 0.0 && !Wants(want, tk) && Sold(s, m, q, want, value, tk)
    requires PurchasesDone(m, r, want, |want|, q, value, t)
    ensures EndsAt(s, r, q, want, value, t, tk, 0.0)
  {
    hide Bought, SameHolding, Shortfall, Surplus, Dropped, SoldDown, LeftFrom, WorthKept, EndsAt, Net;
    NotNamed(want, tk);
    SameHoldingIsBought(m, r, q, t, tk);
    BoughtEndsAt(s, m, r, q, want, value, t, tk, 0.0);
  }

  lemma SalesThenPurchases(s: State, m: State, r: State, q: Quotes, want: Target, value: real, t: Terms)
    requires Coherent(s) && value > 0.0 && SalesDone(s, m, s.order, q, want, value)
    requires m.cash == s.cash + Net(Raised(s.order, s, q, want, value), t) - (m.taxPaid - s.taxPaid)
    requires PurchasesDone(m, r, want, |want|, q, value, t) && r.taxPaid == m.taxPaid
    requires r.cash == LeftFrom(m.cash, NeededBefore(m, q, want, value, |want|))
    requires r.traded == s.traded + Raised(s.order, s, q, want, value) + (m.cash - r.cash)
    ensures TradedTo(s, r, q, want, value, t)
  {
    hide Bought, SameHolding, Shortfall, SoldDown, LeftFrom, WorthKept, EndsAt, Net, NoDup, PurchasesDone, SpentOn;
    forall tk
      ensures Sold(s, m, q, want, value, tk)
      ensures Shortfall(m, q, want, value, tk) == Shortfall(s, q, want, value, tk)
    {
      SoldWorth(s, m, q, want, value, tk);
    }
    SameNeeds(s, m, q, want, value, |want|);
    forall k | 0 <= k < |want|
      ensures EndsAt(s, r, q, want, value, t, want[k].ticker, SpentOn(m.cash, s, q, want, value, k))
    {
      WantedEnds(s, m, r, q, want, value, t, k);
    }
    forall tk | !Wants(want, tk)
      ensures EndsAt(s, r, q, want, value, t, tk, 0.0)
    {
      UnwantedEnds(s, m, r, q, want, value, t, tk);
    }
  }

  lemma RebalanceTrades(s: State, want: Target, q: Quotes, day: int, t: Terms)
    requires Coherent(s) && Quoted(s.order, q) && TargetQuoted(want, q) && OneLegEach(want)
    ensures var r, value := Rebalance(s, want, q, day, t), Equity(s, q);
      && (value <= 0.0 || DriftOf(s.order, s.shares, q, value, want) < 0.01 ==> r == s)
      && (value > 0.0 && DriftOf(s.order, s.shares, q, value, want) >= 0.01 ==> TradedTo(s, r, q, want, value, t))
  {
    hide DriftOf, SellAll, BuyAll, Equity, Coherent, TradedTo, SalesDone, PurchasesDone, NeededBefore, LeftFrom,
         Raised, Net;
    var value := Equity(s, q);
    if value > 0.0 && DriftOf(s.order, s.shares, q, value, want) >= 0.01 {
      FirstAreSellable(s, |s.order|, q);
      assert s.order[..|s.order|] == s.order && want[..|want|] == want;
      var m := SellAll(s, s.order, want, value, q, day, t);
      SalesDo(s, s.order, want, value, q, day, t);
      PurchasesDo(m, want, |want|, value, q, day, t);
      SalesThenPurchases(s, m, BuyAll(m, want, value, q, day, t), q, want, value, t);
    }
  }

  /** Over the run: a day on which the book is worth nothing, or stands within one percent of the target in all, changes
      nothing; every other day trades. */
  lemma DayTradesIff(px: Closes, targets: seq<Target>, t: Terms, day: nat, tks: seq<Ticker>)
    requires Covers(px, targets) && day < |targets| && OneLegEach(WantOn(targets, day))
    requires Lists(tks, After(px, targets, t, day), WantOn(targets, day))
    ensures var s, r := After(px, targets, t, day), After(px, targets, t, day + 1);
      var q, want, value := QuotesOn(px, day), WantOn(targets, day), ValueOn(px, targets, t, day);
      if value <= 0.0 || Distance(tks, s, q, want, value) < 0.01 then r == s else TradedTo(s, r, q, want, value, t)
  {
    hide Equity, DriftOf, Rebalance, TradedTo, Distance, Lists, Coherent;
    WantIsListed(px, targets, day);
    var s, q, want := After(px, targets, t, day), QuotesOn(px, day), WantOn(targets, day);
    if ValueOn(px, targets, t, day) > 0.0 {
      DriftIsDistance(tks, s, q, want, ValueOn(px, targets, t, day));
    }
    RebalanceTrades(s, want, q, day, t);
  }

  // ---------------------------------------------------------------- how near the target it ends

  lemma EndsAtMost(
      s: State, r: State, q: Quotes, want: Target, value: real, t: Terms, tk: Ticker, spent: real)
    requires EndsAt(s, r, q, want, value, t, tk, spent) && tk in r.shares
    requires value > 0.0 && t.costBps >= 0.0 && 0.0 <= spent <= Shortfall(s, q, want, value, tk)
    ensures WorthOf(r, q, tk) <= Aim(want, tk, value) + value * 0.005
  {
    hide WorthOf, Net, Aim;
    KeepsAtMost(spent, t);
    AtLeastNothing(s, q, tk);
  }

  lemma AtLeastNothing(s: State, q: Quotes, tk: Ticker)
    ensures tk !in s.shares ==> WorthOf(s, q, tk) == 0.0
  {
  }

  /** No holding ends a traded day more than half a percent of the book over its target. */
  lemma NothingEndsOver(s: State, r: State, q: Quotes, want: Target, value: real, t: Terms, tk: Ticker)
    requires TradedTo(s, r, q, want, value, t) && value > 0.0 && t.costBps >= 0.0 && tk in r.shares
    ensures WorthOf(r, q, tk) <= Aim(want, tk, value) + value * 0.005
  {
    hide EndsAt, LeftFrom, Net, Shortfall;
    ShortfallIsNone(s, q, want, value, tk);
    if k :| 0 <= k < |want| && want[k].ticker == tk {
      var cash := s.cash + Net(Raised(s.order, s, q, want, value), t) - (r.taxPaid - s.taxPaid);
      EndsAtMost(s, r, q, want, value, t, tk, SpentOn(cash, s, q, want, value, k));
    } else {
      assert !Wants(want, tk);
      EndsAtMost(s, r, q, want, value, t, tk, 0.0);
    }
  }

  lemma ShortfallIsNone(s: State, q: Quotes, want: Target, value: real, tk: Ticker)
    requires value > 0.0
    ensures Shortfall(s, q, want, value, tk) >= 0.0
  {
  }

  lemma KeepsAtMost(spent: real, t: Terms)
    requires spent >= 0.0 && t.costBps >= 0.0
    ensures Net(spent, t) <= spent
  {
    assert spent * (t.costBps / 10000.0) >= 0.0;
  }

  /** What the target is short of once cash is left over: nothing worth trading, beyond the dealing cost of what was
      bought.  So with cash left an entry ends within half a percent of the book under its target exactly when the
      dealing cost of what it was short of is within that. */
  lemma NothingEndsShortIff(s: State, r: State, q: Quotes, want: Target, value: real, t: Terms, k: nat)
    requires TradedTo(s, r, q, want, value, t) && value > 0.0 && k < |want| && r.cash > 0.0
    ensures var tk := want[k].ticker; var short := Shortfall(s, q, want, value, tk);
      && (short > 0.0 ==> WorthOf(r, q, tk) == Aim(want, tk, value) - DealingCost(short, t))
      && (WorthOf(r, q, tk) >= Aim(want, tk, value) - value * 0.005 <==> DealingCost(short, t) <= value * 0.005)
  {
    hide WorthOf, NeededBefore, Raised, Net, Weight, DealingCost;
    var cash := s.cash + Net(Raised(s.order, s, q, want, value), t) - (r.taxPaid - s.taxPaid);
    NeedsGrow(s, q, want, value, k + 1, |want|);
    NeededNext(s, q, want, value, k);
    CostLeavesKept(Shortfall(s, q, want, value, want[k].ticker), t);
    NothingKept(t);
    NothingCosts(t);
  }

  lemma NothingCosts(t: Terms)
    ensures DealingCost(0.0, t) == 0.0
  {
  }

  lemma NeededNext(s: State, q: Quotes, want: Target, value: real, k: nat)
    requires k < |want|
    ensures NeededBefore(s, q, want, value, k + 1)
         == NeededBefore(s, q, want, value, k) + Shortfall(s, q, want, value, want[k].ticker)
  {
  }

  lemma {:induction false} NeedsGrow(s: State, q: Quotes, want: Target, value: real, j: nat, k: nat)
    requires j <= k <= |want| && value > 0.0
    ensures NeededBefore(s, q, want, value, j) <= NeededBefore(s, q, want, value, k)
    decreases k
  {
    hide WorthOf, Weight;
    if j < k {
      NeedsGrow(s, q, want, value, j, k - 1);
    }
  }
}
