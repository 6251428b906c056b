/** What the simulated book can and cannot do with money, over whole runs. */
module Accounting {
  import opened Basics
  import opened Simulator

  // ---------------------------------------------------------------- vocabulary

  /** Non-negative rates that together never exceed a sale's proceeds. */
  ghost predicate FairTerms(t: Terms) {
    t.costBps >= 0.0 && t.cgtRate >= 0.0 && t.cgtRate + t.costBps / 10000.0 <= 1.0
  }

  ghost predicate LongOnly(want: Target) {
    forall leg :: leg in want ==> leg.weight >= 0.0
  }

  /** No weight asks for less than the dust threshold without asking for nothing at all. */
  ghost predicate NoDust(want: Target) {
    forall leg :: leg in want ==> leg.weight == 0.0 || leg.weight >= 0.005
  }

  ghost predicate Solvent(s: State)
    requires Coherent(s)
  {
    && s.cash >= 0.0 && s.lossBank >= 0.0
    && forall tk :: tk in s.order ==> s.shares[tk] >= 0.0 && s.basis[tk] >= 0.0
  }

  /** Everything that has left the book: tax, dealing cost and forgotten dust. */
  function Leaked(s: State): real { s.taxPaid + s.audit.costs + s.audit.dropped }

  /** The tax ledger: tax is due on gains net of losses, except for losses still banked. */
  ghost predicate TaxBalances(s: State, t: Terms) {
    s.taxPaid == t.cgtRate * (s.audit.gains - s.audit.losses + s.lossBank)
  }

  // ---------------------------------------------------------------- holdings arithmetic

  lemma {:induction false} HoldingsIgnore(order: seq<Ticker>, a: map<Ticker, real>, b: map<Ticker, real>, q: Quotes)
    requires Quoted(order, q)
    requires forall tk :: tk in order ==> Get(a, tk, 0.0) == Get(b, tk, 0.0)
    ensures Holdings(order, a, q) == Holdings(order, b, q)
  {
    if order != [] {
      HoldingsIgnore(order[1..], a, b, q);
    }
  }

  lemma {:induction false} HoldingsUpdate(order: seq<Ticker>, a: map<Ticker, real>, tk: Ticker, v: real, q: Quotes)
    requires Quoted(order, q) && NoDup(order) && tk in order && tk in a
    ensures Holdings(order, a[tk := v], q) == Holdings(order, a, q) + Worth(v, q[tk]) - Worth(a[tk], q[tk])
  {
    hide Worth;
    if order[0] == tk {
      HoldingsIgnore(order[1..], a[tk := v], a, q);
    } else {
      HoldingsUpdate(order[1..], a, tk, v, q);
    }
  }

  lemma {:induction false} HoldingsWithout(order: seq<Ticker>, a: map<Ticker, real>, tk: Ticker, q: Quotes)
    requires Quoted(order, q) && NoDup(order) && tk in order && tk in a
    ensures Holdings(Without(order, tk), a - {tk}, q) == Holdings(order, a, q) - Worth(a[tk], q[tk])
  {
    hide Worth;
    if order[0] == tk {
      assert tk !in order[1..];
      WithoutAbsent(order[1..], tk);
      HoldingsIgnore(order[1..], a - {tk}, a, q);
    } else {
      HoldingsWithout(order[1..], a, tk, q);
      assert Without(order, tk)[1..] == Without(order[1..], tk);
    }
  }

  lemma {:induction false} WithoutAbsent<T(!new)>(s: seq<T>, x: T)
    requires x !in s
    ensures Without(s, x) == s
  {
    if s != [] {
      WithoutAbsent(s[1..], x);
    }
  }

  lemma {:induction false} HoldingsAppend(order: seq<Ticker>, a: map<Ticker, real>, tk: Ticker, v: real, q: Quotes)
    requires Quoted(order, q) && tk !in order && tk in q
    ensures Quoted(order + [tk], q)
    ensures Holdings(order + [tk], a[tk := v], q) == Holdings(order, a, q) + Worth(v, q[tk])
  {
    hide Worth;
    if order == [] {
      assert Holdings([tk], a[tk := v], q) == Worth(v, q[tk]) + Holdings([tk][1..], a[tk := v], q);
    } else {
      HoldingsAppend(order[1..], a, tk, v, q);
      assert (order + [tk])[1..] == order[1..] + [tk];
    }
  }

  // ---------------------------------------------------------------- one sale, one purchase

  lemma SaleIsWorthItsExcess(excess: real, basis: real, bank: real, p: Price, t: Terms)
    ensures var sale := SaleOf(excess, basis, bank, p, t); Worth(sale.shares, p) == sale.gross == excess
  {
  }

  lemma MulLe(a: real, b: real, c: real)
    requires a <= b && c >= 0.0
    ensures a * c <= b * c
  {
  }

  lemma GainWithinProceeds(excess: real, basis: real, p: Price)
    requires excess >= 0.0 && basis >= 0.0
    ensures (p - basis) * (excess / p) <= excess
  {
    var shares := excess / p;
    assert p * shares == excess && shares >= 0.0;
    MulLe(p - basis, p, shares);
  }

  lemma SettlementWithin(gain: real, gross: real, bank: real, rate: real)
    requires gain <= gross && 0.0 <= gross && bank >= 0.0 && rate >= 0.0
    ensures Settle(gain, bank, rate).tax <= gross * rate && Settle(gain, bank, rate).bank >= 0.0
  {
    if gain < 0.0 {
      MulLe(0.0, gross, rate);
    } else {
      MulLe(gain - Min(bank, gain), gross, rate);
    }
  }

  lemma RatesWithin(gross: real, a: real, b: real)
    requires gross >= 0.0 && a + b <= 1.0
    ensures gross * a + gross * b <= gross
  {
    MulLe(a + b, 1.0, gross);
    assert gross * (a + b) == gross * a + gross * b;
  }

  lemma CostIsAShare(amount: real, t: Terms)
    ensures DealingCost(amount, t) == amount * (t.costBps / 10000.0)
  {
  }

  lemma SaleIsAffordable(excess: real, basis: real, bank: real, p: Price, t: Terms)
    requires FairTerms(t) && excess >= 0.0 && basis >= 0.0 && bank >= 0.0
    ensures var sale := SaleOf(excess, basis, bank, p, t);
      sale.gross - sale.settled.tax - sale.cost >= 0.0 && sale.settled.bank >= 0.0
  {
    hide Worth, Settle, DealingCost;
    var sale := SaleOf(excess, basis, bank, p, t);
    SaleIsWorthItsExcess(excess, basis, bank, p, t);
    GainWithinProceeds(excess, basis, p);
    SettlementWithin(sale.gain, excess, bank, t.cgtRate);
    CostIsAShare(excess, t);
    RatesWithin(excess, t.cgtRate, t.costBps / 10000.0);
  }

  lemma WeightIsALeg(want: Target, tk: Ticker)
    ensures Weight(want, tk) == 0.0 || exists leg :: leg in want && leg.weight == Weight(want, tk)
  {
  }

  lemma WorthOfDifference(a: real, b: real, p: real)
    ensures Worth(a - b, p) == Worth(a, p) - Worth(b, p)
  {
  }

  lemma WorthOfSum(a: real, b: real, p: real)
    ensures Worth(a + b, p) == Worth(a, p) + Worth(b, p)
  {
  }

  /** Booking a sale whose shares are worth its gross proceeds moves value from holdings to cash. */
  lemma BookSaleBalances(s: State, tk: Ticker, sale: Sale, q: Quotes)
    requires Coherent(s) && tk in s.shares && Quoted(s.order, q) && Worth(sale.shares, q[tk]) == sale.gross
    ensures var r := BookSale(s, tk, sale);
      && Equity(r, q) + Leaked(r) == Equity(s, q) + Leaked(s)
      && Worth(r.shares[tk], q[tk]) == Worth(s.shares[tk], q[tk]) - sale.gross
  {
    hide Holdings, Worth;
    HoldingsUpdate(s.order, s.shares, tk, s.shares[tk] - sale.shares, q);
    WorthOfDifference(s.shares[tk], sale.shares, q[tk]);
  }

  lemma CloseBalances(s: State, tk: Ticker, q: Quotes, day: int)
    requires Coherent(s) && tk in s.shares && Quoted(s.order, q)
    ensures var r := Close(s, tk, q[tk], day);
      && Equity(r, q) + Leaked(r) == Equity(s, q) + Leaked(s)
      && forall t :: TaxBalances(s, t) ==> TaxBalances(r, t)
  {
    hide Holdings, TripReturn, Worth;
    HoldingsWithout(s.order, s.shares, tk, q);
  }

  lemma SettlementTax(gain: real, bank: real, rate: real)
    ensures var settled := Settle(gain, bank, rate);
      settled.tax == rate * (Max(gain, 0.0) - Max(-gain, 0.0) + settled.bank - bank)
  {
  }

  /** Tax is charged on the gain less what the loss bank absorbs, and a loss is banked whole. */
  lemma SaleKeepsTaxBalance(s: State, tk: Ticker, excess: real, basis: real, p: Price, t: Terms)
    requires Coherent(s) && tk in s.shares && TaxBalances(s, t)
    ensures TaxBalances(BookSale(s, tk, SaleOf(excess, basis, s.lossBank, p, t)), t)
  {
    hide Worth, Settle;
    var gain := SaleOf(excess, basis, s.lossBank, p, t).gain;
    SettlementTax(gain, s.lossBank, t.cgtRate);
  }

  lemma SellStepBalances(s: State, tk: Ticker, want: Target, value: real, q: Quotes, day: int, t: Terms)
    requires Coherent(s) && tk in s.shares && Quoted(s.order, q)
    ensures var r := SellStep(s, tk, want, value, q, day, t);
      && Equity(r, q) + Leaked(r) == Equity(s, q) + Leaked(s)
      && (TaxBalances(s, t) ==> TaxBalances(r, t))
  {
    hide NoDup, Equity, Leaked, Excess, Negligible, Dust, SaleOf, Worth, TripReturn, Close, BookSale, TaxBalances;
    var p := q[tk];
    var excess := Excess(s.shares[tk], p, Weight(want, tk), value);
    if !Negligible(excess, value) {
      var sale := SaleOf(excess, Get(s.basis, tk, p), s.lossBank, p, t);
      SaleIsWorthItsExcess(excess, Get(s.basis, tk, p), s.lossBank, p, t);
      BookSaleBalances(s, tk, sale, q);
      if TaxBalances(s, t) {
        SaleKeepsTaxBalance(s, tk, excess, Get(s.basis, tk, p), p, t);
      }
      CloseBalances(BookSale(s, tk, sale), tk, q, day);
    }
  }

  lemma PurchaseIsWorthItsSpend(spend: real, held: real, basis: real, p: Price, t: Terms)
    ensures var buy := PurchaseOf(spend, held, basis, p, t); Worth(buy.shares, p) == spend - buy.cost
  {
  }

  lemma BookPurchaseBalances(s: State, tk: Ticker, spend: real, buy: Purchase, q: Quotes, day: int)
    requires Coherent(s) && Quoted(s.order, q) && tk in q && Worth(buy.shares, q[tk]) == spend - buy.cost
    ensures var r := BookPurchase(s, tk, spend, buy, q[tk], day);
      && Quoted(r.order, q)
      && Equity(r, q) + Leaked(r) == Equity(s, q) + Leaked(s)
  {
    hide Holdings, Worth;
    var held := Get(s.shares, tk, 0.0);
    WorthOfSum(held, buy.shares, q[tk]);
    if tk in s.shares {
      HoldingsUpdate(s.order, s.shares, tk, held + buy.shares, q);
    } else {
      HoldingsAppend(s.order, s.shares, tk, held + buy.shares, q);
      assert Worth(0.0, q[tk]) == 0.0 by { WorthOfDifference(0.0, 0.0, q[tk]); }
    }
  }

  lemma BookPurchaseTax(s: State, tk: Ticker, spend: real, buy: Purchase, p: Price, day: int, t: Terms)
    requires Coherent(s) && TaxBalances(s, t)
    ensures TaxBalances(BookPurchase(s, tk, spend, buy, p, day), t)
  {
  }

  lemma BuyStepBalances(s: State, leg: Leg, value: real, q: Quotes, day: int, t: Terms)
    requires Coherent(s) && Quoted(s.order, q) && leg.ticker in q
    ensures var r := BuyStep(s, leg, value, q, day, t);
      && Quoted(r.order, q)
      && Equity(r, q) + Leaked(r) == Equity(s, q) + Leaked(s)
      && (TaxBalances(s, t) ==> TaxBalances(r, t))
  {
    hide Coherent, Equity, Leaked, Excess, Negligible, PurchaseOf, Worth, BookPurchase, TaxBalances;
    var p, held := q[leg.ticker], Get(s.shares, leg.ticker, 0.0);
    var spend := Min(-Excess(held, p, leg.weight, value), s.cash);
    var basis := Get(s.basis, leg.ticker, 0.0);
    PurchaseIsWorthItsSpend(spend, held, basis, p, t);
    BookPurchaseBalances(s, leg.ticker, spend, PurchaseOf(spend, held, basis, p, t), q, day);
    if TaxBalances(s, t) {
      BookPurchaseTax(s, leg.ticker, spend, PurchaseOf(spend, held, basis, p, t), p, day, t);
    }
  }

  // ---------------------------------------------------------------- a day's trading

  lemma {:induction false} SellAllBalances(s: State, tks: seq<Ticker>, want: Target, value: real, q: Quotes, day: int,
                                           t: Terms)
    requires Coherent(s) && NoDup(tks) && Quoted(s.order, q)
    requires forall tk :: tk in tks ==> tk in s.order
    ensures var r := SellAll(s, tks, want, value, q, day, t);
      && Equity(r, q) + Leaked(r) == Equity(s, q) + Leaked(s)
      && (TaxBalances(s, t) ==> TaxBalances(r, t))
    decreases |tks|
  {
    hide Equity, Leaked, TaxBalances, SellStep;
    if tks != [] {
      var n := |tks| - 1;
      SellAllBalances(s, tks[..n], want, value, q, day, t);
      SellStepBalances(SellAll(s, tks[..n], want, value, q, day, t), tks[n], want, value, q, day, t);
    }
  }

  lemma {:induction false} BuyAllBalances(s: State, want: Target, value: real, q: Quotes, day: int, t: Terms)
    requires Coherent(s) && Quoted(s.order, q) && TargetQuoted(want, q)
    ensures var r := BuyAll(s, want, value, q, day, t);
      && Equity(r, q) + Leaked(r) == Equity(s, q) + Leaked(s)
      && (TaxBalances(s, t) ==> TaxBalances(r, t))
    decreases |want|
  {
    hide Equity, Leaked, TaxBalances, BuyStep;
    if want != [] {
      var n := |want| - 1;
      assert want[n] in want;
      BuyAllBalances(s, want[..n], value, q, day, t);
      BuyStepBalances(BuyAll(s, want[..n], value, q, day, t), want[n], value, q, day, t);
    }
  }

  /** A day's trading moves value out of the book only as tax, dealing cost and forgotten dust. */
  lemma RebalanceBalances(s: State, want: Target, q: Quotes, day: int, t: Terms)
    requires Coherent(s) && Quoted(s.order, q) && TargetQuoted(want, q)
    ensures var r := Rebalance(s, want, q, day, t);
      && Equity(r, q) + Leaked(r) == Equity(s, q) + Leaked(s)
      && (TaxBalances(s, t) ==> TaxBalances(r, t))
  {
    hide Equity, Leaked, TaxBalances, SellAll, BuyAll, DriftOf;
    var value := Equity(s, q);
    SellAllBalances(s, s.order, want, value, q, day, t);
    BuyAllBalances(SellAll(s, s.order, want, value, q, day, t), want, value, q, day, t);
  }

  // ---------------------------------------------------------------- whole runs

  /** What the market gives a book between two days' closes: each holding times its price change. */
  function PriceGain(order: seq<Ticker>, shares: map<Ticker, real>, q: Quotes, r: Quotes): real
    requires Quoted(order, q) && Quoted(order, r)
  {
    if order == [] then 0.0
    else Get(shares, order[0], 0.0) * (r[order[0]] - q[order[0]]) + PriceGain(order[1..], shares, q, r)
  }

  lemma {:induction false} PriceGainIsRevaluation(order: seq<Ticker>, shares: map<Ticker, real>, q: Quotes, r: Quotes)
    requires Quoted(order, q) && Quoted(order, r)
    ensures Holdings(order, shares, r) == Holdings(order, shares, q) + PriceGain(order, shares, q, r)
  {
    if order != [] {
      PriceGainIsRevaluation(order[1..], shares, q, r);
    }
  }

  /** Price changes collected on the positions held overnight, over the days before `day`. */
  function MarketGain(px: Closes, targets: seq<Target>, t: Terms, day: nat): real
    requires Covers(px, targets) && day < |targets|
  {
    if day == 0 then 0.0
    else
      var s := After(px, targets, t, day);
      MarketGain(px, targets, t, day - 1)
      + PriceGain(s.order, s.shares, QuotesOn(px, day - 1), QuotesOn(px, day))
  }

  lemma DayBalances(px: Closes, targets: seq<Target>, t: Terms, day: nat)
    requires Covers(px, targets) && day < |targets|
    ensures var s, r, q := After(px, targets, t, day), After(px, targets, t, day + 1), QuotesOn(px, day);
      Equity(r, q) == ValueOn(px, targets, t, day) - (Leaked(r) - Leaked(s))
  {
    hide Equity, Leaked, Rebalance;
    WantIsListed(px, targets, day);
    RebalanceBalances(After(px, targets, t, day), WantOn(targets, day), QuotesOn(px, day), day, t);
  }

  /** Conservation over a whole run: a day's value is the starting 100, plus every price change on
      what was held, less all tax, cost and dust so far. */
  lemma {:induction false} RunConserves(px: Closes, targets: seq<Target>, t: Terms, day: nat)
    requires Covers(px, targets) && day < |targets|
    ensures ValueOn(px, targets, t, day)
         == 100.0 + MarketGain(px, targets, t, day) - Leaked(After(px, targets, t, day))
  {
    hide Holdings, PriceGain, Rebalance, Leaked;
    if day == 0 {
      StartIsAllCash(QuotesOn(px, 0));
    } else {
      RunConserves(px, targets, t, day - 1);
      DayBalances(px, targets, t, day - 1);
      var s := After(px, targets, t, day);
      PriceGainIsRevaluation(s.order, s.shares, QuotesOn(px, day - 1), QuotesOn(px, day));
    }
  }

  lemma StartIsAllCash(q: Quotes)
    ensures Equity(START, q) == 100.0 && Leaked(START) == 0.0
  {
  }

  /** The tax ledger balances after every day of every run. */
  lemma {:induction false} RunTaxBalances(px: Closes, targets: seq<Target>, t: Terms, n: nat)
    requires Covers(px, targets) && n <= |targets|
    ensures TaxBalances(After(px, targets, t, n), t)
  {
    hide Rebalance, TaxBalances;
    if n > 0 {
      RunTaxBalances(px, targets, t, n - 1);
      WantIsListed(px, targets, n - 1);
      RebalanceBalances(After(px, targets, t, n - 1), WantOn(targets, n - 1), QuotesOn(px, n - 1), n - 1, t);
    } else {
      StartBalances(t);
    }
  }

  lemma StartBalances(t: Terms)
    ensures TaxBalances(START, t)
  {
  }

  // ---------------------------------------------------------------- nothing goes negative

  lemma WorthSign(x: real, p: Price)
    ensures Worth(x, p) >= 0.0 <==> x >= 0.0
  {
  }

  lemma WeightAtLeast(want: Target, tk: Ticker)
    requires LongOnly(want)
    ensures Weight(want, tk) >= 0.0
  {
  }

  /** After a sale down to target the holding is worth exactly its target. */
  lemma SaleLandsOnTarget(s: State, tk: Ticker, weight: real, value: real, q: Quotes, t: Terms)
    requires Coherent(s) && tk in s.shares && Quoted(s.order, q)
    ensures var excess := Excess(s.shares[tk], q[tk], weight, value);
      Worth(BookSale(s, tk, SaleOf(excess, Get(s.basis, tk, q[tk]), s.lossBank, q[tk], t)).shares[tk], q[tk])
        == weight * value
  {
    hide Holdings, SaleOf, Worth;
    var excess := Excess(s.shares[tk], q[tk], weight, value);
    var sale := SaleOf(excess, Get(s.basis, tk, q[tk]), s.lossBank, q[tk], t);
    SaleIsWorthItsExcess(excess, Get(s.basis, tk, q[tk]), s.lossBank, q[tk], t);
    WorthOfDifference(s.shares[tk], sale.shares, q[tk]);
  }

  lemma BookSaleSolvent(s: State, tk: Ticker, want: Target, value: real, q: Quotes, t: Terms)
    requires Coherent(s) && tk in s.shares && Quoted(s.order, q) && Solvent(s)
    requires FairTerms(t) && LongOnly(want) && value > 0.0
    requires !Negligible(Excess(s.shares[tk], q[tk], Weight(want, tk), value), value)
    ensures Solvent(BookSale(s, tk, SaleOf(Excess(s.shares[tk], q[tk], Weight(want, tk), value),
                                           Get(s.basis, tk, q[tk]), s.lossBank, q[tk], t)))
  {
    hide NoDup, SaleOf, Worth, Excess, Negligible, FairTerms, LongOnly;
    var excess := Excess(s.shares[tk], q[tk], Weight(want, tk), value);
    TradedIsPositive(excess, value);
    SaleIsAffordable(excess, s.basis[tk], s.lossBank, q[tk], t);
    SaleLeavesShares(s, tk, want, value, q, t);
  }

  lemma TradedIsPositive(amount: real, value: real)
    requires !Negligible(amount, value) && value > 0.0
    ensures amount >= 0.0
  {
  }

  lemma SaleLeavesShares(s: State, tk: Ticker, want: Target, value: real, q: Quotes, t: Terms)
    requires Coherent(s) && tk in s.shares && Quoted(s.order, q) && LongOnly(want) && value > 0.0
    ensures BookSale(s, tk, SaleOf(Excess(s.shares[tk], q[tk], Weight(want, tk), value),
                                   Get(s.basis, tk, q[tk]), s.lossBank, q[tk], t)).shares[tk] >= 0.0
  {
    hide SaleOf, Worth, Excess, NoDup;
    var weight := Weight(want, tk);
    WeightAtLeast(want, tk);
    MulLe(0.0, weight, value);
    SaleLandsOnTarget(s, tk, weight, value, q, t);
    var excess := Excess(s.shares[tk], q[tk], weight, value);
    WorthSign(BookSale(s, tk, SaleOf(excess, Get(s.basis, tk, q[tk]), s.lossBank, q[tk], t)).shares[tk], q[tk]);
  }

  lemma SellStepSolvent(s: State, tk: Ticker, want: Target, value: real, q: Quotes, day: int, t: Terms)
    requires Coherent(s) && tk in s.shares && Quoted(s.order, q) && Solvent(s)
    requires FairTerms(t) && LongOnly(want) && value > 0.0
    ensures Solvent(SellStep(s, tk, want, value, q, day, t))
  {
    hide NoDup, SaleOf, Worth, Excess, Negligible, Dust, TripReturn, BookSale, FairTerms, LongOnly;
    if !Negligible(Excess(s.shares[tk], q[tk], Weight(want, tk), value), value) {
      BookSaleSolvent(s, tk, want, value, q, t);
    }
  }

  lemma QuotientIsPositive(x: real, y: real)
    requires x >= 0.0 && y > 0.0
    ensures x / y >= 0.0
  {
  }

  lemma AverageIsPositive(basis: real, held: real, outlay: real, bought: real, p: Price)
    requires basis >= 0.0 && held >= 0.0 && outlay >= 0.0 && bought >= 0.0
    ensures AverageCost(basis, held, outlay, bought, p) >= 0.0
  {
    if held + bought > 0.0 {
      MulLe(0.0, basis, held);
      QuotientIsPositive(basis * held + outlay, held + bought);
    }
  }

  lemma PurchaseIsPositive(spend: real, held: real, basis: real, p: Price, t: Terms)
    requires FairTerms(t) && spend >= 0.0 && held >= 0.0 && basis >= 0.0
    ensures var buy := PurchaseOf(spend, held, basis, p, t); buy.shares >= 0.0 && buy.basis >= 0.0
  {
    hide Worth, AverageCost;
    RatesWithin(spend, t.costBps / 10000.0, 0.0);
    var buy := PurchaseOf(spend, held, basis, p, t);
    QuotientIsPositive(spend - buy.cost, p);
    PurchaseIsWorthItsSpend(spend, held, basis, p, t);
    AverageIsPositive(basis, held, spend - buy.cost, buy.shares, p);
  }

  lemma BookPurchaseSolvent(s: State, tk: Ticker, spend: real, buy: Purchase, p: Price, day: int)
    requires Coherent(s) && Solvent(s) && spend <= s.cash && buy.shares >= 0.0 && buy.basis >= 0.0
    ensures Solvent(BookPurchase(s, tk, spend, buy, p, day))
  {
    hide NoDup;
    var r := BookPurchase(s, tk, spend, buy, p, day);
    forall k | k in r.order
      ensures r.shares[k] >= 0.0 && r.basis[k] >= 0.0
    {
      assert k == tk || k in s.order;
    }
  }

  lemma HeldIsPositive(s: State, tk: Ticker)
    requires Coherent(s) && Solvent(s)
    ensures Get(s.shares, tk, 0.0) >= 0.0 && Get(s.basis, tk, 0.0) >= 0.0
  {
    hide NoDup;
  }

  lemma BuyStepSolvent(s: State, leg: Leg, value: real, q: Quotes, day: int, t: Terms)
    requires Coherent(s) && leg.ticker in q && Solvent(s) && FairTerms(t)
    ensures Solvent(BuyStep(s, leg, value, q, day, t))
  {
    hide Coherent, Excess, Negligible, PurchaseOf, BookPurchase, FairTerms;
    var p, held := q[leg.ticker], Get(s.shares, leg.ticker, 0.0);
    var basis := Get(s.basis, leg.ticker, 0.0);
    var spend := Min(-Excess(held, p, leg.weight, value), s.cash);
    if spend > 0.0 {
      HeldIsPositive(s, leg.ticker);
      PurchaseIsPositive(spend, held, basis, p, t);
      BookPurchaseSolvent(s, leg.ticker, spend, PurchaseOf(spend, held, basis, p, t), p, day);
    }
  }

  lemma {:induction false} SellAllSolvent(s: State, tks: seq<Ticker>, want: Target, value: real, q: Quotes, day: int,
                                          t: Terms)
    requires Coherent(s) && NoDup(tks) && Quoted(s.order, q) && Solvent(s)
    requires forall tk :: tk in tks ==> tk in s.order
    requires FairTerms(t) && LongOnly(want) && value > 0.0
    ensures Solvent(SellAll(s, tks, want, value, q, day, t))
    decreases |tks|
  {
    hide SellStep, Solvent;
    if tks != [] {
      var n := |tks| - 1;
      SellAllSolvent(s, tks[..n], want, value, q, day, t);
      SellStepSolvent(SellAll(s, tks[..n], want, value, q, day, t), tks[n], want, value, q, day, t);
    }
  }

  lemma {:induction false} BuyAllSolvent(s: State, want: Target, value: real, q: Quotes, day: int, t: Terms)
    requires Coherent(s) && TargetQuoted(want, q) && Solvent(s) && FairTerms(t)
    ensures Solvent(BuyAll(s, want, value, q, day, t))
    decreases |want|
  {
    hide BuyStep, Solvent;
    if want != [] {
      var n := |want| - 1;
      assert want[n] in want;
      BuyAllSolvent(s, want[..n], value, q, day, t);
      BuyStepSolvent(BuyAll(s, want[..n], value, q, day, t), want[n], value, q, day, t);
    }
  }

  /** On long-only targets and fair terms no run ever holds negative cash, shares, basis or loss bank. */
  lemma {:induction false} RunSolvent(px: Closes, targets: seq<Target>, t: Terms, n: nat)
    requires Covers(px, targets) && n <= |targets| && FairTerms(t)
    requires forall target :: target in targets ==> LongOnly(target)
    ensures Solvent(After(px, targets, t, n))
  {
    hide Solvent, DriftOf, Equity, SellAll, BuyAll;
    if n > 0 {
      RunSolvent(px, targets, t, n - 1);
      WantIsListed(px, targets, n - 1);
      var s, want, q := After(px, targets, t, n - 1), WantOn(targets, n - 1), QuotesOn(px, n - 1);
      var value := Equity(s, q);
      if value > 0.0 {
        SellAllSolvent(s, s.order, want, value, q, n - 1, t);
        BuyAllSolvent(SellAll(s, s.order, want, value, q, n - 1, t), want, value, q, n - 1, t);
      }
    } else {
      StartSolvent();
    }
  }

  lemma StartSolvent()
    ensures Solvent(START)
  {
  }

  // ---------------------------------------------------------------- when nothing is dropped

  lemma DustOnTargetIsNothing(weight: real, value: real, shares: real, p: Price)
    requires weight == 0.0 || weight >= 0.005
    requires value > 0.0 && Worth(shares, p) == weight * value && Dust(shares, p, value)
    ensures Worth(shares, p) == 0.0
  {
  }

  lemma SellStepDropsNothing(s: State, tk: Ticker, want: Target, value: real, q: Quotes, day: int, t: Terms)
    requires Coherent(s) && tk in s.shares && Quoted(s.order, q) && NoDust(want) && value > 0.0
    ensures SellStep(s, tk, want, value, q, day, t).audit.dropped == s.audit.dropped
  {
    hide NoDup, SaleOf, Worth, Excess, Negligible, Dust, TripReturn;
    var p, weight := q[tk], Weight(want, tk);
    WeightIsALeg(want, tk);
    SaleLandsOnTarget(s, tk, weight, value, q, t);
    var excess := Excess(s.shares[tk], p, weight, value);
    var r := BookSale(s, tk, SaleOf(excess, Get(s.basis, tk, p), s.lossBank, p, t));
    if Dust(r.shares[tk], p, value) {
      DustOnTargetIsNothing(weight, value, r.shares[tk], p);
    }
  }

  lemma {:induction false} SellAllDropsNothing(s: State, tks: seq<Ticker>, want: Target, value: real, q: Quotes,
                                               day: int, t: Terms)
    requires Coherent(s) && NoDup(tks) && Quoted(s.order, q) && NoDust(want) && value > 0.0
    requires forall tk :: tk in tks ==> tk in s.order
    ensures SellAll(s, tks, want, value, q, day, t).audit.dropped == s.audit.dropped
    decreases |tks|
  {
    hide SellStep, NoDust;
    if tks != [] {
      var n := |tks| - 1;
      SellAllDropsNothing(s, tks[..n], want, value, q, day, t);
      SellStepDropsNothing(SellAll(s, tks[..n], want, value, q, day, t), tks[n], want, value, q, day, t);
    }
  }

  lemma {:induction false} BuyAllDropsNothing(s: State, want: Target, value: real, q: Quotes, day: int, t: Terms)
    requires Coherent(s) && TargetQuoted(want, q)
    ensures BuyAll(s, want, value, q, day, t).audit.dropped == s.audit.dropped
    decreases |want|
  {
    hide PurchaseOf, Excess, Negligible;
    if want != [] {
      BuyAllDropsNothing(s, want[..|want| - 1], value, q, day, t);
    }
  }

  /** When every weight is zero or at least half a percent, no value is ever forgotten. */
  lemma {:induction false} RunDropsNothing(px: Closes, targets: seq<Target>, t: Terms, n: nat)
    requires Covers(px, targets) && n <= |targets|
    requires forall target :: target in targets ==> NoDust(target)
    ensures After(px, targets, t, n).audit.dropped == 0.0
  {
    hide DriftOf, Equity, SellAll, BuyAll, NoDust;
    if n > 0 {
      RunDropsNothing(px, targets, t, n - 1);
      WantIsListed(px, targets, n - 1);
      var s, want, q := After(px, targets, t, n - 1), WantOn(targets, n - 1), QuotesOn(px, n - 1);
      var value := Equity(s, q);
      if value > 0.0 {
        EmptyHasNoDust();
        SellAllDropsNothing(s, s.order, want, value, q, n - 1, t);
        BuyAllDropsNothing(SellAll(s, s.order, want, value, q, n - 1, t), want, value, q, n - 1, t);
      }
    }
  }

  lemma EmptyHasNoDust()
    ensures NoDust([])
  {
  }
}
