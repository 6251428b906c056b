/** What the average cost is for: whatever a run buys and sells, the money it has and the cost of what it holds differ
    from what it started with by exactly what it has gained.  And what the round trips record. */
module CostBasis {
  import opened Basics
  import opened Simulator
  import opened Accounting

  // ---------------------------------------------------------------- the cost of a book

  /** What the holdings cost, at their average cost. */
  function CostOf(order: seq<Ticker>, shares: map<Ticker, real>, basis: map<Ticker, real>): real {
    if order == [] then 0.0
    else Worth(Get(shares, order[0], 0.0), Get(basis, order[0], 0.0)) + CostOf(order[1..], shares, basis)
  }

  function Cost(s: State): real { CostOf(s.order, s.shares, s.basis) }

  /** Money and cost, with what was paid away, less what was gained. */
  function Invested(s: State): real {
    s.cash + Cost(s) + s.taxPaid + s.audit.costs + s.audit.forgotten - s.audit.gains + s.audit.losses
  }

  /** No more is paid for a purchase than is spent on it, and nothing is held short. */
  ghost predicate Long(s: State)
    requires Coherent(s)
  {
    forall tk :: tk in s.order ==> s.shares[tk] >= 0.0
  }

  lemma {:induction false} CostIgnores(
      order: seq<Ticker>, a: map<Ticker, real>, b: map<Ticker, real>, c: map<Ticker, real>, d: map<Ticker, real>)
    requires forall tk :: tk in order ==> Get(a, tk, 0.0) == Get(c, tk, 0.0) && Get(b, tk, 0.0) == Get(d, tk, 0.0)
    ensures CostOf(order, a, b) == CostOf(order, c, d)
  {
    hide Worth;
    if order != [] {
      CostIgnores(order[1..], a, b, c, d);
    }
  }

  lemma {:induction false} CostUpdate(order: seq<Ticker>, a: map<Ticker, real>, b: map<Ticker, real>, tk: Ticker,
                                      x: real, y: real)
    requires NoDup(order) && tk in order && tk in a && tk in b
    ensures CostOf(order, a[tk := x], b[tk := y]) == CostOf(order, a, b) + Worth(x, y) - Worth(a[tk], b[tk])
  {
    hide Worth;
    if order[0] == tk {
      CostIgnores(order[1..], a[tk := x], b[tk := y], a, b);
    } else {
      CostUpdate(order[1..], a, b, tk, x, y);
    }
  }

  lemma {:induction false} CostWithout(order: seq<Ticker>, a: map<Ticker, real>, b: map<Ticker, real>, tk: Ticker)
    requires NoDup(order) && tk in order && tk in a && tk in b
    ensures CostOf(Without(order, tk), a - {tk}, b - {tk}) == CostOf(order, a, b) - Worth(a[tk], b[tk])
  {
    hide Worth;
    if order[0] == tk {
      assert tk !in order[1..];
      WithoutAbsent(order[1..], tk);
      CostIgnores(order[1..], a - {tk}, b - {tk}, a, b);
    } else {
      CostWithout(order[1..], a, b, tk);
      assert Without(order, tk)[1..] == Without(order[1..], tk);
    }
  }

  lemma {:induction false} CostAppend(order: seq<Ticker>, a: map<Ticker, real>, b: map<Ticker, real>, tk: Ticker,
                                      x: real, y: real)
    requires tk !in order
    ensures CostOf(order + [tk], a[tk := x], b[tk := y]) == CostOf(order, a, b) + Worth(x, y)
  {
    hide Worth;
    if order == [] {
      assert CostOf([tk], a[tk := x], b[tk := y]) == Worth(x, y) + CostOf([tk][1..], a[tk := x], b[tk := y]);
    } else {
      CostAppend(order[1..], a, b, tk, x, y);
      assert (order + [tk])[1..] == order[1..] + [tk];
    }
  }

  // ---------------------------------------------------------------- one sale, one purchase

  /** A sale realises what its shares fetch beyond their cost. */
  lemma GainIsOverCost(excess: real, basis: real, bank: real, p: Price, t: Terms)
    ensures var sale := SaleOf(excess, basis, bank, p, t); sale.gain == sale.gross - Worth(sale.shares, basis)
  {
    hide Settle, DealingCost;
    DifferenceTimes(p, basis, excess / p);
  }

  lemma DifferenceTimes(x: real, y: real, z: real)
    ensures (x - y) * z == Worth(z, x) - Worth(z, y)
  {
  }

  lemma GainsLessLosses(gain: real)
    ensures Max(gain, 0.0) - Max(-gain, 0.0) == gain
  {
  }

  lemma BookSaleKeepsInvested(s: State, tk: Ticker, sale: Sale)
    requires Coherent(s) && tk in s.shares && sale.gain == sale.gross - Worth(sale.shares, s.basis[tk])
    ensures Invested(BookSale(s, tk, sale)) == Invested(s)
  {
    hide Worth, NoDup;
    var left := s.shares[tk] - sale.shares;
    CostUpdate(s.order, s.shares, s.basis, tk, left, s.basis[tk]);
    assert s.basis[tk := s.basis[tk]] == s.basis;
    WorthOfDifference(s.shares[tk], sale.shares, s.basis[tk]);
    GainsLessLosses(sale.gain);
  }

  lemma CloseKeepsInvested(s: State, tk: Ticker, p: Price, day: int)
    requires Coherent(s) && tk in s.shares
    ensures Invested(Close(s, tk, p, day)) == Invested(s)
  {
    hide Worth, TripReturn;
    CostWithout(s.order, s.shares, s.basis, tk);
  }

  lemma SellStepKeepsInvested(s: State, tk: Ticker, want: Target, value: real, q: Quotes, day: int, t: Terms)
    requires Coherent(s) && tk in s.shares && tk in q
    ensures Invested(SellStep(s, tk, want, value, q, day, t)) == Invested(s)
  {
    hide NoDup, Worth, Excess, Negligible, Dust, SaleOf, BookSale, Close, Invested;
    var p := q[tk];
    var excess := Excess(s.shares[tk], p, Weight(want, tk), value);
    var sale := SaleOf(excess, Get(s.basis, tk, p), s.lossBank, p, t);
    GainIsOverCost(excess, s.basis[tk], s.lossBank, p, t);
    BookSaleKeepsInvested(s, tk, sale);
    CloseKeepsInvested(BookSale(s, tk, sale), tk, p, day);
  }

  /** The average cost carries over what was held at its cost and what was bought at what it cost. */
  lemma AverageCarriesCost(basis: real, held: real, outlay: real, bought: real, p: real)
    requires held + bought != 0.0
    ensures Worth(held + bought, AverageCost(basis, held, outlay, bought, p)) == Worth(held, basis) + outlay
  {
  }

  lemma PurchaseCarriesCost(spend: real, held: real, basis: real, p: Price, t: Terms)
    requires held >= 0.0 && spend >= 0.0 && t.costBps <= 10000.0
    ensures var buy := PurchaseOf(spend, held, basis, p, t);
      && buy.shares >= 0.0
      && Worth(held + buy.shares, buy.basis) == Worth(held, basis) + spend - buy.cost
  {
    hide Worth, AverageCost;
    var buy := PurchaseOf(spend, held, basis, p, t);
    RatesWithin(spend, t.costBps / 10000.0, 0.0);
    QuotientIsPositive(spend - buy.cost, p);
    PurchaseIsWorthItsSpend(spend, held, basis, p, t);
    if held + buy.shares != 0.0 {
      AverageCarriesCost(basis, held, Worth(buy.shares, p), buy.shares, p);
    } else {
      NothingIsWorthNothing(basis);
      NothingIsWorthNothing(buy.basis);
      NothingIsWorthNothing(p);
    }
  }

  lemma NothingIsWorthNothing(p: real)
    ensures Worth(0.0, p) == 0.0
  {
  }

  lemma BookPurchaseCost(s: State, tk: Ticker, spend: real, buy: Purchase, p: Price, day: int)
    requires Coherent(s)
    ensures var held, basis := Get(s.shares, tk, 0.0), Get(s.basis, tk, 0.0);
      Cost(BookPurchase(s, tk, spend, buy, p, day))
        == Cost(s) + Worth(held + buy.shares, buy.basis) - Worth(held, basis)
  {
    hide Worth, NoDup, CostOf;
    var held := Get(s.shares, tk, 0.0);
    NothingIsWorthNothing(Get(s.basis, tk, 0.0));
    if tk in s.shares {
      CostUpdate(s.order, s.shares, s.basis, tk, held + buy.shares, buy.basis);
    } else {
      CostAppend(s.order, s.shares, s.basis, tk, held + buy.shares, buy.basis);
    }
  }

  lemma BookPurchaseStaysLong(s: State, tk: Ticker, spend: real, buy: Purchase, p: Price, day: int)
    requires Coherent(s) && Long(s) && buy.shares >= 0.0
    ensures Long(BookPurchase(s, tk, spend, buy, p, day))
  {
    hide NoDup;
    var r := BookPurchase(s, tk, spend, buy, p, day);
    forall k | k in r.order
      ensures r.shares[k] >= 0.0
    {
      assert k == tk || k in s.order;
    }
  }

  lemma BookPurchaseKeepsInvested(s: State, tk: Ticker, spend: real, buy: Purchase, p: Price, day: int)
    requires Coherent(s) && Long(s) && buy.shares >= 0.0
    requires var held, basis := Get(s.shares, tk, 0.0), Get(s.basis, tk, 0.0);
      Worth(held + buy.shares, buy.basis) == Worth(held, basis) + spend - buy.cost
    ensures var r := BookPurchase(s, tk, spend, buy, p, day); Invested(r) == Invested(s) && Long(r)
  {
    hide Worth, NoDup, Long, Cost;
    BookPurchaseCost(s, tk, spend, buy, p, day);
    BookPurchaseStaysLong(s, tk, spend, buy, p, day);
  }

  lemma BuyStepKeepsInvested(s: State, leg: Leg, value: real, q: Quotes, day: int, t: Terms)
    requires Coherent(s) && Long(s) && leg.ticker in q && t.costBps <= 10000.0
    ensures var r := BuyStep(s, leg, value, q, day, t); Invested(r) == Invested(s) && Long(r)
  {
    hide NoDup, Worth, Excess, Negligible, PurchaseOf, BookPurchase, Invested;
    var p, held, basis := q[leg.ticker], Get(s.shares, leg.ticker, 0.0), Get(s.basis, leg.ticker, 0.0);
    var spend := Min(-Excess(held, p, leg.weight, value), s.cash);
    if spend > 0.0 {
      PurchaseCarriesCost(spend, held, basis, p, t);
      BookPurchaseKeepsInvested(s, leg.ticker, spend, PurchaseOf(spend, held, basis, p, t), p, day);
    }
  }

  // ---------------------------------------------------------------- nothing is held short

  /** A sale leaves a holding at its target, or, if that is next to nothing, no holding. */
  lemma SellStepStaysLong(s: State, tk: Ticker, want: Target, value: real, q: Quotes, day: int, t: Terms)
    requires Coherent(s) && Long(s) && tk in s.shares && Quoted(s.order, q) && value > 0.0
    ensures Long(SellStep(s, tk, want, value, q, day, t))
  {
    hide NoDup, Worth, Excess, Negligible, SaleOf, TripReturn;
    var p := q[tk];
    var excess := Excess(s.shares[tk], p, Weight(want, tk), value);
    var sold := BookSale(s, tk, SaleOf(excess, Get(s.basis, tk, p), s.lossBank, p, t));
    if !Dust(sold.shares[tk], p, value) {
      WorthSign(sold.shares[tk], p);
    }
  }

  // ---------------------------------------------------------------- days and runs

  lemma {:induction false} SellAllKeepsInvested(s: State, tks: seq<Ticker>, want: Target, value: real, q: Quotes,
                                                day: int, t: Terms)
    requires Coherent(s) && Long(s) && NoDup(tks) && Quoted(s.order, q) && value > 0.0
    requires forall tk :: tk in tks ==> tk in s.order
    ensures var r := SellAll(s, tks, want, value, q, day, t); Invested(r) == Invested(s) && Long(r)
    decreases |tks|
  {
    hide SellStep, Long, Invested;
    if tks != [] {
      var n := |tks| - 1;
      SellAllKeepsInvested(s, tks[..n], want, value, q, day, t);
      SellStepKeepsInvested(SellAll(s, tks[..n], want, value, q, day, t), tks[n], want, value, q, day, t);
      SellStepStaysLong(SellAll(s, tks[..n], want, value, q, day, t), tks[n], want, value, q, day, t);
    }
  }

  lemma {:induction false} BuyAllKeepsInvested(s: State, want: Target, value: real, q: Quotes, day: int, t: Terms)
    requires Coherent(s) && Long(s) && TargetQuoted(want, q) && t.costBps <= 10000.0
    ensures var r := BuyAll(s, want, value, q, day, t); Invested(r) == Invested(s) && Long(r)
    decreases |want|
  {
    hide BuyStep, Long, Invested;
    if want != [] {
      var n := |want| - 1;
      assert want[n] in want;
      BuyAllKeepsInvested(s, want[..n], value, q, day, t);
      BuyStepKeepsInvested(BuyAll(s, want[..n], value, q, day, t), want[n], value, q, day, t);
    }
  }

  /** Over every run in which a purchase costs no more than is spent on it: cash, and what the holdings cost on average,
      and all tax, dealing cost and the cost of forgotten dust, come to the starting 100 plus gains less losses; and
      nothing is ever held short. */
  lemma {:induction false} RunKeepsInvested(px: Closes, targets: seq<Target>, t: Terms, n: nat)
    requires Covers(px, targets) && n <= |targets| && t.costBps <= 10000.0
    ensures var s := After(px, targets, t, n);
      && Long(s)
      && s.cash + Cost(s) + s.taxPaid + s.audit.costs + s.audit.forgotten == 100.0 + s.audit.gains - s.audit.losses
  {
    hide Long, DriftOf, Equity, SellAll, BuyAll, Cost;
    if n == 0 {
      StartIsInvested();
    } else {
      RunKeepsInvested(px, targets, t, n - 1);
      WantIsListed(px, targets, n - 1);
      var s, want, q := After(px, targets, t, n - 1), WantOn(targets, n - 1), QuotesOn(px, n - 1);
      var value := Equity(s, q);
      if value > 0.0 {
        SellAllKeepsInvested(s, s.order, want, value, q, n - 1, t);
        BuyAllKeepsInvested(SellAll(s, s.order, want, value, q, n - 1, t), want, value, q, n - 1, t);
      }
    }
  }

  lemma StartIsInvested()
    ensures Long(START) && Cost(START) == 0.0
  {
  }
}
