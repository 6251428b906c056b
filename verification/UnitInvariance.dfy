/** Quoting a ticker in another unit changes nothing but the units: values, trades and tax stay. */
module UnitInvariance {
  import opened Basics
  import opened Simulator

  /** How many new units one old unit of each ticker's price is worth. */
  type Units = Ticker -> Price

  function InUnits(q: Quotes, u: Units): Quotes {
    map tk | tk in q :: Scaled(q[tk], u(tk))
  }

  function Scaled(p: Price, c: Price): (r: Price)
    ensures r == Grow(p, c)
  {
    ScaledPositive(p, c);
    p * c
  }

  lemma ScaledPositive(p: Price, c: Price)
    ensures p * c > 0.0
  {
  }

  function ScaleSeries(s: seq<Price>, c: Price): (r: seq<Price>)
    ensures |r| == |s| && forall i :: 0 <= i < |s| ==> r[i] == Scaled(s[i], c)
  {
    seq(|s|, i requires 0 <= i < |s| => Scaled(s[i], c))
  }

  function HistoryInUnits(px: Closes, u: Units): Closes {
    map tk | tk in px :: ScaleSeries(px[tk], u(tk))
  }

  /** A share count, and a price record, restated in a unit worth 1/c of the old one. */
  function Shrink(x: real, c: Price): real { x / c }
  function Grow(x: real, c: Price): real { x * c }

  /** The share counts of a book, restated. */
  function SharesInUnits(shares: map<Ticker, real>, u: Units): map<Ticker, real> {
    map tk | tk in shares :: Shrink(shares[tk], u(tk))
  }

  function RecordsInUnits(records: map<Ticker, real>, u: Units): map<Ticker, real> {
    map tk | tk in records :: Grow(records[tk], u(tk))
  }

  /** The same book, its share counts and price records restated in the new units. */
  function StateInUnits(s: State, u: Units): State {
    s.(shares := SharesInUnits(s.shares, u), basis := RecordsInUnits(s.basis, u),
       entryPx := RecordsInUnits(s.entryPx, u))
  }

  // ---------------------------------------------------------------- arithmetic

  lemma WorthInUnits(x: real, p: Price, c: Price)
    ensures Worth(Shrink(x, c), Scaled(p, c)) == Worth(x, p)
  {
  }

  lemma CostInUnits(x: real, basis: real, c: Price)
    ensures Worth(Shrink(x, c), Grow(basis, c)) == Worth(x, basis)
  {
  }

  lemma QuotientInUnits(x: real, p: Price, c: Price)
    ensures x / Scaled(p, c) == Shrink(x / p, c)
  {
  }

  lemma ShrinkArithmetic(x: real, y: real, c: Price)
    ensures Shrink(x, c) - Shrink(y, c) == Shrink(x - y, c)
    ensures Shrink(x, c) + Shrink(y, c) == Shrink(x + y, c)
    ensures Shrink(0.0, c) == 0.0 == Grow(0.0, c)
  {
  }

  /** Every test the loop makes on a holding reads the same in the new units. */
  lemma GuardsInUnits(x: real, p: Price, weight: real, value: real, c: Price)
    ensures Excess(Shrink(x, c), Scaled(p, c), weight, value) == Excess(x, p, weight, value)
    ensures Dust(Shrink(x, c), Scaled(p, c), value) == Dust(x, p, value)
  {
  }

  lemma SaleInUnits(excess: real, basis: real, bank: real, p: Price, t: Terms, c: Price)
    ensures var sale := SaleOf(excess, basis, bank, p, t);
      SaleOf(excess, Grow(basis, c), bank, Scaled(p, c), t) == sale.(shares := Shrink(sale.shares, c))
  {
    var shares := excess / p;
    QuotientInUnits(excess, p, c);
    WorthInUnits(shares, p, c);
    GainInUnits(shares, basis, p, c);
    hide Worth, Settle, Shrink, Grow, Scaled;
  }

  lemma GainInUnits(shares: real, basis: real, p: Price, c: Price)
    ensures (Scaled(p, c) - Grow(basis, c)) * Shrink(shares, c) == (p - basis) * shares
  {
  }

  lemma TripInUnits(p: Price, ep: real, c: Price)
    ensures Scaled(p, c) > Grow(ep, c) <==> p > ep
    ensures Grow(ep, c) != 0.0 <==> ep != 0.0
    ensures ep != 0.0 ==> TripReturn(Scaled(p, c), Grow(ep, c)) == TripReturn(p, ep)
  {
  }

  lemma PurchaseInUnits(spend: real, held: real, basis: real, p: Price, t: Terms, c: Price)
    ensures var buy := PurchaseOf(spend, held, basis, p, t);
      PurchaseOf(spend, Shrink(held, c), Grow(basis, c), Scaled(p, c), t)
        == Purchase(buy.cost, Shrink(buy.shares, c), Grow(buy.basis, c))
  {
    hide DealingCost;
    var bought := (spend - DealingCost(spend, t)) / p;
    QuotientInUnits(spend - DealingCost(spend, t), p, c);
    WorthInUnits(bought, p, c);
    AverageInUnits(basis, held, Worth(bought, p), bought, p, c);
    hide AverageCost, Worth, Shrink, Grow, Scaled;
  }

  lemma AverageInUnits(basis: real, held: real, outlay: real, bought: real, p: Price, c: Price)
    ensures AverageCost(Grow(basis, c), Shrink(held, c), outlay, Shrink(bought, c), Scaled(p, c))
         == Grow(AverageCost(basis, held, outlay, bought, p), c)
  {
  }

  // ---------------------------------------------------------------- books

  lemma {:induction false} HoldingsInUnits(order: seq<Ticker>, shares: map<Ticker, real>, q: Quotes, u: Units)
    requires Quoted(order, q)
    ensures Holdings(order, SharesInUnits(shares, u), InUnits(q, u)) == Holdings(order, shares, q)
  {
    hide Worth, Shrink, Scaled;
    if order != [] {
      HoldingsInUnits(order[1..], shares, q, u);
      WorthInUnits(Get(shares, order[0], 0.0), q[order[0]], u(order[0]));
      ShrinkArithmetic(0.0, 0.0, u(order[0]));
    }
  }

  lemma WeightInUnits(shares: map<Ticker, real>, q: Quotes, value: real, tk: Ticker, u: Units)
    requires tk in shares ==> tk in q
    ensures CurrentWeight(SharesInUnits(shares, u), InUnits(q, u), value, tk) == CurrentWeight(shares, q, value, tk)
  {
  }

  lemma {:induction false} WantedDriftInUnits(shares: map<Ticker, real>, q: Quotes, value: real, want: Target, u: Units)
    requires TargetQuoted(want, q)
    ensures WantedDrift(SharesInUnits(shares, u), InUnits(q, u), value, want) == WantedDrift(shares, q, value, want)
  {
    if want != [] {
      hide CurrentWeight, Shrink, Scaled;
      assert want[0] in want;
      WeightInUnits(shares, q, value, want[0].ticker, u);
      WantedDriftInUnits(shares, q, value, want[1..], u);
    }
  }

  lemma {:induction false} UnwantedDriftInUnits(tks: seq<Ticker>, shares: map<Ticker, real>, q: Quotes, value: real,
                                                want: Target, u: Units)
    requires Quoted(tks, q)
    ensures UnwantedDrift(tks, SharesInUnits(shares, u), InUnits(q, u), value, want)
         == UnwantedDrift(tks, shares, q, value, want)
  {
    if tks != [] {
      hide CurrentWeight, Shrink, Scaled;
      WeightInUnits(shares, q, value, tks[0], u);
      UnwantedDriftInUnits(tks[1..], shares, q, value, want, u);
    }
  }

  lemma CoherentInUnits(s: State, u: Units)
    requires Coherent(s)
    ensures Coherent(StateInUnits(s, u))
  {
  }

  lemma BookSaleInUnits(s: State, tk: Ticker, sale: Sale, u: Units)
    requires Coherent(s) && Coherent(StateInUnits(s, u)) && tk in s.shares
    ensures BookSale(StateInUnits(s, u), tk, sale.(shares := Shrink(sale.shares, u(tk))))
         == StateInUnits(BookSale(s, tk, sale), u)
  {
    hide Coherent, Max, Abs, Shrink, Grow;
    ShrinkArithmetic(s.shares[tk], sale.shares, u(tk));
    assert BookSale(StateInUnits(s, u), tk, sale.(shares := Shrink(sale.shares, u(tk)))).shares
        == StateInUnits(BookSale(s, tk, sale), u).shares;
  }

  lemma CloseInUnits(s: State, tk: Ticker, p: Price, day: int, u: Units)
    requires Coherent(s) && Coherent(StateInUnits(s, u)) && tk in s.shares
    ensures Close(StateInUnits(s, u), tk, Scaled(p, u(tk)), day) == StateInUnits(Close(s, tk, p, day), u)
  {
    hide NoDup, TripReturn, Worth, Scaled, Shrink, Grow, SharesInUnits, RecordsInUnits;
    TripInUnits(p, s.entryPx[tk], u(tk));
    WorthInUnits(s.shares[tk], p, u(tk));
    CostInUnits(s.shares[tk], s.basis[tk], u(tk));
    ForgetInUnits(s.shares, tk, u);
    ForgetInUnits(s.basis, tk, u);
    ForgetInUnits(s.entryPx, tk, u);
  }

  lemma ForgetInUnits(m: map<Ticker, real>, tk: Ticker, u: Units)
    ensures SharesInUnits(m, u) - {tk} == SharesInUnits(m - {tk}, u)
    ensures RecordsInUnits(m, u) - {tk} == RecordsInUnits(m - {tk}, u)
    ensures tk in SharesInUnits(m, u) <==> tk in m
    ensures tk in RecordsInUnits(m, u) <==> tk in m
    ensures tk in m ==>
        SharesInUnits(m, u)[tk] == Shrink(m[tk], u(tk)) && RecordsInUnits(m, u)[tk] == Grow(m[tk], u(tk))
  {
  }

  lemma SellStepInUnits(s: State, tk: Ticker, want: Target, value: real, q: Quotes, day: int, t: Terms, u: Units)
    requires Coherent(s) && Coherent(StateInUnits(s, u)) && tk in s.shares && tk in q
    ensures SellStep(StateInUnits(s, u), tk, want, value, InUnits(q, u), day, t)
         == StateInUnits(SellStep(s, tk, want, value, q, day, t), u)
  {
    hide NoDup, Excess, Dust, Negligible, Worth, SaleOf, BookSale, Close, Scaled, Shrink, Grow;
    var p, c := q[tk], u(tk);
    var excess := Excess(s.shares[tk], p, Weight(want, tk), value);
    GuardsInUnits(s.shares[tk], p, Weight(want, tk), value, c);
    SaleInUnits(excess, s.basis[tk], s.lossBank, p, t, c);
    var sale := SaleOf(excess, s.basis[tk], s.lossBank, p, t);
    BookSaleInUnits(s, tk, sale, u);
    var r := BookSale(s, tk, sale);
    CoherentInUnits(r, u);
    CloseInUnits(r, tk, p, day, u);
    GuardsInUnits(r.shares[tk], p, 0.0, value, c);
  }

  lemma RecordInUnits(m: map<Ticker, real>, tk: Ticker, v: real, u: Units)
    ensures SharesInUnits(m[tk := v], u) == SharesInUnits(m, u)[tk := Shrink(v, u(tk))]
    ensures RecordsInUnits(m[tk := v], u) == RecordsInUnits(m, u)[tk := Grow(v, u(tk))]
    ensures Get(SharesInUnits(m, u), tk, 0.0) == Shrink(Get(m, tk, 0.0), u(tk))
    ensures Get(RecordsInUnits(m, u), tk, 0.0) == Grow(Get(m, tk, 0.0), u(tk))
    ensures Get(RecordsInUnits(m, u), tk, Grow(v, u(tk))) == Grow(Get(m, tk, v), u(tk))
    ensures tk in SharesInUnits(m, u) <==> tk in m
  {
    ShrinkArithmetic(0.0, 0.0, u(tk));
    hide Shrink, Grow;
  }

  lemma BookPurchaseInUnits(s: State, tk: Ticker, spend: real, buy: Purchase, p: Price, day: int, u: Units)
    requires Coherent(s) && Coherent(StateInUnits(s, u))
    ensures BookPurchase(StateInUnits(s, u), tk, spend,
                         Purchase(buy.cost, Shrink(buy.shares, u(tk)), Grow(buy.basis, u(tk))),
                         Scaled(p, u(tk)), day)
         == StateInUnits(BookPurchase(s, tk, spend, buy, p, day), u)
  {
    hide Coherent, NoDup, Shrink, Grow, Scaled, SharesInUnits, RecordsInUnits, Get;
    var c := u(tk);
    ShrinkArithmetic(Get(s.shares, tk, 0.0), buy.shares, c);
    RecordInUnits(s.shares, tk, Get(s.shares, tk, 0.0) + buy.shares, u);
    RecordInUnits(s.basis, tk, buy.basis, u);
    RecordInUnits(s.entryPx, tk, Get(s.entryPx, tk, p), u);
    RecordInUnits(s.entryPx, tk, p, u);
  }

  lemma BuyStepInUnits(s: State, leg: Leg, value: real, q: Quotes, day: int, t: Terms, u: Units)
    requires Coherent(s) && Coherent(StateInUnits(s, u)) && leg.ticker in q
    ensures BuyStep(StateInUnits(s, u), leg, value, InUnits(q, u), day, t)
         == StateInUnits(BuyStep(s, leg, value, q, day, t), u)
  {
    hide Coherent, NoDup, Excess, Negligible, Worth, PurchaseOf, BookPurchase, Scaled, Shrink, Grow, SharesInUnits,
         RecordsInUnits, Get;
    var tk, p, c := leg.ticker, q[leg.ticker], u(leg.ticker);
    var held, basis := Get(s.shares, tk, 0.0), Get(s.basis, tk, 0.0);
    RecordInUnits(s.shares, tk, 0.0, u);
    RecordInUnits(s.basis, tk, 0.0, u);
    GuardsInUnits(held, p, leg.weight, value, c);
    var spend := Min(-Excess(held, p, leg.weight, value), s.cash);
    PurchaseInUnits(spend, held, basis, p, t, c);
    BookPurchaseInUnits(s, tk, spend, PurchaseOf(spend, held, basis, p, t), p, day, u);
  }

  lemma {:induction false} SellAllInUnits(s: State, tks: seq<Ticker>, want: Target, value: real, q: Quotes, day: int,
                                          t: Terms, u: Units)
    requires Coherent(s) && Coherent(StateInUnits(s, u)) && NoDup(tks) && Quoted(tks, q)
    requires forall tk :: tk in tks ==> tk in s.order
    ensures SellAll(StateInUnits(s, u), tks, want, value, InUnits(q, u), day, t)
         == StateInUnits(SellAll(s, tks, want, value, q, day, t), u)
    decreases |tks|
  {
    hide SellStep, SharesInUnits, RecordsInUnits, Scaled;
    if tks != [] {
      var n := |tks| - 1;
      SellAllInUnits(s, tks[..n], want, value, q, day, t, u);
      var r := SellAll(s, tks[..n], want, value, q, day, t);
      CoherentInUnits(r, u);
      SellStepInUnits(r, tks[n], want, value, q, day, t, u);
    }
  }

  lemma {:induction false} BuyAllInUnits(s: State, want: Target, value: real, q: Quotes, day: int, t: Terms, u: Units)
    requires Coherent(s) && Coherent(StateInUnits(s, u)) && TargetQuoted(want, q)
    ensures BuyAll(StateInUnits(s, u), want, value, InUnits(q, u), day, t)
         == StateInUnits(BuyAll(s, want, value, q, day, t), u)
    decreases |want|
  {
    hide BuyStep, SharesInUnits, RecordsInUnits, Scaled;
    if want != [] {
      var n := |want| - 1;
      assert want[n] in want;
      BuyAllInUnits(s, want[..n], value, q, day, t, u);
      var r := BuyAll(s, want[..n], value, q, day, t);
      CoherentInUnits(r, u);
      BuyStepInUnits(r, want[n], value, q, day, t, u);
    }
  }

  lemma RebalanceInUnits(s: State, want: Target, q: Quotes, day: int, t: Terms, u: Units)
    requires Coherent(s) && Coherent(StateInUnits(s, u)) && Quoted(s.order, q) && TargetQuoted(want, q)
    ensures Rebalance(StateInUnits(s, u), want, InUnits(q, u), day, t) == StateInUnits(Rebalance(s, want, q, day, t), u)
  {
    hide SellAll, BuyAll, SharesInUnits, RecordsInUnits, Scaled, WantedDrift, UnwantedDrift, Holdings;
    HoldingsInUnits(s.order, s.shares, q, u);
    var value := Equity(s, q);
    WantedDriftInUnits(s.shares, q, value, want, u);
    UnwantedDriftInUnits(s.order, s.shares, q, value, want, u);
    SellAllInUnits(s, s.order, want, value, q, day, t, u);
    var sold := SellAll(s, s.order, want, value, q, day, t);
    CoherentInUnits(sold, u);
    BuyAllInUnits(sold, want, value, q, day, t, u);
  }

  // ---------------------------------------------------------------- runs

  lemma QuotesOnInUnits(px: Closes, day: nat, u: Units)
    ensures QuotesOn(HistoryInUnits(px, u), day) == InUnits(QuotesOn(px, day), u)
  {
  }

  lemma CoversInUnits(px: Closes, targets: seq<Target>, u: Units)
    requires Covers(px, targets)
    ensures Covers(HistoryInUnits(px, u), targets)
  {
  }

  lemma StartInUnits(u: Units)
    ensures StateInUnits(START, u) == START
  {
  }

  /** The whole run in new units is the old run, restated: same cash, tax, trades and round trips. */
  lemma {:induction false} RunInUnits(px: Closes, targets: seq<Target>, t: Terms, n: nat, u: Units)
    requires Covers(px, targets) && Covers(HistoryInUnits(px, u), targets) && n <= |targets|
    ensures After(HistoryInUnits(px, u), targets, t, n) == StateInUnits(After(px, targets, t, n), u)
  {
    hide Coherent, Quoted, Listed, Rebalance, StateInUnits, InUnits, QuotesOn, Covers, HistoryInUnits, TargetQuoted;
    if n == 0 {
      StartInUnits(u);
    } else {
      RunInUnits(px, targets, t, n - 1, u);
      QuotesOnInUnits(px, n - 1, u);
      WantIsListed(px, targets, n - 1);
      var s := After(px, targets, t, n - 1);
      CoherentInUnits(s, u);
      ListedIsQuoted(s.order, px, |targets|, n - 1);
      RebalanceInUnits(s, WantOn(targets, n - 1), QuotesOn(px, n - 1), n - 1, t, u);
    }
  }

  lemma ListedIsQuoted(order: seq<Ticker>, px: Closes, n: nat, day: nat)
    requires Listed(order, px, n) && day < n
    ensures Quoted(order, QuotesOn(px, day))
  {
  }

  /** Every daily value is the same in every unit of every ticker's price. */
  lemma ValuesInUnits(px: Closes, targets: seq<Target>, t: Terms, day: nat, u: Units)
    requires Covers(px, targets) && Covers(HistoryInUnits(px, u), targets) && day < |targets|
    ensures ValueOn(HistoryInUnits(px, u), targets, t, day) == ValueOn(px, targets, t, day)
  {
    hide Holdings, SharesInUnits, RecordsInUnits, InUnits, QuotesOn;
    RunInUnits(px, targets, t, day, u);
    QuotesOnInUnits(px, day, u);
    var s := After(px, targets, t, day);
    ListedIsQuoted(s.order, px, |targets|, day);
    HoldingsInUnits(s.order, s.shares, QuotesOn(px, day), u);
  }
}
