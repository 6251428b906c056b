/** The backtest's trading loop: cash, share counts, average basis, loss bank, tax and dealing cost. */
module Simulator {
  import opened Basics

  /** One entry of a target dictionary; a target lists its entries in insertion order. */
  datatype Leg = Leg(ticker: Ticker, weight: real)
  type Target = seq<Leg>

  type Quotes = map<Ticker, Price>
  type Closes = map<Ticker, seq<Price>>

  datatype Terms = Terms(costBps: real, cgtRate: real)

  /** What the run has realised so far, and the worth and the cost of what it stopped counting as a holding.  The
      program does not keep it; the accounting theorems need it. */
  datatype Audit = Audit(gains: real, losses: real, costs: real, dropped: real, forgotten: real)

  /** The loop's variables.  `order` is the iteration order of the `shares` dictionary. */
  datatype State = State(
    order: seq<Ticker>, shares: map<Ticker, real>, basis: map<Ticker, real>,
    entryPx: map<Ticker, real>, entryDay: map<Ticker, int>,
    cash: real, taxPaid: real, traded: real, lossBank: real,
    trades: nat, wins: nat, closed: nat, tripPnl: seq<real>, tripDays: seq<int>,
    audit: Audit)

  const START := State([], map[], map[], map[], map[], 100.0, 0.0, 0.0, 0.0, 0, 0, 0, [], [],
                       Audit(0.0, 0.0, 0.0, 0.0, 0.0))

  function Get<V>(m: map<Ticker, V>, tk: Ticker, default: V): V {
    if tk in m then m[tk] else default
  }

  function Weight(want: Target, tk: Ticker): real {
    if want == [] then 0.0
    else if want[0].ticker == tk then want[0].weight
    else Weight(want[1..], tk)
  }

  function Names(t: Target): (r: seq<Ticker>)
    ensures |r| == |t| && forall i :: 0 <= i < |t| ==> r[i] == t[i].ticker
  {
    seq(|t|, i requires 0 <= i < |t| => t[i].ticker)
  }

  /** Each ticker once, as in a dictionary. */
  ghost predicate OneLegEach(want: Target) {
    forall i, j :: 0 <= i < j < |want| ==> want[i].ticker != want[j].ticker
  }

  lemma {:induction false} WeightOfLeg(want: Target, k: nat)
    requires OneLegEach(want) && k < |want|
    ensures Weight(want, want[k].ticker) == want[k].weight
  {
    if k > 0 {
      WeightOfLeg(want[1..], k - 1);
    }
  }

  /** The four dictionaries describe the same tickers, and `order` lists those once each. */
  ghost predicate Coherent(s: State) {
    && NoDup(s.order)
    && (forall tk :: tk in s.order <==> tk in s.shares)
    && s.shares.Keys == s.basis.Keys == s.entryPx.Keys == s.entryDay.Keys
  }

  ghost predicate Quoted(tks: seq<Ticker>, q: Quotes) {
    forall tk :: tk in tks ==> tk in q
  }

  ghost predicate TargetQuoted(want: Target, q: Quotes) {
    forall leg :: leg in want ==> leg.ticker in q
  }

  /** What a number of shares is worth at a price. */
  function Holdings(order: seq<Ticker>, shares: map<Ticker, real>, q: Quotes): real
    requires Quoted(order, q)
  {
    if order == [] then 0.0
    else Worth(Get(shares, order[0], 0.0), q[order[0]]) + Holdings(order[1..], shares, q)
  }

  function Equity(s: State, q: Quotes): real
    requires Quoted(s.order, q)
  {
    s.cash + Holdings(s.order, s.shares, q)
  }

  // ---------------------------------------------------------------- drift

  function CurrentWeight(shares: map<Ticker, real>, q: Quotes, value: real, tk: Ticker): real
    requires tk in shares ==> tk in q
  {
    if value > 0.0 && tk in shares then Worth(shares[tk], q[tk]) / value else 0.0
  }

  function WantedDrift(shares: map<Ticker, real>, q: Quotes, value: real, want: Target): real
    requires TargetQuoted(want, q)
  {
    if want == [] then 0.0
    else
      assert want[0] in want;
      Abs(want[0].weight - CurrentWeight(shares, q, value, want[0].ticker))
      + WantedDrift(shares, q, value, want[1..])
  }

  predicate Wants(want: Target, tk: Ticker) {
    exists leg :: leg in want && leg.ticker == tk
  }

  function UnwantedDrift(tks: seq<Ticker>, shares: map<Ticker, real>, q: Quotes, value: real, want: Target): real
    requires Quoted(tks, q)
  {
    if tks == [] then 0.0
    else (if Wants(want, tks[0]) then 0.0 else Abs(CurrentWeight(shares, q, value, tks[0])))
         + UnwantedDrift(tks[1..], shares, q, value, want)
  }

  lemma {:induction false} UnwantedWeighsNothing(want: Target, tk: Ticker)
    requires !Wants(want, tk)
    ensures Weight(want, tk) == 0.0
  {
    if want != [] {
      assert want[0] in want;
      assert !Wants(want[1..], tk);
      UnwantedWeighsNothing(want[1..], tk);
    }
  }

  /** Total absolute distance between what is wanted and what is held, over the union of both. */
  function DriftOf(order: seq<Ticker>, shares: map<Ticker, real>, q: Quotes, value: real, want: Target): real
    requires Quoted(order, q) && TargetQuoted(want, q)
  {
    WantedDrift(shares, q, value, want) + UnwantedDrift(order, shares, q, value, want)
  }

  /** What a holding is worth beyond its target; negative when it falls short. */
  function Excess(shares: real, p: Price, weight: real, value: real): real { Worth(shares, p) - weight * value }

  /** Differences up to half a percent of the book are not traded. */
  predicate Negligible(amount: real, value: real) { amount <= value * 0.005 }

  /** A holding this small counts as a finished round trip. */
  predicate Dust(shares: real, p: Price, value: real) { Worth(shares, p) < value * 0.005 }

  // ---------------------------------------------------------------- one sale

  function DealingCost(amount: real, t: Terms): real { amount * t.costBps / 10000.0 }

  datatype Settlement = Settlement(tax: real, bank: real)

  /** A loss is banked whole; a gain is first offset against the bank and the rest taxed. */
  function Settle(gain: real, bank: real, rate: real): Settlement {
    if gain < 0.0 then Settlement(0.0, bank - gain)
    else
      var offset := Min(bank, gain);
      Settlement((gain - offset) * rate, bank - offset)
  }

  /** What one sale does to money: shares sold, gross proceeds, gain, tax, loss bank afterwards, dealing cost. */
  datatype Sale = Sale(shares: real, gross: real, gain: real, settled: Settlement, cost: real)

  /** Sell an excess worth `excess` at price p of a holding with the given basis. */
  function SaleOf(excess: real, basis: real, bank: real, p: Price, t: Terms): Sale {
    var shares := excess / p;
    var gain := (p - basis) * shares;
    Sale(shares, Worth(shares, p), gain, Settle(gain, bank, t.cgtRate), DealingCost(Abs(Worth(shares, p)), t))
  }

  function BookSale(s: State, tk: Ticker, sale: Sale): (r: State)
    requires Coherent(s) && tk in s.shares
    ensures Coherent(r) && r.order == s.order
  {
    s.(shares := s.shares[tk := s.shares[tk] - sale.shares],
       cash := s.cash + (sale.gross - sale.settled.tax - sale.cost),
       taxPaid := s.taxPaid + sale.settled.tax,
       traded := s.traded + Abs(sale.gross),
       lossBank := sale.settled.bank,
       trades := s.trades + 1,
       audit := s.audit.(gains := s.audit.gains + Max(sale.gain, 0.0),
                         losses := s.audit.losses + Max(-sale.gain, 0.0),
                         costs := s.audit.costs + sale.cost))
  }

  /** A finished round trip's result, in percent of its entry price. */
  function TripReturn(p: real, ep: real): real
    requires ep != 0.0
  {
    (p / ep - 1.0) * 100.0
  }

  /** The round trip is over: the position, and the dust left of it, is forgotten. */
  function Close(s: State, tk: Ticker, p: Price, day: int): (r: State)
    requires Coherent(s) && tk in s.shares
    ensures Coherent(r) && r.order == Without(s.order, tk)
  {
    var ep := Get(s.entryPx, tk, p);
    s.(order := Without(s.order, tk),
       shares := s.shares - {tk}, basis := s.basis - {tk},
       entryPx := s.entryPx - {tk}, entryDay := s.entryDay - {tk},
       closed := s.closed + 1,
       wins := if p > ep then s.wins + 1 else s.wins,
       tripPnl := if ep != 0.0 then s.tripPnl + [TripReturn(p, ep)] else s.tripPnl,
       tripDays := s.tripDays + [day - Get(s.entryDay, tk, day)],
       audit := s.audit.(dropped := s.audit.dropped + Worth(s.shares[tk], p),
                         forgotten := s.audit.forgotten + Worth(s.shares[tk], s.basis[tk])))
  }

  function SellStep(s: State, tk: Ticker, want: Target, value: real, q: Quotes, day: int, t: Terms): (r: State)
    requires Coherent(s) && tk in s.shares && tk in q
    ensures Coherent(r) && (r.order == s.order || r.order == Without(s.order, tk))
  {
    var p := q[tk];
    var excess := Excess(s.shares[tk], p, Weight(want, tk), value);
    if Negligible(excess, value) then s
    else
      var r := BookSale(s, tk, SaleOf(excess, Get(s.basis, tk, p), s.lossBank, p, t));
      if Dust(r.shares[tk], p, value) then Close(r, tk, p, day) else r
  }

  function SellAll(s: State, tks: seq<Ticker>, want: Target, value: real, q: Quotes, day: int, t: Terms): (r: State)
    requires Coherent(s) && NoDup(tks) && Quoted(tks, q)
    requires forall tk :: tk in tks ==> tk in s.order
    ensures Coherent(r)
    ensures forall tk :: tk in r.order ==> tk in s.order
    ensures forall tk :: tk in s.order && tk !in tks ==> tk in r.order
    decreases |tks|
  {
    if tks == [] then s
    else
      var last := tks[|tks| - 1];
      SellStep(SellAll(s, tks[..|tks| - 1], want, value, q, day, t), last, want, value, q, day, t)
  }

  // ---------------------------------------------------------------- one purchase

  datatype Purchase = Purchase(cost: real, shares: real, basis: real)

  /** The average cost of `held` shares carried at `basis` and `bought` shares that cost `outlay`. */
  function AverageCost(basis: real, held: real, outlay: real, bought: real, p: real): real {
    if held + bought != 0.0 then (basis * held + outlay) / (held + bought) else p
  }

  /** Spend `spend`, dealing cost included, at price p on top of `held` shares carried at `basis`. */
  function PurchaseOf(spend: real, held: real, basis: real, p: Price, t: Terms): Purchase {
    var cost := DealingCost(spend, t);
    var bought := (spend - cost) / p;
    Purchase(cost, bought, AverageCost(basis, held, Worth(bought, p), bought, p))
  }

  function BookPurchase(s: State, tk: Ticker, spend: real, buy: Purchase, p: Price, day: int): (r: State)
    requires Coherent(s)
    ensures Coherent(r)
    ensures r.order == if tk in s.shares then s.order else s.order + [tk]
  {
    s.(order := if tk in s.shares then s.order else s.order + [tk],
       basis := s.basis[tk := buy.basis],
       entryPx := s.entryPx[tk := Get(s.entryPx, tk, p)],
       entryDay := s.entryDay[tk := Get(s.entryDay, tk, day)],
       shares := s.shares[tk := Get(s.shares, tk, 0.0) + buy.shares],
       cash := s.cash - spend,
       traded := s.traded + spend,
       trades := s.trades + 1,
       audit := s.audit.(costs := s.audit.costs + buy.cost))
  }

  function BuyStep(s: State, leg: Leg, value: real, q: Quotes, day: int, t: Terms): (r: State)
    requires Coherent(s) && leg.ticker in q
    ensures Coherent(r)
    ensures r.order == s.order || r.order == s.order + [leg.ticker]
  {
    var tk, p := leg.ticker, q[leg.ticker];
    var held := Get(s.shares, tk, 0.0);
    var shortfall := -Excess(held, p, leg.weight, value);
    var spend := Min(shortfall, s.cash);
    if Negligible(shortfall, value) || spend <= 0.0 then s
    else BookPurchase(s, tk, spend, PurchaseOf(spend, held, Get(s.basis, tk, 0.0), p, t), p, day)
  }

  function BuyAll(s: State, want: Target, value: real, q: Quotes, day: int, t: Terms): (r: State)
    requires Coherent(s) && TargetQuoted(want, q)
    ensures Coherent(r)
    ensures forall tk :: tk in r.order ==> tk in s.order || Wants(want, tk)
    decreases |want|
  {
    if want == [] then s
    else
      assert want[|want| - 1] in want;
      BuyStep(BuyAll(s, want[..|want| - 1], value, q, day, t), want[|want| - 1], value, q, day, t)
  }

  // ---------------------------------------------------------------- days

  /** Trade towards `want` at one day's closes: nothing on a small drift, else all sales before any purchase. */
  function Rebalance(s: State, want: Target, q: Quotes, day: int, t: Terms): (r: State)
    requires Coherent(s) && Quoted(s.order, q) && TargetQuoted(want, q)
    ensures Coherent(r)
    ensures forall tk :: tk in r.order ==> tk in s.order || Wants(want, tk)
  {
    var value := Equity(s, q);
    if DriftOf(s.order, s.shares, q, value, want) < 0.01 || value <= 0.0 then s
    else BuyAll(SellAll(s, s.order, want, value, q, day, t), want, value, q, day, t)
  }

  function QuotesOn(px: Closes, day: nat): Quotes {
    map tk | tk in px && day < |px[tk]| :: px[tk][day]
  }

  /** Every ticker any target names has a close on every day of the calendar. */
  ghost predicate Covers(px: Closes, targets: seq<Target>) {
    forall target, leg :: target in targets && leg in target ==>
      leg.ticker in px && |px[leg.ticker]| >= |targets|
  }

  /** The tickers with a close on every one of the first n days. */
  ghost predicate Listed(order: seq<Ticker>, px: Closes, n: nat) {
    forall tk :: tk in order ==> tk in px && |px[tk]| >= n
  }

  /** Yesterday's target is what today's close executes; the first day wants nothing. */
  function WantOn(targets: seq<Target>, day: nat): Target
    requires day < |targets|
  {
    if day > 0 then targets[day - 1] else []
  }

  lemma WantIsListed(px: Closes, targets: seq<Target>, day: nat)
    requires Covers(px, targets) && day < |targets|
    ensures TargetQuoted(WantOn(targets, day), QuotesOn(px, day))
    ensures forall tk :: Wants(WantOn(targets, day), tk) ==> tk in px && |px[tk]| >= |targets|
  {
  }

  /** The state after the first n days. */
  function After(px: Closes, targets: seq<Target>, t: Terms, n: nat): (s: State)
    requires Covers(px, targets) && n <= |targets|
    ensures Coherent(s) && Listed(s.order, px, |targets|)
  {
    if n == 0 then START
    else
      var s := After(px, targets, t, n - 1);
      WantIsListed(px, targets, n - 1);
      Rebalance(s, WantOn(targets, n - 1), QuotesOn(px, n - 1), n - 1, t)
  }

  /** The book's value at a day's close, before that day's trading. */
  function ValueOn(px: Closes, targets: seq<Target>, t: Terms, day: nat): real
    requires Covers(px, targets) && day < |targets|
  {
    Equity(After(px, targets, t, day), QuotesOn(px, day))
  }

  // ---------------------------------------------------------------- the loop itself

  datatype Result = Result(values: seq<real>, taxPaid: real, trades: nat, traded: real,
                           closed: nat, wins: nat, tripPnl: seq<real>, tripDays: seq<int>)

  /** These holdings of a book can be sold in turn. */
  ghost predicate Sellable(s: State, tks: seq<Ticker>, q: Quotes) {
    Coherent(s) && NoDup(tks) && Quoted(tks, q) && forall tk :: tk in tks ==> tk in s.order
  }

  lemma FirstAreSellable(s: State, k: nat, q: Quotes)
    requires Coherent(s) && Quoted(s.order, q) && k <= |s.order|
    ensures Sellable(s, s.order[..k], q)
  {
  }

  lemma SellAllNext(s: State, tks: seq<Ticker>, k: nat, want: Target, value: real, q: Quotes, day: int, t: Terms)
    requires k < |tks| && Sellable(s, tks[..k], q) && Sellable(s, tks[..k + 1], q)
    ensures tks[k] in q && tks[k] in SellAll(s, tks[..k], want, value, q, day, t).shares
    ensures SellAll(s, tks[..k + 1], want, value, q, day, t)
         == SellStep(SellAll(s, tks[..k], want, value, q, day, t), tks[k], want, value, q, day, t)
  {
    hide SellStep;
    var next := tks[..k + 1];
    assert next[..k] == tks[..k] && next[k] == tks[k];
    assert tks[k] !in tks[..k];
  }

  /** Sales first, in holding order. */
  method SellDown(opening: State, want: Target, value: real, q: Quotes, day: int, t: Terms) returns (s: State)
    requires Coherent(opening) && Quoted(opening.order, q)
    ensures s == SellAll(opening, opening.order, want, value, q, day, t)
  {
    hide SellAll, SellStep, Coherent, NoDup, Quoted;
    s := opening;
    var held := s.order;
    FirstAreSellable(opening, 0, q);
    assert SellAll(opening, held[..0], want, value, q, day, t) == opening by {
      SellAllOfNone(opening, held[..0], want, value, q, day, t);
    }
    for k := 0 to |held|
      invariant Sellable(opening, held[..k], q)
      invariant s == SellAll(opening, held[..k], want, value, q, day, t)
    {
      FirstAreSellable(opening, k + 1, q);
      SellAllNext(opening, held, k, want, value, q, day, t);
      s := SellStep(s, held[k], want, value, q, day, t);
    }
    assert held[..|held|] == held;
  }

  lemma SellAllOfNone(s: State, tks: seq<Ticker>, want: Target, value: real, q: Quotes, day: int, t: Terms)
    requires Sellable(s, tks, q) && tks == []
    ensures SellAll(s, tks, want, value, q, day, t) == s
  {
  }

  /** Then purchases, in target order, each from the cash the earlier ones left. */
  method BuyUp(opening: State, want: Target, value: real, q: Quotes, day: int, t: Terms) returns (s: State)
    requires Coherent(opening) && TargetQuoted(want, q)
    ensures s == BuyAll(opening, want, value, q, day, t)
  {
    hide BuyStep, Coherent;
    s := opening;
    for k := 0 to |want|
      invariant s == BuyAll(opening, want[..k], value, q, day, t)
    {
      assert want[..k + 1][..k] == want[..k];
      s := BuyStep(s, want[k], value, q, day, t);
    }
    assert want[..|want|] == want;
  }

  /** The walk over the calendar meets the day-by-day specification. */
  method Simulate(px: Closes, targets: seq<Target>, t: Terms) returns (r: Result)
    requires Covers(px, targets)
    ensures |r.values| == |targets|
    ensures forall i :: 0 <= i < |targets| ==> r.values[i] == ValueOn(px, targets, t, i)
    ensures var s := After(px, targets, t, |targets|);
      r == Result(r.values, s.taxPaid, s.trades, s.traded, s.closed, s.wins, s.tripPnl, s.tripDays)
  {
    hide SellAll, BuyAll, DriftOf, Holdings, NoDup, Covers;
    var s := START;
    var values := [];
    for i := 0 to |targets|
      invariant |values| == i
      invariant forall j :: 0 <= j < i ==> values[j] == ValueOn(px, targets, t, j)
      invariant s == After(px, targets, t, i)
    {
      WantIsListed(px, targets, i);
      var q := QuotesOn(px, i);
      var value := Equity(s, q);
      values := values + [value];
      var want := WantOn(targets, i);
      if DriftOf(s.order, s.shares, q, value, want) < 0.01 || value <= 0.0 {
        continue;
      }
      s := SellDown(s, want, value, q, i, t);
      s := BuyUp(s, want, value, q, i, t);
    }
    r := Result(values, s.taxPaid, s.trades, s.traded, s.closed, s.wins, s.tripPnl, s.tripDays);
  }
}
