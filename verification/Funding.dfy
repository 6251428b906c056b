/** Paying for a purchase: cash above the floor first, then whole shares of the worst-fitting holdings. */
module Funding {
  import opened Basics
  import opened Sizing

  datatype Position = Position(ticker: Ticker, price: real, rate: real, quantity: real, costBasis: real,
                               cls: AssetClass)
  datatype Aim = Aim(cls: AssetClass, weight: real)

  /** The holdings and the plan they are measured against. */
  datatype Book = Book(positions: seq<Position>, nav: real, aims: seq<Aim>, cap: real, cgt: real, cash: real,
                       floorPct: real)

  // ---------------------------------------------------------------- sizes

  /** The part of the book kept liquid. */
  function CashFloor(b: Book): real { Max(0.0, b.nav) * b.floorPct }
  function Spendable(b: Book): real { Max(0.0, b.cash - CashFloor(b)) }

  function PriceIls(p: Position): real { p.price * p.rate }
  function ValueIls(p: Position): real { p.quantity * PriceIls(p) }
  function ShareOf(b: Book, p: Position): real { if b.nav != 0.0 then ValueIls(p) / b.nav else 0.0 }

  function ClassWeight(b: Book, ps: seq<Position>, cls: AssetClass): real {
    if ps == [] then 0.0 else (if ps[0].cls == cls then ShareOf(b, ps[0]) else 0.0) + ClassWeight(b, ps[1..], cls)
  }

  function AimFor(aims: seq<Aim>, cls: AssetClass): real {
    if aims == [] then 0.0 else if aims[0].cls == cls then aims[0].weight else AimFor(aims[1..], cls)
  }

  function ClassOver(b: Book, cls: AssetClass): real {
    Max(0.0, ClassWeight(b, b.positions, cls) - AimFor(b.aims, cls))
  }
  function NameOver(b: Book, p: Position): real { Max(0.0, ShareOf(b, p) - b.cap) }

  /** What a single holding is worth beyond its concentration cap. */
  function OverCap(b: Book, p: Position): real { NameOver(b, p) * b.nav }

  // ---------------------------------------------------------------- ranking

  function GainPct(p: Position): real {
    if p.costBasis != 0.0 then (p.price - p.costBasis) / p.costBasis * 100.0 else 0.0
  }

  function TaxFriendliness(gainPct: real): real {
    if gainPct < 0.0 then 1.0 else Max(0.0, 1.0 - Min(gainPct, 100.0) / 100.0)
  }

  function Score(b: Book, p: Position): real {
    NameOver(b, p) * 400.0 + ClassOver(b, p.cls) * 100.0 + TaxFriendliness(GainPct(p)) * 10.0
  }

  predicate Trimmable(b: Book, p: Position, exclude: set<Ticker>) {
    p.ticker !in exclude && ValueIls(p) >= MIN_TRADE && Score(b, p) > 0.0
  }

  function InsertByScore(b: Book, p: Position, ps: seq<Position>): seq<Position> {
    if ps == [] || Score(b, p) >= Score(b, ps[0]) then [p] + ps else [ps[0]] + InsertByScore(b, p, ps[1..])
  }

  /** Worst fit first, ties in book order. */
  function Ranked(b: Book, ps: seq<Position>, exclude: set<Ticker>): seq<Position> {
    if ps == [] then []
    else if Trimmable(b, ps[0], exclude) then InsertByScore(b, ps[0], Ranked(b, ps[1..], exclude))
    else Ranked(b, ps[1..], exclude)
  }

  function Candidates(b: Book, exclude: set<Ticker>): seq<Position> {
    if b.nav == 0.0 then [] else Ranked(b, b.positions, exclude)
  }

  // ---------------------------------------------------------------- one sale

  datatype Sale = Sale(position: Position, shares: int, value: real, tax: real)

  function GainPerShare(p: Position): real { Max(0.0, p.price - p.costBasis) }

  function TaxPerShare(b: Book, p: Position): real { GainPerShare(p) * p.rate * b.cgt }

  /** Tax as a fraction of proceeds, clipped so that a sale always nets something. */
  function TaxFraction(b: Book, p: Position): (f: real)
    requires PriceIls(p) > 0.0
    ensures f <= 0.95
  {
    Min(0.95, TaxPerShare(b, p) / PriceIls(p))
  }

  function NetPerShare(b: Book, p: Position): real
    requires PriceIls(p) > 0.0
  {
    PriceIls(p) * (1.0 - TaxFraction(b, p))
  }

  /** What must be sold to net `remaining` after tax. */
  function Gross(remaining: real, taxFraction: real): real
    requires taxFraction <= 0.95
  {
    remaining / (1.0 - taxFraction)
  }

  function WholeShares(take: real, price: real): int
    requires price > 0.0
  {
    (take / price).Floor
  }

  /** One share more when that alone would close the gap and the position can spare it. */
  predicate TakesOneMore(shares: int, price: real, net: real, remaining: real, sellable: real) {
    Worth(shares as real, net) < remaining && Worth((shares + 1) as real, price) <= sellable
  }

  /** What authorises a sale, and how much of it: the name over its cap or its class over target; the whole
      position only when nothing in the book is overweight. */
  function Allowance(b: Book, p: Position, budget: real, bookHasBudget: bool): Option<real> {
    var allow := Max(OverCap(b, p), budget);
    if allow >= MIN_TRADE then Some(allow) else if bookHasBudget then None else Some(ValueIls(p))
  }

  function SaleFrom(b: Book, p: Position, remaining: real, reserved: real, budget: real,
                    bookHasBudget: bool): Option<Sale> {
    var allow := Allowance(b, p, budget, bookHasBudget);
    var price := PriceIls(p);
    if price <= 0.0 || allow.None? || p.quantity - reserved <= 0.0 then None
    else
      var sellable := Worth(p.quantity - reserved, price);
      var take := Min(Gross(remaining, TaxFraction(b, p)), Min(allow.value, sellable));
      var shares := WholeShares(take, price);
      if take < MIN_TRADE || shares <= 0 then None
      else
        var n := if TakesOneMore(shares, price, NetPerShare(b, p), remaining, sellable) then shares + 1 else shares;
        Some(Sale(p, n, Worth(n as real, price), Worth(n as real, TaxPerShare(b, p))))
  }

  // ---------------------------------------------------------------- the funding loop

  datatype Progress = Progress(remaining: real, sales: seq<Sale>, budget: map<AssetClass, real>)

  function Reserved(reserved: map<Ticker, real>, tk: Ticker): real { if tk in reserved then reserved[tk] else 0.0 }
  function BudgetFor(budget: map<AssetClass, real>, cls: AssetClass): real {
    if cls in budget then budget[cls] else 0.0
  }

  function Advance(b: Book, g: Progress, p: Position, reserved: map<Ticker, real>, bookHasBudget: bool): Progress {
    if g.remaining < MIN_TRADE then g
    else
      match SaleFrom(b, p, g.remaining, Reserved(reserved, p.ticker), BudgetFor(g.budget, p.cls), bookHasBudget)
      case None => g
      case Some(sale) =>
        Progress(g.remaining - (sale.value - sale.tax), g.sales + [sale],
                 if p.cls in g.budget then g.budget[p.cls := Max(0.0, g.budget[p.cls] - sale.value)] else g.budget)
  }

  function AdvanceAll(b: Book, g: Progress, ps: seq<Position>, reserved: map<Ticker, real>,
                      bookHasBudget: bool): Progress {
    if ps == [] then g
    else Advance(b, AdvanceAll(b, g, ps[..|ps| - 1], reserved, bookHasBudget), ps[|ps| - 1], reserved, bookHasBudget)
  }

  function InitialBudget(b: Book): map<AssetClass, real> {
    map p | p in b.positions :: p.cls := ClassOver(b, p.cls) * b.nav
  }

  /** The classes of the holdings, each once. */
  function Classes(ps: seq<Position>): (r: seq<AssetClass>)
    ensures NoDup(r) && forall c :: c in r <==> exists p :: p in ps && p.cls == c
  {
    if ps == [] then []
    else
      var rest := Classes(ps[1..]);
      if ps[0].cls in rest then rest else [ps[0].cls] + rest
  }

  function TotalClassOver(b: Book, cs: seq<AssetClass>): real {
    if cs == [] then 0.0 else ClassOver(b, cs[0]) * b.nav + TotalClassOver(b, cs[1..])
  }

  function TotalNameOver(b: Book, ps: seq<Position>): real {
    if ps == [] then 0.0 else OverCap(b, ps[0]) + TotalNameOver(b, ps[1..])
  }

  predicate BookHasBudget(b: Book) {
    TotalClassOver(b, Classes(b.positions)) + TotalNameOver(b, b.positions) >= MIN_TRADE
  }

  datatype Fund = Fund(amount: real, fromCash: real, sales: seq<Sale>)

  function NetOf(sales: seq<Sale>): real {
    if sales == [] then 0.0 else NetOf(sales[..|sales| - 1]) + (sales[|sales| - 1].value - sales[|sales| - 1].tax)
  }

  function Funded(f: Fund): real { Max(0.0, f.fromCash + NetOf(f.sales)) }

  function PlanFunding(b: Book, amount: real, exclude: set<Ticker>, reserved: map<Ticker, real>, cashUsed: real): Fund {
    var want := Max(0.0, amount);
    var fromCash := Min(Max(0.0, Spendable(b) - cashUsed), want);
    if want - fromCash < MIN_TRADE then Fund(want, fromCash, [])
    else
      Fund(want, fromCash,
           AdvanceAll(b, Progress(want - fromCash, [], InitialBudget(b)), Candidates(b, exclude), reserved,
                      BookHasBudget(b)).sales)
  }

  lemma {:induction false} AdvanceAllStops(b: Book, g: Progress, ps: seq<Position>, n: nat,
                                           reserved: map<Ticker, real>, has: bool)
    requires n <= |ps| && AdvanceAll(b, g, ps[..n], reserved, has).remaining < MIN_TRADE
    ensures AdvanceAll(b, g, ps, reserved, has) == AdvanceAll(b, g, ps[..n], reserved, has)
    decreases |ps| - n
  {
    hide SaleFrom;
    if n == |ps| {
      assert ps[..n] == ps;
    } else {
      assert ps[..|ps| - 1][..n] == ps[..n];
      AdvanceAllStops(b, g, ps[..|ps| - 1], n, reserved, has);
    }
  }

  /** The funding loop on plain variables, with its early exit. */
  method ComputeFunding(b: Book, amount: real, exclude: set<Ticker>, reserved: map<Ticker, real>, cashUsed: real)
    returns (f: Fund)
    ensures f == PlanFunding(b, amount, exclude, reserved, cashUsed)
  {
    hide SaleFrom, BookHasBudget, InitialBudget, Candidates;
    var want := Max(0.0, amount);
    var fromCash := Min(Max(0.0, Spendable(b) - cashUsed), want);
    var remaining, sales := want - fromCash, [];
    if remaining >= MIN_TRADE {
      var budget, has, candidates := InitialBudget(b), BookHasBudget(b), Candidates(b, exclude);
      ghost var start := Progress(remaining, [], budget);
      for k := 0 to |candidates|
        invariant Progress(remaining, sales, budget) == AdvanceAll(b, start, candidates[..k], reserved, has)
      {
        assert candidates[..k + 1][..k] == candidates[..k];
        if remaining < MIN_TRADE {
          AdvanceAllStops(b, start, candidates, k, reserved, has);
          return Fund(want, fromCash, sales);
        }
        var p := candidates[k];
        var sale := SaleFrom(b, p, remaining, Reserved(reserved, p.ticker), BudgetFor(budget, p.cls), has);
        if sale.None? {
          continue;
        }
        sales := sales + [sale.value];
        remaining := remaining - (sale.value.value - sale.value.tax);
        if p.cls in budget {
          budget := budget[p.cls := Max(0.0, budget[p.cls] - sale.value.value)];
        }
      }
      assert candidates[..|candidates|] == candidates;
    }
    f := Fund(want, fromCash, sales);
  }

  // ---------------------------------------------------------------- what one sale does

  /** Honest inputs: positive rates, costs and prices that are not negative, a tax rate the clip was meant for. */
  ghost predicate Honest(b: Book) {
    && 0.0 <= b.cgt <= 0.95 && b.nav >= 0.0
    && forall p :: p in b.positions ==> p.rate > 0.0 && p.costBasis >= 0.0 && p.price >= 0.0
  }

  lemma FloorFits(take: real, price: real)
    requires price > 0.0
    ensures Worth(WholeShares(take, price) as real, price) <= take
  {
  }

  lemma NonNegative(x: real, y: real)
    requires x >= 0.0 && y >= 0.0
    ensures x * y >= 0.0
  {
  }

  lemma WorthOfSum(x: real, y: real, price: real)
    ensures Worth(x + y, price) == Worth(x, price) + Worth(y, price)
    ensures Worth(x, price + y) == Worth(x, price) + Worth(x, y)
    ensures Worth(1.0, price) == price
  {
  }

  lemma SharesFromWorth(x: real, y: real, price: real)
    requires price > 0.0 && Worth(x, price) <= Worth(y, price)
    ensures x <= y
  {
  }

  lemma MoreIsWorthMore(x: real, y: real, price: real)
    requires price > 0.0 && x > y
    ensures Worth(x, price) > Worth(y, price)
  {
  }

  /** A sale sells at least one share and never one already promised elsewhere. */
  lemma SaleFitsHolding(b: Book, p: Position, remaining: real, reserved: real, budget: real, has: bool)
    requires SaleFrom(b, p, remaining, reserved, budget, has).Some?
    ensures var s := SaleFrom(b, p, remaining, reserved, budget, has).value;
      s.position == p && 1 <= s.shares && s.shares as real <= p.quantity - reserved && PriceIls(p) > 0.0
      && s.value == Worth(s.shares as real, PriceIls(p)) && s.tax == Worth(s.shares as real, TaxPerShare(b, p))
  {
    hide WholeShares, TaxFraction, Allowance, PriceIls, TaxPerShare, NetPerShare, Worth, Gross;
    var s := SaleFrom(b, p, remaining, reserved, budget, has).value;
    var price, sellable := PriceIls(p), Worth(p.quantity - reserved, PriceIls(p));
    var take := Min(Gross(remaining, TaxFraction(b, p)), Min(Allowance(b, p, budget, has).value, sellable));
    FloorFits(take, price);
    SharesFromWorth(s.shares as real, p.quantity - reserved, price);
  }

  /** The clip never binds: a gain is at most the price, so tax is at most the tax rate's share of it. */
  lemma ClipNeverBinds(b: Book, p: Position)
    requires PriceIls(p) > 0.0 && p.rate > 0.0 && p.costBasis >= 0.0 && 0.0 <= b.cgt <= 0.95
    ensures TaxFraction(b, p) == TaxPerShare(b, p) / PriceIls(p) && 0.0 <= TaxFraction(b, p) <= b.cgt
  {
    PricePositive(p);
    GainWithinPrice(p);
    ProductWithin(GainPerShare(p) * p.rate, PriceIls(p), b.cgt);
    hide PriceIls, GainPerShare;
    QuotientWithin(TaxPerShare(b, p), PriceIls(p), b.cgt);
  }

  lemma PricePositive(p: Position)
    requires PriceIls(p) > 0.0 && p.rate > 0.0
    ensures p.price > 0.0
  {
  }

  lemma GainWithinPrice(p: Position)
    requires p.price > 0.0 && p.rate > 0.0 && p.costBasis >= 0.0
    ensures 0.0 <= GainPerShare(p) * p.rate <= PriceIls(p)
  {
  }

  lemma ProductWithin(x: real, y: real, c: real)
    requires 0.0 <= x <= y && c >= 0.0
    ensures 0.0 <= x * c <= y * c
  {
  }

  lemma QuotientWithin(x: real, y: real, c: real)
    requires 0.0 <= x <= y * c && y > 0.0
    ensures 0.0 <= x / y <= c
  {
  }

  /** So a share nets exactly its price less its tax, and always something. */
  lemma NetIsExact(b: Book, p: Position)
    requires PriceIls(p) > 0.0 && p.rate > 0.0 && p.costBasis >= 0.0 && 0.0 <= b.cgt <= 0.95
    ensures NetPerShare(b, p) == PriceIls(p) - TaxPerShare(b, p) > 0.0
  {
    ClipNeverBinds(b, p);
    var price, f := PriceIls(p), TaxFraction(b, p);
    hide TaxFraction, TaxPerShare, PriceIls;
    assert f * price == TaxPerShare(b, p);
    assert (1.0 - f) * price > 0.0;
  }

  lemma GrossCovers(remaining: real, f: real, price: real, shares: real, net: real)
    requires f <= 0.95 && Worth(shares, price) <= Gross(remaining, f) && net == price * (1.0 - f)
    ensures Worth(shares, net) <= remaining
  {
  }

  /** A sale overshoots what is still needed by less than one of its own shares. */
  lemma SaleOvershoot(b: Book, p: Position, remaining: real, reserved: real, budget: real, has: bool)
    requires Honest(b) && p in b.positions
    requires SaleFrom(b, p, remaining, reserved, budget, has).Some?
    ensures PriceIls(p) > 0.0 && NetPerShare(b, p) > 0.0
    ensures var s := SaleFrom(b, p, remaining, reserved, budget, has).value;
      remaining - (s.value - s.tax) > -NetPerShare(b, p)
  {
    hide WholeShares, TaxFraction, Allowance, PriceIls, TaxPerShare, Worth, Gross;
    SaleFitsHolding(b, p, remaining, reserved, budget, has);
    NetIsExact(b, p);
    var s := SaleFrom(b, p, remaining, reserved, budget, has).value;
    var price, f, net := PriceIls(p), TaxFraction(b, p), NetPerShare(b, p);
    var sellable := Worth(p.quantity - reserved, price);
    var take := Min(Gross(remaining, f), Min(Allowance(b, p, budget, has).value, sellable));
    var n := WholeShares(take, price) as real;
    FloorFits(take, price);
    GrossCovers(remaining, f, price, n, net);
    WorthOfSum(n, 1.0, net);
    WorthOfSum(s.shares as real, TaxPerShare(b, p), net);
  }

  // ---------------------------------------------------------------- the loop as a whole

  /** What is still to be raised is what was asked for less everything netted so far. */
  lemma {:induction false} RemainingIsExact(b: Book, g: Progress, ps: seq<Position>, reserved: map<Ticker, real>,
                                            has: bool)
    ensures var r := AdvanceAll(b, g, ps, reserved, has); r.remaining == g.remaining - (NetOf(r.sales) - NetOf(g.sales))
  {
    hide SaleFrom;
    if ps != [] {
      RemainingIsExact(b, g, ps[..|ps| - 1], reserved, has);
      var m := AdvanceAll(b, g, ps[..|ps| - 1], reserved, has);
      forall sale
        ensures NetOf(m.sales + [sale]) == NetOf(m.sales) + (sale.value - sale.tax)
      {
        assert (m.sales + [sale])[..|m.sales|] == m.sales;
      }
    }
  }

  lemma {:induction false} LoopOvershoot(b: Book, g: Progress, ps: seq<Position>, reserved: map<Ticker, real>,
                                         has: bool)
    requires Honest(b) && g.sales == [] && g.remaining >= MIN_TRADE
    requires forall p :: p in ps ==> p in b.positions
    ensures var r := AdvanceAll(b, g, ps, reserved, has);
      if r.sales == [] then r.remaining == g.remaining
      else
        var p := r.sales[|r.sales| - 1].position;
        PriceIls(p) > 0.0 && NetPerShare(b, p) > 0.0 && r.remaining > -NetPerShare(b, p)
  {
    hide SaleFrom, PriceIls, NetPerShare, Honest;
    if ps != [] {
      var n := |ps| - 1;
      LoopOvershoot(b, g, ps[..n], reserved, has);
      var m, p := AdvanceAll(b, g, ps[..n], reserved, has), ps[n];
      var sale := SaleFrom(b, p, m.remaining, Reserved(reserved, p.ticker), BudgetFor(m.budget, p.cls), has);
      if m.remaining >= MIN_TRADE && sale.Some? {
        SaleFitsHolding(b, p, m.remaining, Reserved(reserved, p.ticker), BudgetFor(m.budget, p.cls), has);
        SaleOvershoot(b, p, m.remaining, Reserved(reserved, p.ticker), BudgetFor(m.budget, p.cls), has);
      }
    }
  }

  ghost predicate WorstFirst(b: Book, ps: seq<Position>) {
    forall i, j :: 0 <= i < j < |ps| ==> Score(b, ps[i]) >= Score(b, ps[j])
  }

  lemma {:induction false} InsertByScoreKeeps(b: Book, p: Position, ps: seq<Position>)
    ensures multiset(InsertByScore(b, p, ps)) == multiset{p} + multiset(ps)
    ensures forall x :: x in InsertByScore(b, p, ps) <==> x == p || x in ps
  {
    hide Score;
    if ps != [] && Score(b, p) < Score(b, ps[0]) {
      InsertByScoreKeeps(b, p, ps[1..]);
      assert ps == [ps[0]] + ps[1..];
    }
  }

  lemma {:induction false} InsertByScoreSorts(b: Book, p: Position, ps: seq<Position>)
    requires WorstFirst(b, ps)
    ensures WorstFirst(b, InsertByScore(b, p, ps))
  {
    hide Score;
    if ps != [] && Score(b, p) < Score(b, ps[0]) {
      InsertByScoreSorts(b, p, ps[1..]);
      InsertByScoreKeeps(b, p, ps[1..]);
      var tail := InsertByScore(b, p, ps[1..]);
      forall i | 0 <= i < |tail|
        ensures Score(b, ps[0]) >= Score(b, tail[i])
      {
        assert tail[i] in tail;
      }
    }
  }

  lemma {:induction false} RankedKeeps(b: Book, ps: seq<Position>, exclude: set<Ticker>)
    ensures forall x :: multiset(Ranked(b, ps, exclude))[x] == if Trimmable(b, x, exclude) then multiset(ps)[x] else 0
    ensures WorstFirst(b, Ranked(b, ps, exclude))
  {
    hide Score, Trimmable;
    if ps != [] {
      RankedKeeps(b, ps[1..], exclude);
      InsertByScoreKeeps(b, ps[0], Ranked(b, ps[1..], exclude));
      InsertByScoreSorts(b, ps[0], Ranked(b, ps[1..], exclude));
      assert ps == [ps[0]] + ps[1..];
    }
  }

  /** What may be sold is exactly every holding not excluded, worth trading and scoring at all, each as often as it is a
      row of the book, the worst fit first. */
  lemma CandidatesAreHoldings(b: Book, exclude: set<Ticker>)
    ensures WorstFirst(b, Candidates(b, exclude))
    ensures forall p :: multiset(Candidates(b, exclude))[p]
                        == if b.nav != 0.0 && Trimmable(b, p, exclude) then multiset(b.positions)[p] else 0
    ensures forall p :: p in Candidates(b, exclude) ==> p in b.positions && Trimmable(b, p, exclude)
  {
    RankedKeeps(b, b.positions, exclude);
    hide Ranked;
    forall p | p in Candidates(b, exclude)
      ensures p in b.positions && Trimmable(b, p, exclude)
    {
      assert p in multiset(Candidates(b, exclude)) && p in multiset(b.positions);
    }
  }

  /** A raise never passes the request by a share: it exceeds it by less than one share, net, of the last holding
      sold. */
  lemma FundingIsTight(b: Book, amount: real, exclude: set<Ticker>, reserved: map<Ticker, real>, cashUsed: real)
    requires Honest(b) && amount >= 0.0
    ensures var f := PlanFunding(b, amount, exclude, reserved, cashUsed);
      if f.sales == [] then Funded(f) == f.fromCash <= amount
      else
        var p := f.sales[|f.sales| - 1].position;
        PriceIls(p) > 0.0 && NetPerShare(b, p) > 0.0 && Funded(f) - amount < NetPerShare(b, p)
  {
    var f := PlanFunding(b, amount, exclude, reserved, cashUsed);
    hide PriceIls, NetPerShare, SaleFrom, Candidates, InitialBudget, BookHasBudget, Honest;
    if amount - f.fromCash >= MIN_TRADE {
      CandidatesAreHoldings(b, exclude);
      var start := Progress(amount - f.fromCash, [], InitialBudget(b));
      RemainingIsExact(b, start, Candidates(b, exclude), reserved, BookHasBudget(b));
      LoopOvershoot(b, start, Candidates(b, exclude), reserved, BookHasBudget(b));
    }
  }

  // ---------------------------------------------------------------- nothing is sold twice

  /** Shares of a ticker a list of sales sells. */
  function Sold(sales: seq<Sale>, tk: Ticker): real {
    if sales == [] then 0.0
    else Sold(sales[..|sales| - 1], tk)
         + (if sales[|sales| - 1].position.ticker == tk then sales[|sales| - 1].shares as real else 0.0)
  }

  lemma SoldAppend(sales: seq<Sale>, sale: Sale, tk: Ticker)
    ensures Sold(sales + [sale], tk)
        == Sold(sales, tk) + (if sale.position.ticker == tk then sale.shares as real else 0.0)
  {
  }

  /** One step sells nothing of a ticker, or of its own holding no more than is still free. */
  lemma StepSellsWithin(b: Book, m: Progress, p: Position, reserved: map<Ticker, real>, has: bool, tk: Ticker)
    ensures var more := Sold(Advance(b, m, p, reserved, has).sales, tk) - Sold(m.sales, tk);
      more == 0.0 || (p.ticker == tk && 0.0 < more <= p.quantity - Reserved(reserved, tk))
  {
    hide SaleFrom, Sold;
    var kept, budget := Reserved(reserved, p.ticker), BudgetFor(m.budget, p.cls);
    var sale := SaleFrom(b, p, m.remaining, kept, budget, has);
    if m.remaining >= MIN_TRADE && sale.Some? {
      SaleFitsHolding(b, p, m.remaining, kept, budget, has);
      SoldAppend(m.sales, sale.value, tk);
    }
  }

  /** What rows of a ticker hold beyond what each must keep back. */
  function Free(ps: seq<Position>, tk: Ticker, kept: real): (free: real)
    ensures free >= 0.0
  {
    if ps == [] then 0.0
    else (if ps[0].ticker == tk then Max(0.0, ps[0].quantity - kept) else 0.0) + Free(ps[1..], tk, kept)
  }

  lemma {:induction false} FreeAppend(ps: seq<Position>, p: Position, tk: Ticker, kept: real)
    ensures Free(ps + [p], tk, kept)
        == Free(ps, tk, kept) + (if p.ticker == tk then Max(0.0, p.quantity - kept) else 0.0)
  {
    if ps != [] {
      FreeAppend(ps[1..], p, tk, kept);
      assert (ps + [p])[1..] == ps[1..] + [p];
    }
  }

  /** The loop sells of each ticker at most what its rows have free. */
  lemma {:induction false} LoopSellsWithin(
      b: Book, g: Progress, ps: seq<Position>, reserved: map<Ticker, real>, has: bool, tk: Ticker)
    requires g.sales == []
    ensures 0.0 <= Sold(AdvanceAll(b, g, ps, reserved, has).sales, tk) <= Free(ps, tk, Reserved(reserved, tk))
  {
    hide Advance, Reserved;
    if ps != [] {
      var n := |ps| - 1;
      LoopSellsWithin(b, g, ps[..n], reserved, has, tk);
      StepSellsWithin(b, AdvanceAll(b, g, ps[..n], reserved, has), ps[n], reserved, has, tk);
      FreeAppend(ps[..n], ps[n], tk, Reserved(reserved, tk));
      assert ps == ps[..n] + [ps[n]];
    }
  }

  lemma {:induction false} FreeInserted(b: Book, p: Position, ps: seq<Position>, tk: Ticker, kept: real)
    ensures Free(InsertByScore(b, p, ps), tk, kept)
         == (if p.ticker == tk then Max(0.0, p.quantity - kept) else 0.0) + Free(ps, tk, kept)
  {
    hide Score;
    if ps != [] && Score(b, p) < Score(b, ps[0]) {
      FreeInserted(b, p, ps[1..], tk, kept);
    }
  }

  lemma {:induction false} RankedFree(b: Book, ps: seq<Position>, exclude: set<Ticker>, tk: Ticker, kept: real)
    ensures Free(Ranked(b, ps, exclude), tk, kept) <= Free(ps, tk, kept)
    ensures tk in exclude ==> Free(Ranked(b, ps, exclude), tk, kept) == 0.0
  {
    hide Score, ValueIls;
    if ps != [] {
      RankedFree(b, ps[1..], exclude, tk, kept);
      FreeInserted(b, ps[0], Ranked(b, ps[1..], exclude), tk, kept);
    }
  }

  /** A plan sells of each ticker at most what its rows have free, nothing of an excluded one, and draws on no more cash
      than earlier plans left above the floor. */
  lemma FundSellsWithin(b: Book, amount: real, exclude: set<Ticker>, reserved: map<Ticker, real>, cashUsed: real,
                        tk: Ticker)
    ensures var f := PlanFunding(b, amount, exclude, reserved, cashUsed);
      && 0.0 <= Sold(f.sales, tk) <= Free(b.positions, tk, Reserved(reserved, tk))
      && (tk in exclude ==> Sold(f.sales, tk) == 0.0)
      && 0.0 <= f.fromCash <= Max(0.0, Spendable(b) - cashUsed)
  {
    hide AdvanceAll, Ranked, InitialBudget, BookHasBudget, Reserved, Spendable;
    var want := Max(0.0, amount);
    var fromCash := Min(Max(0.0, Spendable(b) - cashUsed), want);
    RankedFree(b, b.positions, exclude, tk, Reserved(reserved, tk));
    var start := Progress(want - fromCash, [], InitialBudget(b));
    LoopSellsWithin(b, start, Candidates(b, exclude), reserved, BookHasBudget(b), tk);
  }

  /** All that is held of a ticker, over all its rows. */
  function Held(ps: seq<Position>, tk: Ticker): real { Free(ps, tk, 0.0) }

  /** What is kept back and what is then free are together no more than what is held. */
  lemma {:induction false} FreeWithinHeld(ps: seq<Position>, tk: Ticker, kept: real)
    requires kept >= 0.0
    ensures kept + Free(ps, tk, kept) <= Max(kept, Held(ps, tk))
  {
    if ps != [] {
      FreeWithinHeld(ps[1..], tk, kept);
    }
  }

  // ---------------------------------------------------------------- a class gives up its overweight once

  function ClassSold(sales: seq<Sale>, cls: AssetClass): real {
    if sales == [] then 0.0
    else ClassSold(sales[..|sales| - 1], cls)
         + (if sales[|sales| - 1].position.cls == cls then sales[|sales| - 1].value else 0.0)
  }

  /** What a class's sales may add to its budget: each sold name's own excess, and one share of it. */
  function ClassSlack(b: Book, sales: seq<Sale>, cls: AssetClass): real {
    if sales == [] then 0.0
    else
      var p := sales[|sales| - 1].position;
      ClassSlack(b, sales[..|sales| - 1], cls) + (if p.cls == cls then OverCap(b, p) + PriceIls(p) else 0.0)
  }

  lemma OneSaleWithinAllowance(b: Book, p: Position, remaining: real, reserved: real, budget: real)
    requires SaleFrom(b, p, remaining, reserved, budget, true).Some? && b.nav >= 0.0 && budget >= 0.0
    ensures var s := SaleFrom(b, p, remaining, reserved, budget, true).value;
      0.0 <= s.value <= budget + OverCap(b, p) + PriceIls(p) && 0.0 <= OverCap(b, p) && 0.0 < PriceIls(p)
  {
    hide WholeShares, TaxFraction, PriceIls, TaxPerShare, Worth, Gross, OverCap, NetPerShare, TakesOneMore, ValueIls;
    SaleFitsHolding(b, p, remaining, reserved, budget, true);
    OverCapNonNegative(b, p);
    var s, price, f := SaleFrom(b, p, remaining, reserved, budget, true).value, PriceIls(p), TaxFraction(b, p);
    var take := Min(Gross(remaining, f), Min(Allowance(b, p, budget, true).value, Worth(p.quantity - reserved, price)));
    var n := WholeShares(take, price) as real;
    FloorFits(take, price);
    WorthOfSum(n, 1.0, price);
    WorthNonNegative(s.shares as real, price);
  }

  lemma OverCapNonNegative(b: Book, p: Position)
    requires b.nav >= 0.0
    ensures OverCap(b, p) >= 0.0
  {
  }

  lemma WorthNonNegative(x: real, price: real)
    requires x >= 0.0 && price >= 0.0
    ensures Worth(x, price) >= 0.0
  {
  }

  ghost predicate Affordable(budget: map<AssetClass, real>) {
    forall c :: c in budget ==> budget[c] >= 0.0
  }

  lemma ClassSoldAppend(b: Book, sales: seq<Sale>, sale: Sale, cls: AssetClass)
    ensures ClassSold(sales + [sale], cls)
        == ClassSold(sales, cls) + (if sale.position.cls == cls then sale.value else 0.0)
    ensures ClassSlack(b, sales + [sale], cls)
         == ClassSlack(b, sales, cls)
           + (if sale.position.cls == cls then OverCap(b, sale.position) + PriceIls(sale.position) else 0.0)
  {
  }

  /** What a class has sold and may still sell, beyond what its names' own excess allowed. */
  function ClassUse(b: Book, g: Progress, cls: AssetClass): real {
    ClassSold(g.sales, cls) + BudgetFor(g.budget, cls) - ClassSlack(b, g.sales, cls)
  }

  lemma OneStepWithinBudget(b: Book, m: Progress, p: Position, reserved: map<Ticker, real>, cls: AssetClass)
    requires b.nav >= 0.0 && Affordable(m.budget)
    ensures var r := Advance(b, m, p, reserved, true);
      Affordable(r.budget) && r.budget.Keys == m.budget.Keys && ClassUse(b, r, cls) <= ClassUse(b, m, cls)
  {
    hide SaleFrom, OverCap, PriceIls, ClassSold, ClassSlack;
    var kept, budget := Reserved(reserved, p.ticker), BudgetFor(m.budget, p.cls);
    if m.remaining >= MIN_TRADE && SaleFrom(b, p, m.remaining, kept, budget, true).Some? {
      OneSaleWithinAllowance(b, p, m.remaining, kept, budget);
      SaleFitsHolding(b, p, m.remaining, kept, budget, true);
      ClassSoldAppend(b, m.sales, SaleFrom(b, p, m.remaining, kept, budget, true).value, cls);
    }
  }

  /** While anything in the book is overweight, the value sold from a class plus what is left of its budget is at
      most its initial budget, plus the over-cap excess and one share of each of its names that was sold. */
  lemma {:induction false} ClassBudgetHolds(b: Book, g: Progress, ps: seq<Position>, reserved: map<Ticker, real>,
                                            cls: AssetClass)
    requires g.sales == [] && b.nav >= 0.0 && Affordable(g.budget)
    ensures var r := AdvanceAll(b, g, ps, reserved, true);
      && Affordable(r.budget) && r.budget.Keys == g.budget.Keys
      && ClassSold(r.sales, cls) + BudgetFor(r.budget, cls) <= BudgetFor(g.budget, cls) + ClassSlack(b, r.sales, cls)
  {
    hide Advance, OverCap, PriceIls;
    if ps != [] {
      ClassBudgetHolds(b, g, ps[..|ps| - 1], reserved, cls);
      OneStepWithinBudget(b, AdvanceAll(b, g, ps[..|ps| - 1], reserved, true), ps[|ps| - 1], reserved, cls);
    }
  }

  /** So no class is sold past its overweight, whatever was asked for: one budget a class, drawn down once. */
  lemma ClassSoldWithinOverweight(b: Book, amount: real, exclude: set<Ticker>, reserved: map<Ticker, real>, used: real,
                                  cls: AssetClass)
    requires b.nav >= 0.0 && BookHasBudget(b)
    ensures var f := PlanFunding(b, amount, exclude, reserved, used);
      ClassSold(f.sales, cls) <= ClassOver(b, cls) * b.nav + ClassSlack(b, f.sales, cls)
  {
    hide AdvanceAll, Candidates, BookHasBudget, InitialBudget, Spendable, Affordable, ClassOver;
    var want := Max(0.0, amount);
    var fromCash := Min(Max(0.0, Spendable(b) - used), want);
    NothingSold(b, cls);
    InitialBudgetIsTheOverweight(b, cls);
    ClassBudgetHolds(b, Progress(want - fromCash, [], InitialBudget(b)), Candidates(b, exclude), reserved, cls);
    BudgetNonNegative(AdvanceAll(b, Progress(want - fromCash, [], InitialBudget(b)), Candidates(b, exclude), reserved,
                                 true).budget,
                      cls);
  }

  lemma NothingSold(b: Book, cls: AssetClass)
    ensures ClassSold([], cls) == 0.0 && ClassSlack(b, [], cls) == 0.0
  {
  }

  lemma BudgetNonNegative(budget: map<AssetClass, real>, cls: AssetClass)
    requires Affordable(budget)
    ensures BudgetFor(budget, cls) >= 0.0
  {
  }

  lemma InitialBudgetIsTheOverweight(b: Book, cls: AssetClass)
    requires b.nav >= 0.0
    ensures Affordable(InitialBudget(b)) && 0.0 <= BudgetFor(InitialBudget(b), cls) <= ClassOver(b, cls) * b.nav
  {
    hide ClassOver;
    forall c
      ensures ClassOver(b, c) * b.nav >= 0.0
    {
      ClassBudgetNonNegative(b, c);
    }
  }

  lemma ClassBudgetNonNegative(b: Book, cls: AssetClass)
    requires b.nav >= 0.0
    ensures ClassOver(b, cls) * b.nav >= 0.0
  {
  }
}
