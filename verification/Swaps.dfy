/** What a purchase labelled a swap does to the mix: when it moves no weight, and when it takes the book further from
    its plan. */
module Swaps {
  import opened Basics
  import opened Funding
  import opened FundedBuy
  import opened Sizing

  // ---------------------------------------------------------------- weights add up to one

  function SumValues(m: Mix, cs: seq<AssetClass>): real {
    if cs == [] then 0.0 else m.value(cs[0]) + SumValues(m, cs[1..])
  }

  function SumWeights(m: Mix, cs: seq<AssetClass>): real
    requires m.total != 0.0
  {
    if cs == [] then 0.0 else WeightIn(m, cs[0]) + SumWeights(m, cs[1..])
  }

  lemma QuotientAdds(x: real, y: real, t: real)
    requires t != 0.0
    ensures (x + y) / t == x / t + y / t && t / t == 1.0 && 0.0 / t == 0.0
  {
  }

  lemma {:induction false} WeightsFromValues(m: Mix, cs: seq<AssetClass>)
    requires m.total != 0.0
    ensures SumWeights(m, cs) == SumValues(m, cs) / m.total
  {
    if cs == [] {
      QuotientAdds(0.0, 0.0, m.total);
    } else {
      WeightsFromValues(m, cs[1..]);
      QuotientAdds(m.value(cs[0]), SumValues(m, cs[1..]), m.total);
    }
  }

  function Only(cls: AssetClass, c: AssetClass, x: real): real { if c == cls then x else 0.0 }

  function SumOnly(cls: AssetClass, x: real, cs: seq<AssetClass>): real {
    if cs == [] then 0.0 else Only(cls, cs[0], x) + SumOnly(cls, x, cs[1..])
  }

  lemma {:induction false} OnlyOnce(cls: AssetClass, x: real, cs: seq<AssetClass>)
    requires NoDup(cs)
    ensures SumOnly(cls, x, cs) == if cls in cs then x else 0.0
  {
    if cs != [] {
      assert NoDup(cs[1..]) && cs[0] !in cs[1..];
      OnlyOnce(cls, x, cs[1..]);
    }
  }

  function SumHeld(ps: seq<Position>, cs: seq<AssetClass>): real {
    if cs == [] then 0.0 else ClassValue(ps, cs[0]) + SumHeld(ps, cs[1..])
  }

  lemma {:induction false} HeldSplits(p: Position, ps: seq<Position>, cs: seq<AssetClass>)
    ensures SumHeld([p] + ps, cs) == SumOnly(p.cls, ValueIls(p), cs) + SumHeld(ps, cs)
  {
    hide ValueIls;
    if cs != [] {
      assert ([p] + ps)[1..] == ps;
      HeldSplits(p, ps, cs[1..]);
    }
  }

  lemma {:induction false} NothingHeld(cs: seq<AssetClass>)
    ensures SumHeld([], cs) == 0.0 && SumSold([], cs) == 0.0
  {
    if cs != [] {
      NothingHeld(cs[1..]);
    }
  }

  lemma {:induction false} HeldIsInvested(ps: seq<Position>, cs: seq<AssetClass>)
    requires NoDup(cs) && forall p :: p in ps ==> p.cls in cs
    ensures SumHeld(ps, cs) == Invested(ps)
  {
    hide ValueIls;
    if ps == [] {
      NothingHeld(cs);
    } else {
      assert ps == [ps[0]] + ps[1..] && ps[0] in ps;
      HeldSplits(ps[0], ps[1..], cs);
      OnlyOnce(ps[0].cls, ValueIls(ps[0]), cs);
      HeldIsInvested(ps[1..], cs);
    }
  }

  function SumSold(sales: seq<Sale>, cs: seq<AssetClass>): real {
    if cs == [] then 0.0 else ClassSold(sales, cs[0]) + SumSold(sales, cs[1..])
  }

  lemma {:induction false} SoldSplits(sales: seq<Sale>, s: Sale, cs: seq<AssetClass>)
    ensures SumSold(sales + [s], cs) == SumSold(sales, cs) + SumOnly(s.position.cls, s.value, cs)
  {
    if cs != [] {
      assert (sales + [s])[..|sales|] == sales;
      SoldSplits(sales, s, cs[1..]);
    }
  }

  lemma {:induction false} SoldIsProceeds(sales: seq<Sale>, cs: seq<AssetClass>)
    requires NoDup(cs) && forall s :: s in sales ==> s.position.cls in cs
    ensures SumSold(sales, cs) == Proceeds(sales)
  {
    if sales == [] {
      NothingHeld(cs);
    } else {
      var n := |sales| - 1;
      assert sales == sales[..n] + [sales[n]] && sales[n] in sales;
      SoldSplits(sales[..n], sales[n], cs);
      OnlyOnce(sales[n].position.cls, sales[n].value, cs);
      SoldIsProceeds(sales[..n], cs);
    }
  }

  lemma {:induction false} MixSums(b: Book, cls: AssetClass, amount: real, sales: seq<Sale>, cs: seq<AssetClass>)
    ensures SumValues(MixNow(b), cs) == SumHeld(b.positions, cs)
    ensures SumValues(MixAfter(b, cls, amount, sales), cs)
         == SumHeld(b.positions, cs) + SumOnly(cls, amount, cs) - SumSold(sales, cs)
  {
    hide ClassValue, ClassSold, Invested, Proceeds;
    if cs != [] {
      MixSums(b, cls, amount, sales, cs[1..]);
    }
  }

  lemma {:induction false} DistinctIsNoDup(cs: seq<AssetClass>)
    ensures NoDup(Distinct(cs)) && forall c :: c in Distinct(cs) <==> c in cs
  {
    if cs != [] {
      DistinctIsNoDup(cs[1..]);
    }
  }

  /** The classes the mix is measured over are each named once, and hold all of the book and the purchase. */
  lemma MixClassesCover(b: Book, cls: AssetClass)
    ensures var cs := MixClasses(b, cls);
      NoDup(cs) && cls in cs && forall p :: p in b.positions ==> p.cls in cs
  {
    DistinctIsNoDup(AimClasses(b.aims) + Classes(b.positions) + [cls]);
  }

  /** Before and after a purchase the class weights add up to one. */
  lemma WeightsAddUp(b: Book, cls: AssetClass, amount: real, sales: seq<Sale>)
    requires forall s :: s in sales ==> s.position in b.positions
    ensures var cs, now, after := MixClasses(b, cls), MixNow(b), MixAfter(b, cls, amount, sales);
      && (now.total != 0.0 ==> SumWeights(now, cs) == 1.0)
      && (after.total != 0.0 ==> SumWeights(after, cs) == 1.0)
  {
    hide MixClasses, Proceeds, WeightIn, SumWeights, SumValues, ClassValue, ClassSold, Invested;
    var cs, now, after := MixClasses(b, cls), MixNow(b), MixAfter(b, cls, amount, sales);
    MixClassesCover(b, cls);
    MixSums(b, cls, amount, sales, cs);
    HeldIsInvested(b.positions, cs);
    SoldIsProceeds(sales, cs);
    OnlyOnce(cls, amount, cs);
    if now.total != 0.0 {
      WeightsFromValues(now, cs);
      QuotientAdds(0.0, 0.0, now.total);
    }
    if after.total != 0.0 {
      WeightsFromValues(after, cs);
      QuotientAdds(0.0, 0.0, after.total);
    }
  }

  // ---------------------------------------------------------------- drift is overweight, twice

  /** How far above its target a class is. */
  function OverIn(b: Book, m: Mix, cls: AssetClass): real
    requires m.total != 0.0
  {
    Max(0.0, WeightIn(m, cls) - AimFor(b.aims, cls))
  }

  /** How far above their targets the classes are, together. */
  function Overweight(b: Book, m: Mix, cs: seq<AssetClass>): real
    requires m.total != 0.0
  {
    if cs == [] then 0.0 else OverIn(b, m, cs[0]) + Overweight(b, m, cs[1..])
  }

  function SumAims(b: Book, cs: seq<AssetClass>): real {
    if cs == [] then 0.0 else AimFor(b.aims, cs[0]) + SumAims(b, cs[1..])
  }

  lemma {:induction false} DriftSplits(b: Book, m: Mix, cs: seq<AssetClass>)
    requires m.total != 0.0
    ensures Drift(b, m, cs) == 2.0 * Overweight(b, m, cs) - (SumWeights(m, cs) - SumAims(b, cs))
  {
    hide WeightIn, AimFor;
    if cs != [] {
      DriftSplits(b, m, cs[1..]);
    }
  }

  // ---------------------------------------------------------------- a card's sales are of the book

  lemma {:induction false} LoopSellsHoldings(
      b: Book, g: Progress, ps: seq<Position>, reserved: map<Ticker, real>, has: bool)
    requires g.sales == []
    ensures forall s :: s in AdvanceAll(b, g, ps, reserved, has).sales ==> s.position in ps && s.value > 0.0
  {
    hide SaleFrom;
    if ps != [] {
      var n := |ps| - 1;
      LoopSellsHoldings(b, g, ps[..n], reserved, has);
      var m, p := AdvanceAll(b, g, ps[..n], reserved, has), ps[n];
      var kept, budget := Reserved(reserved, p.ticker), BudgetFor(m.budget, p.cls);
      if SaleFrom(b, p, m.remaining, kept, budget, has).Some? {
        var sale := SaleFrom(b, p, m.remaining, kept, budget, has).value;
        SaleFitsHolding(b, p, m.remaining, kept, budget, has);
        MoreIsWorthMore(sale.shares as real, 0.0, PriceIls(p));
        assert sale.value > 0.0;
      }
    }
  }

  ghost predicate OfTheBook(b: Book, sales: seq<Sale>) {
    forall s :: s in sales ==> s.position in b.positions && s.value > 0.0 && ValueIls(s.position) >= MIN_TRADE
  }

  lemma PlanSellsHoldings(b: Book, amount: real, exclude: set<Ticker>, reserved: map<Ticker, real>, used: real)
    ensures OfTheBook(b, PlanFunding(b, amount, exclude, reserved, used).sales)
  {
    hide AdvanceAll, Candidates, InitialBudget, BookHasBudget, Spendable, ValueIls, Score;
    var want := Max(0.0, amount);
    var start := Progress(want - Min(Max(0.0, Spendable(b) - used), want), [], InitialBudget(b));
    LoopSellsHoldings(b, start, Candidates(b, exclude), reserved, BookHasBudget(b));
    CandidatesAreHoldings(b, exclude);
  }

  lemma CardSellsHoldings(b: Book, a: Account, r: Request)
    requires Propose(b, a, r).Some?
    ensures OfTheBook(b, Propose(b, a, r).value.fund.sales)
  {
    hide Label, Wanted, PlanFunding, OfTheBook, Funded;
    var want := Wanted(b, r).value;
    PlanSellsHoldings(b, want, Barred(r), a.shares, a.cash);
    PlanSellsHoldings(b, Min(want, Funded(PlanFor(b, a, r, want))), Barred(r), a.shares, a.cash);
  }

  /** A card exists only for a book with something in it, before and after. */
  lemma CardKeepsABook(b: Book, a: Account, r: Request)
    requires Propose(b, a, r).Some?
    ensures var c := Propose(b, a, r).value;
      && Invested(b.positions) > 0.0 && MixAfter(b, r.cls, c.amount, c.fund.sales).total > 0.0
      && c.amount >= MIN_TRADE && c.request == r && Wanted(b, r).Some?
  {
    hide Wanted, Sized, Drift, WeightIn, MixClasses, AimFor;
  }

  // ---------------------------------------------------------------- what any card does to drift

  /** How much further from the plan a card takes the book. */
  function DriftAdded(b: Book, c: Card): real
    requires Invested(b.positions) != 0.0 && MixAfter(b, c.request.cls, c.amount, c.fund.sales).total != 0.0
  {
    var cs := MixClasses(b, c.request.cls);
    Drift(b, MixAfter(b, c.request.cls, c.amount, c.fund.sales), cs) - Drift(b, MixNow(b), cs)
  }

  function OverweightAdded(b: Book, c: Card): real
    requires Invested(b.positions) != 0.0 && MixAfter(b, c.request.cls, c.amount, c.fund.sales).total != 0.0
  {
    var cs := MixClasses(b, c.request.cls);
    Overweight(b, MixAfter(b, c.request.cls, c.amount, c.fund.sales), cs) - Overweight(b, MixNow(b), cs)
  }

  /** A card, whatever its label and however it is paid for, takes the book further from its plan exactly when it adds
      to what the classes are over their targets, and by twice as much: what one class gains over its target no longer
      matters by itself, only what all of them are over together. */
  lemma DriftIsOverweightTwice(b: Book, a: Account, r: Request)
    requires Propose(b, a, r).Some?
    ensures Invested(b.positions) > 0.0
    ensures var c := Propose(b, a, r).value;
      && c.request == r && MixAfter(b, r.cls, c.amount, c.fund.sales).total > 0.0
      && DriftAdded(b, c) == 2.0 * OverweightAdded(b, c)
  {
    hide Propose, MixClasses, Drift, Overweight, WeightIn, SumWeights, Invested;
    CardKeepsABook(b, a, r);
    CardSellsHoldings(b, a, r);
    var c, cs := Propose(b, a, r).value, MixClasses(b, r.cls);
    WeightsAddUp(b, r.cls, c.amount, c.fund.sales);
    DriftSplits(b, MixNow(b), cs);
    DriftSplits(b, MixAfter(b, r.cls, c.amount, c.fund.sales), cs);
  }

  // ---------------------------------------------------------------- what the cards of a build claim

  /** What a card says of its class is what its own numbers do.  A claimed move is of half a point at least, toward the
      target, and leaves the whole book no further from the plan and no more overweight; a swap is offered only to
      callers that allow one, and only for a class that moves by less. */
  ghost predicate ClaimHolds(b: Book, c: Card) {
    && Invested(b.positions) > 0.0 && MixAfter(b, c.request.cls, c.amount, c.fund.sales).total > 0.0
    && var cls, aim := c.request.cls, AimFor(b.aims, c.request.cls);
       var before := WeightIn(MixNow(b), cls);
       var after := WeightIn(MixAfter(b, cls, c.amount, c.fund.sales), cls);
       match c.kind
       case TowardTarget =>
         && Abs(after - before) >= MIN_CLAIMABLE_MOVE && aim != before && (after > before <==> aim > before)
         && DriftAdded(b, c) <= DRIFT_EPSILON && 2.0 * OverweightAdded(b, c) <= DRIFT_EPSILON
       case WithinClassSwap => c.request.allowSwap && Abs(after - before) < MIN_CLAIMABLE_MOVE
  }

  lemma CardClaimHolds(b: Book, a: Account, r: Request)
    requires Propose(b, a, r).Some?
    ensures ClaimHolds(b, Propose(b, a, r).value)
  {
    hide Wanted, Sized, Drift, WeightIn, MixClasses, AimFor, Overweight, SameWay;
    var c := Propose(b, a, r).value;
    DriftIsOverweightTwice(b, a, r);
    SameSign(WeightIn(MixAfter(b, r.cls, c.amount, c.fund.sales), r.cls) - WeightIn(MixNow(b), r.cls),
             AimFor(b.aims, r.cls) - WeightIn(MixNow(b), r.cls));
  }

  lemma SameSign(x: real, y: real)
    ensures SameWay(x, y) <==> x != 0.0 && y != 0.0 && (x > 0.0 <==> y > 0.0)
  {
  }

  /** However many cards one ledger is threaded through, what each of them claims holds of the book they all start
      from. */
  lemma {:induction false} EveryClaimHolds(b: Book, rs: seq<Request>)
    ensures forall c :: c in Build(b, rs).cards ==> ClaimHolds(b, c)
  {
    hide Propose, Booked, ClaimHolds;
    if rs != [] {
      var d, last := Build(b, rs[..|rs| - 1]), rs[|rs| - 1];
      EveryClaimHolds(b, rs[..|rs| - 1]);
      if Propose(b, d.account, last).Some? {
        CardClaimHolds(b, d.account, last);
      }
    }
  }

  // ---------------------------------------------------------------- when a card moves no weight

  /** No class has another weight after the card than before it. */
  ghost predicate MovesNoWeight(b: Book, c: Card)
    requires Invested(b.positions) != 0.0 && MixAfter(b, c.request.cls, c.amount, c.fund.sales).total != 0.0
  {
    forall cls :: WeightIn(MixAfter(b, c.request.cls, c.amount, c.fund.sales), cls) == WeightIn(MixNow(b), cls)
  }

  /** Nothing but this class is held. */
  ghost predicate HoldsOnly(b: Book, cls: AssetClass) {
    forall c :: c != cls ==> ClassValue(b.positions, c) == 0.0
  }

  /** Every sale is of the bought class, and together they fetch exactly what is bought. */
  ghost predicate PureSwap(cls: AssetClass, amount: real, sales: seq<Sale>) {
    (forall s :: s in sales ==> s.position.cls == cls) && Proceeds(sales) == amount
  }

  /** What is sold beyond the purchase comes out of the classes in proportion to what is held of them. */
  ghost predicate Proportional(b: Book, cls: AssetClass, amount: real, sales: seq<Sale>)
    requires Invested(b.positions) != 0.0
  {
    forall c :: ClassSold(sales, c) == Only(cls, c, amount) + Worth(Proceeds(sales) - amount, WeightIn(MixNow(b), c))
  }

  lemma SameWeightIff(v: real, d: real, t: real, dt: real)
    requires t != 0.0 && t + dt != 0.0
    ensures ((v + d) / (t + dt) == v / t) == (d == Worth(dt, v / t))
  {
    var p, q := (v + d) / (t + dt), v / t;
    assert p * (t + dt) == v + d && q * t == v;
    if p == q {
      assert q * (t + dt) == q * t + q * dt;
    }
    if d == q * dt {
      assert q * (t + dt) == v + d;
      CancelsOut(p, q, t + dt);
    }
  }

  lemma CancelsOut(p: real, q: real, t: real)
    requires t != 0.0 && p * t == q * t
    ensures p == q
  {
    assert (p - q) * t == 0.0;
  }

  lemma MovesNothingIffProportional(b: Book, c: Card)
    requires Invested(b.positions) != 0.0 && MixAfter(b, c.request.cls, c.amount, c.fund.sales).total != 0.0
    ensures MovesNoWeight(b, c) == Proportional(b, c.request.cls, c.amount, c.fund.sales)
  {
    hide ClassValue, ClassSold, Invested, Proceeds;
    var cls, amount, sales := c.request.cls, c.amount, c.fund.sales;
    var t, dt := Invested(b.positions), amount - Proceeds(sales);
    forall k
      ensures (WeightIn(MixAfter(b, cls, amount, sales), k) == WeightIn(MixNow(b), k))
          == (ClassSold(sales, k) == Only(cls, k, amount) + Worth(Proceeds(sales) - amount, WeightIn(MixNow(b), k)))
    {
      SameWeightIff(ClassValue(b.positions, k), Only(cls, k, amount) - ClassSold(sales, k), t, dt);
      WorthFlips(dt, WeightIn(MixNow(b), k));
    }
  }

  lemma WorthFlips(x: real, y: real)
    ensures Worth(-x, y) == -Worth(x, y)
  {
  }

  // ---------------------------------------------------------------- no weight moves, by what is held and sold

  /** A book that owes no shares: every holding is worth nothing or more. */
  ghost predicate LongBook(b: Book) { forall p :: p in b.positions ==> ValueIls(p) >= 0.0 }

  ghost predicate StaysInClass(cls: AssetClass, sales: seq<Sale>) {
    forall s :: s in sales ==> s.position.cls == cls
  }

  lemma {:induction false} SoldByClass(sales: seq<Sale>, cls: AssetClass)
    requires forall s :: s in sales ==> s.value > 0.0
    ensures ClassSold(sales, cls) >= 0.0
    ensures (exists s :: s in sales && s.position.cls == cls) ==> ClassSold(sales, cls) > 0.0
    ensures (forall s :: s in sales ==> s.position.cls != cls) ==> ClassSold(sales, cls) == 0.0
    ensures StaysInClass(cls, sales) ==> ClassSold(sales, cls) == Proceeds(sales)
  {
    if sales != [] {
      var n := |sales| - 1;
      assert sales == sales[..n] + [sales[n]] && sales[n] in sales;
      SoldByClass(sales[..n], cls);
    }
  }

  /** Selling one class and fetching what is bought is the same as selling the purchase's worth of that class alone. */
  lemma PureSwapByClass(b: Book, cls: AssetClass, amount: real, sales: seq<Sale>)
    requires Invested(b.positions) != 0.0 && Proceeds(sales) == amount && forall s :: s in sales ==> s.value > 0.0
    ensures Proportional(b, cls, amount, sales) == PureSwap(cls, amount, sales)
  {
    hide ClassSold, Proceeds, WeightIn, Invested;
    forall c
      ensures Worth(Proceeds(sales) - amount, WeightIn(MixNow(b), c)) == 0.0
    {
    }
    forall s | s in sales
      ensures ClassSold(sales, s.position.cls) > 0.0
    {
      SoldByClass(sales, s.position.cls);
    }
    forall c
      ensures StaysInClass(cls, sales) ==> ClassSold(sales, c) == Only(cls, c, Proceeds(sales))
    {
      SoldByClass(sales, c);
    }
  }

  lemma {:induction false} LongClass(ps: seq<Position>, cls: AssetClass)
    requires forall p :: p in ps ==> ValueIls(p) >= 0.0
    ensures ClassValue(ps, cls) >= 0.0
    ensures forall p :: p in ps && p.cls == cls ==> ValueIls(p) <= ClassValue(ps, cls)
  {
    hide ValueIls;
    if ps != [] {
      LongClass(ps[1..], cls);
      assert ps == [ps[0]] + ps[1..] && ps[0] in ps;
    }
  }

  /** In a book of one class nothing else can be sold. */
  lemma OneClassSellsItself(b: Book, cls: AssetClass, sales: seq<Sale>)
    requires LongBook(b) && HoldsOnly(b, cls) && OfTheBook(b, sales)
    ensures StaysInClass(cls, sales)
  {
    hide ValueIls, ClassValue;
    forall s | s in sales
      ensures s.position.cls == cls
    {
      LongClass(b.positions, s.position.cls);
    }
  }

  lemma {:induction false} OnlyClassIsAll(ps: seq<Position>, cls: AssetClass, cs: seq<AssetClass>)
    requires NoDup(cs) && forall c :: c in cs && c != cls ==> ClassValue(ps, c) == 0.0
    ensures SumHeld(ps, cs) == if cls in cs then ClassValue(ps, cls) else 0.0
  {
    hide ClassValue;
    if cs != [] {
      assert NoDup(cs[1..]) && cs[0] !in cs[1..];
      OnlyClassIsAll(ps, cls, cs[1..]);
    }
  }

  lemma OnlyClassIsInvested(b: Book, cls: AssetClass)
    requires HoldsOnly(b, cls)
    ensures ClassValue(b.positions, cls) == Invested(b.positions)
  {
    hide ClassValue, MixClasses, Invested;
    MixClassesCover(b, cls);
    HeldIsInvested(b.positions, MixClasses(b, cls));
    OnlyClassIsAll(b.positions, cls, MixClasses(b, cls));
  }

  lemma ScalesToNothing(x: real, v: real, t: real)
    requires t != 0.0 && x != 0.0
    ensures (Worth(x, v / t) == 0.0) == (v == 0.0)
  {
    assert v / t * t == v;
  }

  /** A card that sells nothing outside the bought class moves no weight exactly when the book holds nothing else, or
      the sales fetch what is bought to the shekel. */
  lemma WithinClassMovesNothingIff(b: Book, c: Card)
    requires Invested(b.positions) != 0.0 && MixAfter(b, c.request.cls, c.amount, c.fund.sales).total != 0.0
    requires StaysInClass(c.request.cls, c.fund.sales) && forall s :: s in c.fund.sales ==> s.value > 0.0
    ensures MovesNoWeight(b, c) == (HoldsOnly(b, c.request.cls) || Proceeds(c.fund.sales) == c.amount)
  {
    hide ClassValue, ClassSold, Invested, Proceeds, MovesNoWeight;
    var cls, sales := c.request.cls, c.fund.sales;
    var t, excess := Invested(b.positions), Proceeds(sales) - c.amount;
    MovesNothingIffProportional(b, c);
    PureSwapByClassWhenEqual(b, c);
    if excess != 0.0 {
      forall k
        ensures ClassSold(sales, k) == Only(cls, k, Proceeds(sales))
        ensures k != cls ==> (Worth(excess, WeightIn(MixNow(b), k)) == 0.0) == (ClassValue(b.positions, k) == 0.0)
      {
        SoldByClass(sales, k);
        ScalesToNothing(excess, ClassValue(b.positions, k), t);
      }
      if HoldsOnly(b, cls) {
        OnlyClassIsInvested(b, cls);
        WholeWeight(excess, t);
        assert Proportional(b, cls, c.amount, sales);
      }
    }
  }

  lemma PureSwapByClassWhenEqual(b: Book, c: Card)
    requires Invested(b.positions) != 0.0 && forall s :: s in c.fund.sales ==> s.value > 0.0
    ensures Proceeds(c.fund.sales) == c.amount
        ==> Proportional(b, c.request.cls, c.amount, c.fund.sales) == PureSwap(c.request.cls, c.amount, c.fund.sales)
  {
    hide Proceeds, Proportional, PureSwap, Invested;
    if Proceeds(c.fund.sales) == c.amount {
      PureSwapByClass(b, c.request.cls, c.amount, c.fund.sales);
    }
  }

  lemma WholeWeight(x: real, t: real)
    requires t != 0.0
    ensures Worth(x, t / t) == x
  {
    assert t / t == 1.0;
  }

  /** A card in a book without short holdings moves no weight in three cases only: nothing but the bought class is
      held; or it sells that class alone and fetches what it buys to the shekel; or it sells more than it buys, and
      the surplus comes out of every class in proportion to what is held of it. */
  lemma MovesNoWeightIff(b: Book, a: Account, r: Request)
    requires LongBook(b) && Propose(b, a, r).Some?
    ensures Invested(b.positions) > 0.0
    ensures var c := Propose(b, a, r).value;
      && c.request == r && MixAfter(b, r.cls, c.amount, c.fund.sales).total > 0.0
      && (MovesNoWeight(b, c) ==
           (|| HoldsOnly(b, r.cls)
            || PureSwap(r.cls, c.amount, c.fund.sales)
            || (Proceeds(c.fund.sales) > c.amount && Proportional(b, r.cls, c.amount, c.fund.sales))))
  {
    hide Propose, LongBook, HoldsOnly, PureSwap, Proportional, MovesNoWeight, Proceeds, Invested, MixAfter,
         StaysInClass;
    CardKeepsABook(b, a, r);
    CardSellsHoldings(b, a, r);
    var c := Propose(b, a, r).value;
    MovesNothingIffProportional(b, c);
    PureSwapByClassWhenEqual(b, c);
    PureSwapFetches(r.cls, c.amount, c.fund.sales);
    if HoldsOnly(b, r.cls) {
      OneClassSellsItself(b, r.cls, c.fund.sales);
      WithinClassMovesNothingIff(b, c);
    } else if Proceeds(c.fund.sales) < c.amount && Proportional(b, r.cls, c.amount, c.fund.sales) {
      ShortfallNeedsOneClass(b, r.cls, c.amount, c.fund.sales);
    }
  }

  lemma PureSwapFetches(cls: AssetClass, amount: real, sales: seq<Sale>)
    ensures PureSwap(cls, amount, sales) ==> Proceeds(sales) == amount
  {
  }

  /** Cash coming in dilutes every class that is not bought. */
  lemma ShortfallNeedsOneClass(b: Book, cls: AssetClass, amount: real, sales: seq<Sale>)
    requires LongBook(b) && Invested(b.positions) > 0.0 && OfTheBook(b, sales)
    requires Proceeds(sales) < amount && Proportional(b, cls, amount, sales)
    ensures HoldsOnly(b, cls)
  {
    hide ValueIls, ClassValue, ClassSold, Invested, Proceeds;
    forall k | k != cls
      ensures ClassValue(b.positions, k) == 0.0
    {
      LongClass(b.positions, k);
      SoldByClass(sales, k);
      DilutesUnless(amount - Proceeds(sales), ClassValue(b.positions, k), Invested(b.positions));
      WorthFlips(amount - Proceeds(sales), WeightIn(MixNow(b), k));
    }
  }

  lemma DilutesUnless(x: real, v: real, t: real)
    requires x > 0.0 && v >= 0.0 && t > 0.0
    ensures Worth(x, v / t) > 0.0 || v == 0.0
  {
    if v > 0.0 {
      assert v / t > 0.0;
    }
  }

  // ---------------------------------------------------------------- a card paid for from cash

  /** The cash there is above the floor, less what earlier cards took. */
  function CashFree(b: Book, a: Account): real { Max(0.0, Spendable(b) - a.cash) }

  /** The cash there is pays for all of what the plan wants, or leaves less than a trade to find. */
  predicate CashCovers(b: Book, a: Account, r: Request)
    requires Invested(b.positions) != 0.0 && Wanted(b, r).Some?
  {
    Wanted(b, r).value - CashFree(b, a) < MIN_TRADE
  }

  /** Such a card buys what the cash pays for, and sells nothing. */
  lemma CashCardSellsNothing(b: Book, a: Account, r: Request)
    requires Propose(b, a, r).Some?
    ensures Invested(b.positions) != 0.0 && Wanted(b, r).Some?
    ensures CashCovers(b, a, r) ==>
      var c := Propose(b, a, r).value; c.fund.sales == [] && c.amount == Min(CashFree(b, a), Wanted(b, r).value)
  {
    hide Wanted, Spendable, AdvanceAll, Candidates, InitialBudget, BookHasBudget, Label, Invested;
  }

  /** A card the cash pays for moves no weight exactly when the book holds nothing but the class it buys. */
  lemma CashSwapMovesNoWeightIff(b: Book, a: Account, r: Request)
    requires Propose(b, a, r).Some?
    ensures Invested(b.positions) > 0.0 && Wanted(b, r).Some?
    ensures var c := Propose(b, a, r).value;
      && c.request == r && MixAfter(b, r.cls, c.amount, c.fund.sales).total > 0.0
      && (CashCovers(b, a, r) ==> MovesNoWeight(b, c) == HoldsOnly(b, r.cls))
  {
    hide Propose, Wanted, CashCovers, MovesNoWeight, HoldsOnly, Invested, MixAfter;
    CardKeepsABook(b, a, r);
    CashCardSellsNothing(b, a, r);
    if CashCovers(b, a, r) {
      WithinClassMovesNothingIff(b, Propose(b, a, r).value);
    }
  }

  // ---------------------------------------------------------------- when a card does not raise drift

  function OthersOver(b: Book, m: Mix, cls: AssetClass, cs: seq<AssetClass>): real
    requires m.total != 0.0
  {
    if cs == [] then 0.0 else (if cs[0] == cls then 0.0 else OverIn(b, m, cs[0])) + OthersOver(b, m, cls, cs[1..])
  }

  function OthersWeight(m: Mix, cls: AssetClass, cs: seq<AssetClass>): real
    requires m.total != 0.0
  {
    if cs == [] then 0.0 else (if cs[0] == cls then 0.0 else WeightIn(m, cs[0])) + OthersWeight(m, cls, cs[1..])
  }

  lemma {:induction false} OneApart(b: Book, m: Mix, cls: AssetClass, cs: seq<AssetClass>)
    requires m.total != 0.0 && NoDup(cs)
    ensures Overweight(b, m, cs) == (if cls in cs then OverIn(b, m, cls) else 0.0) + OthersOver(b, m, cls, cs)
    ensures SumWeights(m, cs) == (if cls in cs then WeightIn(m, cls) else 0.0) + OthersWeight(m, cls, cs)
  {
    hide WeightIn, OverIn;
    if cs != [] {
      assert NoDup(cs[1..]) && cs[0] !in cs[1..];
      OneApart(b, m, cls, cs[1..]);
    }
  }

  /** Every class but one weighs less in the second mix than in the first, or the same. */
  ghost predicate Diluted(m: Mix, n: Mix, cls: AssetClass, cs: seq<AssetClass>)
    requires m.total != 0.0 && n.total != 0.0
  {
    forall c :: c in cs && c != cls ==> WeightIn(n, c) <= WeightIn(m, c)
  }

  /** All that the other classes lose in weight comes off what they were over. */
  ghost predicate StaysOver(b: Book, m: Mix, n: Mix, cls: AssetClass, cs: seq<AssetClass>)
    requires m.total != 0.0 && n.total != 0.0
  {
    forall c :: c in cs && c != cls ==> WeightIn(n, c) == WeightIn(m, c) || WeightIn(n, c) >= AimFor(b.aims, c)
  }

  /** Nothing that the other classes lose in weight comes off what they were over. */
  ghost predicate WasUnder(b: Book, m: Mix, n: Mix, cls: AssetClass, cs: seq<AssetClass>)
    requires m.total != 0.0 && n.total != 0.0
  {
    forall c :: c in cs && c != cls ==> WeightIn(n, c) == WeightIn(m, c) || WeightIn(m, c) <= AimFor(b.aims, c)
  }

  lemma {:induction false} DilutionShedsAtMost(b: Book, m: Mix, n: Mix, cls: AssetClass, cs: seq<AssetClass>)
    requires m.total != 0.0 && n.total != 0.0 && Diluted(m, n, cls, cs)
    ensures 0.0 <= OthersOver(b, m, cls, cs) - OthersOver(b, n, cls, cs)
                <= OthersWeight(m, cls, cs) - OthersWeight(n, cls, cs)
    ensures (OthersOver(b, m, cls, cs) - OthersOver(b, n, cls, cs)
             == OthersWeight(m, cls, cs) - OthersWeight(n, cls, cs))
         == StaysOver(b, m, n, cls, cs)
    ensures (OthersOver(b, m, cls, cs) == OthersOver(b, n, cls, cs)) == WasUnder(b, m, n, cls, cs)
  {
    hide WeightIn, AimFor;
    if cs != [] {
      assert cs == [cs[0]] + cs[1..];
      assert Diluted(m, n, cls, cs[1..]);
      DilutionShedsAtMost(b, m, n, cls, cs[1..]);
    }
  }

  /** The class bought is the one the others give way to.  Kept at or under its target, it takes the book no further
      from the plan; at or over it from the start, it takes the book further unless every class
      it dilutes stays over. */
  lemma DilutionKeepsDriftIff(b: Book, c: Card)
    requires Invested(b.positions) != 0.0 && MixAfter(b, c.request.cls, c.amount, c.fund.sales).total != 0.0
    requires forall s :: s in c.fund.sales ==> s.position in b.positions
    requires Diluted(MixNow(b), MixAfter(b, c.request.cls, c.amount, c.fund.sales), c.request.cls,
                     MixClasses(b, c.request.cls))
    ensures var cls, aim := c.request.cls, AimFor(b.aims, c.request.cls);
      var now, after := MixNow(b), MixAfter(b, cls, c.amount, c.fund.sales);
      && (WeightIn(after, cls) <= aim ==> DriftAdded(b, c) <= 0.0)
      && (WeightIn(now, cls) >= aim ==> (DriftAdded(b, c) <= 0.0) == StaysOver(b, now, after, cls, MixClasses(b, cls)))
      && (WeightIn(now, cls) >= aim && WasUnder(b, now, after, cls, MixClasses(b, cls))
          ==> DriftAdded(b, c) == 2.0 * (WeightIn(after, cls) - WeightIn(now, cls)))
  {
    hide WeightIn, AimFor, MixClasses, Drift, Overweight, SumWeights, OthersOver, OthersWeight, Diluted, StaysOver,
         WasUnder, Invested, MixAfter, MixNow;
    var cls, cs := c.request.cls, MixClasses(b, c.request.cls);
    var now, after := MixNow(b), MixAfter(b, cls, c.amount, c.fund.sales);
    MixTotal(b);
    MixClassesCover(b, cls);
    WeightsAddUp(b, cls, c.amount, c.fund.sales);
    DriftSplits(b, now, cs);
    DriftSplits(b, after, cs);
    OneApart(b, now, cls, cs);
    OneApart(b, after, cls, cs);
    DilutionShedsAtMost(b, now, after, cls, cs);
  }

  lemma MixTotal(b: Book)
    ensures MixNow(b).total == Invested(b.positions)
  {
  }

  /** The other way round: the class bought is the one that gives way, which it does when tax takes the difference. */
  lemma ConcentrationKeepsDriftIff(b: Book, c: Card)
    requires Invested(b.positions) != 0.0 && MixAfter(b, c.request.cls, c.amount, c.fund.sales).total != 0.0
    requires forall s :: s in c.fund.sales ==> s.position in b.positions
    requires Diluted(MixAfter(b, c.request.cls, c.amount, c.fund.sales), MixNow(b), c.request.cls,
                     MixClasses(b, c.request.cls))
    ensures var cls, aim := c.request.cls, AimFor(b.aims, c.request.cls);
      var now, after := MixNow(b), MixAfter(b, cls, c.amount, c.fund.sales);
      && (WeightIn(after, cls) >= aim ==> DriftAdded(b, c) <= 0.0)
      && (WeightIn(now, cls) <= aim ==> (DriftAdded(b, c) <= 0.0) == WasUnder(b, after, now, cls, MixClasses(b, cls)))
  {
    hide WeightIn, AimFor, MixClasses, Drift, Overweight, SumWeights, OthersOver, OthersWeight, Diluted, StaysOver,
         WasUnder, Invested, MixAfter, MixNow;
    var cls, cs := c.request.cls, MixClasses(b, c.request.cls);
    var now, after := MixNow(b), MixAfter(b, cls, c.amount, c.fund.sales);
    MixTotal(b);
    MixClassesCover(b, cls);
    WeightsAddUp(b, cls, c.amount, c.fund.sales);
    DriftSplits(b, now, cs);
    DriftSplits(b, after, cs);
    OneApart(b, now, cls, cs);
    OneApart(b, after, cls, cs);
    DilutionShedsAtMost(b, after, now, cls, cs);
  }

  /** Every other class that is held is at its target in this mix, or over it. */
  ghost predicate OthersAtOrOver(b: Book, m: Mix, cls: AssetClass)
    requires m.total != 0.0
  {
    forall k :: k != cls && ClassValue(b.positions, k) != 0.0 ==> WeightIn(m, k) >= AimFor(b.aims, k)
  }

  /** Every other class that is held is at its target in this mix, or under it. */
  ghost predicate OthersAtOrUnder(b: Book, m: Mix, cls: AssetClass)
    requires m.total != 0.0
  {
    forall k :: k != cls && ClassValue(b.positions, k) != 0.0 ==> WeightIn(m, k) <= AimFor(b.aims, k)
  }

  lemma {:induction false} OutsideIsUnheld(ps: seq<Position>, k: AssetClass)
    requires forall p :: p in ps ==> p.cls != k
    ensures ClassValue(ps, k) == 0.0
  {
    if ps != [] {
      assert ps[0] in ps;
      OutsideIsUnheld(ps[1..], k);
    }
  }

  lemma QuotientShrinks(v: real, t: real, u: real)
    requires v >= 0.0 && 0.0 < t < u
    ensures v / u <= v / t && (v / u == v / t) == (v == 0.0)
  {
    var p, q := v / u, v / t;
    assert p * u == v && q * t == v && q >= 0.0;
    assert q * (u - t) >= 0.0 && (q > 0.0 ==> q * (u - t) > 0.0);
    assert (p - q) * u == -(q * (u - t));
  }

  /** What each class that is not bought does, when nothing outside the bought class is sold. */
  lemma OtherWeightsFollowTheTotal(b: Book, c: Card, k: AssetClass)
    requires LongBook(b) && Invested(b.positions) > 0.0 && k != c.request.cls
    requires MixAfter(b, c.request.cls, c.amount, c.fund.sales).total > 0.0
    requires StaysInClass(c.request.cls, c.fund.sales) && forall s :: s in c.fund.sales ==> s.value > 0.0
    ensures var v, w := ClassValue(b.positions, k), WeightIn(MixNow(b), k);
      var after := WeightIn(MixAfter(b, c.request.cls, c.amount, c.fund.sales), k);
      && (c.amount >= Proceeds(c.fund.sales) ==> after <= w)
      && (c.amount <= Proceeds(c.fund.sales) ==> after >= w)
      && (c.amount != Proceeds(c.fund.sales) ==> (after == w) == (v == 0.0))
  {
    hide ValueIls, ClassValue, ClassSold, Invested, Proceeds;
    var t, u := Invested(b.positions), Invested(b.positions) + c.amount - Proceeds(c.fund.sales);
    LongClass(b.positions, k);
    SoldByClass(c.fund.sales, k);
    if t < u {
      QuotientShrinks(ClassValue(b.positions, k), t, u);
    } else if u < t {
      QuotientShrinks(ClassValue(b.positions, k), u, t);
    }
  }

  lemma OtherClassesFollowTheTotal(b: Book, c: Card)
    requires LongBook(b) && Invested(b.positions) > 0.0
    requires MixAfter(b, c.request.cls, c.amount, c.fund.sales).total > 0.0
    requires StaysInClass(c.request.cls, c.fund.sales) && forall s :: s in c.fund.sales ==> s.value > 0.0
    ensures var cls, cs := c.request.cls, MixClasses(b, c.request.cls);
      var now, after := MixNow(b), MixAfter(b, cls, c.amount, c.fund.sales);
      && (c.amount >= Proceeds(c.fund.sales) ==> Diluted(now, after, cls, cs))
      && (c.amount <= Proceeds(c.fund.sales) ==> Diluted(after, now, cls, cs))
      && (c.amount != Proceeds(c.fund.sales) ==> StaysOver(b, now, after, cls, cs) == OthersAtOrOver(b, after, cls))
      && (c.amount != Proceeds(c.fund.sales) ==> WasUnder(b, after, now, cls, cs) == OthersAtOrUnder(b, after, cls))
      && (c.amount != Proceeds(c.fund.sales) ==> WasUnder(b, now, after, cls, cs) == OthersAtOrUnder(b, now, cls))
  {
    hide LongBook, ClassValue, Invested, Proceeds, WeightIn, MixAfter, MixClasses, AimFor, StaysInClass;
    var cls := c.request.cls;
    MixTotal(b);
    MixClassesCover(b, cls);
    forall k | k != cls
      ensures var v, w := ClassValue(b.positions, k), WeightIn(MixNow(b), k);
        var after := WeightIn(MixAfter(b, cls, c.amount, c.fund.sales), k);
        && (c.amount >= Proceeds(c.fund.sales) ==> after <= w)
        && (c.amount <= Proceeds(c.fund.sales) ==> after >= w)
        && (c.amount != Proceeds(c.fund.sales) ==> (after == w) == (v == 0.0))
    {
      OtherWeightsFollowTheTotal(b, c, k);
    }
    forall k | k !in MixClasses(b, cls)
      ensures ClassValue(b.positions, k) == 0.0
    {
      OutsideIsUnheld(b.positions, k);
    }
  }

  /** When a card paid for from cash and from the class it buys raises drift: exactly when the classes end together
      further over their targets.  Never, if the sales fetch what is bought.  If cash comes in, never while the class
      ends at or under its target; from at or over it, unless every other class that is held still ends at or over its
      own.  If tax goes out, never while the class ends at or over its target; from at or under it, unless every other
      class that is held still ends at or under its own. */
  lemma SwapKeepsDriftIff(b: Book, a: Account, r: Request)
    requires LongBook(b) && Propose(b, a, r).Some? && StaysInClass(r.cls, Propose(b, a, r).value.fund.sales)
    ensures Invested(b.positions) > 0.0
    ensures var c, aim := Propose(b, a, r).value, AimFor(b.aims, r.cls);
      var now, after, sold := MixNow(b), MixAfter(b, r.cls, c.amount, c.fund.sales), Proceeds(c.fund.sales);
      && c.request == r && after.total > 0.0
      && (var cs := MixClasses(b, r.cls);
          (DriftAdded(b, c) <= 0.0) == (Overweight(b, after, cs) <= Overweight(b, now, cs)))
      && (c.amount == sold ==> DriftAdded(b, c) == 0.0)
      && (c.amount > sold && WeightIn(after, r.cls) <= aim ==> DriftAdded(b, c) <= 0.0)
      && (c.amount > sold && WeightIn(now, r.cls) >= aim ==>
          (DriftAdded(b, c) <= 0.0) == OthersAtOrOver(b, after, r.cls))
      && (c.amount > sold && WeightIn(now, r.cls) >= aim && OthersAtOrUnder(b, now, r.cls)
          ==> DriftAdded(b, c) == 2.0 * (WeightIn(after, r.cls) - WeightIn(now, r.cls)))
      && (c.amount < sold && WeightIn(after, r.cls) >= aim ==> DriftAdded(b, c) <= 0.0)
      && (c.amount < sold && WeightIn(now, r.cls) <= aim ==>
          (DriftAdded(b, c) <= 0.0) == OthersAtOrUnder(b, after, r.cls))
  {
    hide Overweight, Propose, LongBook, Invested, Proceeds, WeightIn, MixAfter, MixClasses, AimFor, StaysInClass,
         Diluted, StaysOver, WasUnder, OthersAtOrOver, OthersAtOrUnder, DriftAdded;
    CardKeepsABook(b, a, r);
    CardSellsHoldings(b, a, r);
    DriftIsOverweightTwice(b, a, r);
    var c := Propose(b, a, r).value;
    MixTotal(b);
    OtherClassesFollowTheTotal(b, c);
    if c.amount >= Proceeds(c.fund.sales) {
      DilutionKeepsDriftIff(b, c);
    }
    if c.amount <= Proceeds(c.fund.sales) {
      ConcentrationKeepsDriftIff(b, c);
    }
    if c.amount == Proceeds(c.fund.sales) {
      WithinClassMovesNothingIff(b, c);
      NoWeightNoDrift(b, c);
    }
  }

  lemma NoWeightNoDrift(b: Book, c: Card)
    requires Invested(b.positions) != 0.0 && MixAfter(b, c.request.cls, c.amount, c.fund.sales).total != 0.0
    requires MovesNoWeight(b, c)
    ensures DriftAdded(b, c) == 0.0
  {
    hide WeightIn, AimFor, MixClasses, MixAfter, Invested;
    MixTotal(b);
    SameWeightsSameDrift(b, MixNow(b), MixAfter(b, c.request.cls, c.amount, c.fund.sales),
                         MixClasses(b, c.request.cls));
  }

  lemma {:induction false} SameWeightsSameDrift(b: Book, m: Mix, n: Mix, cs: seq<AssetClass>)
    requires m.total != 0.0 && n.total != 0.0 && forall c :: WeightIn(m, c) == WeightIn(n, c)
    ensures Drift(b, m, cs) == Drift(b, n, cs)
  {
    hide WeightIn, AimFor;
    if cs != [] {
      SameWeightsSameDrift(b, m, n, cs[1..]);
    }
  }

  /** The mix after a card the cash pays for, known before it is built. */
  function CashMix(b: Book, a: Account, r: Request): Mix
    requires Invested(b.positions) != 0.0 && Wanted(b, r).Some?
  {
    MixAfter(b, r.cls, Min(CashFree(b, a), Wanted(b, r).value), [])
  }

  /** The same for a card the cash pays for, in terms of what is known before it is built.  It raises drift exactly when
      the classes would together be further over their targets; bought into a class at or over its target, exactly when
      some other class that is held would end under its own; and when no other class is over its target, by twice what
      the bought class gains. */
  lemma CashSwapKeepsDriftIff(b: Book, a: Account, r: Request)
    requires LongBook(b) && Propose(b, a, r).Some?
    ensures Invested(b.positions) > 0.0 && Wanted(b, r).Some?
    ensures CashCovers(b, a, r) ==>
      var c, aim, now, after := Propose(b, a, r).value, AimFor(b.aims, r.cls), MixNow(b), CashMix(b, a, r);
      && c.request == r && MixAfter(b, r.cls, c.amount, c.fund.sales) == after && after.total > 0.0
      && (var cs := MixClasses(b, r.cls);
          (DriftAdded(b, c) <= 0.0) == (Overweight(b, after, cs) <= Overweight(b, now, cs)))
      && (WeightIn(after, r.cls) <= aim ==> DriftAdded(b, c) <= 0.0)
      && (WeightIn(now, r.cls) >= aim ==> (DriftAdded(b, c) <= 0.0) == OthersAtOrOver(b, after, r.cls))
      && (WeightIn(now, r.cls) >= aim && OthersAtOrUnder(b, now, r.cls)
          ==> DriftAdded(b, c) == 2.0 * (WeightIn(after, r.cls) - WeightIn(now, r.cls)))
  {
    hide Propose, LongBook, Wanted, CashCovers, CashFree, Invested, MixAfter, WeightIn, AimFor, OthersAtOrOver,
         OthersAtOrUnder, DriftAdded, Overweight, MixClasses;
    CardKeepsABook(b, a, r);
    CashCardSellsNothing(b, a, r);
    if CashCovers(b, a, r) {
      DriftIsOverweightTwice(b, a, r);
      SwapKeepsDriftIff(b, a, r);
    }
  }

  // ---------------------------------------------------------------- a labelled swap that raises drift

  function Shares(tk: Ticker, quantity: real, cls: AssetClass): Position { Position(tk, 1.0, 1.0, quantity, 1.0, cls) }

  /** Three holdings against a 60/30/10 plan at moderate risk, ten points over in the first, with cash above the
      floor. */
  function OverInFirst(a: Position, b: Position, c: Position): Book {
    Book([a, b, c], 1100000.0, [Aim(a.cls, 0.6), Aim(b.cls, 0.3), Aim(c.cls, 0.1)], 0.25, 0.25, 100000.0, 0.05)
  }

  /** A Balanced plan, overweight in equities. */
  function TiltedBook(): Book {
    OverInFirst(Shares("EQ", 700000.0, "Equities"), Shares("BND", 200000.0, "Fixed Income"),
                Shares("OIL", 100000.0, "Commodities"))
  }

  function SmallBuyOf(tk: Ticker, cls: AssetClass): Request { Request(tk, cls, Some(1000.0), {}, true) }

  function SmallBuy(): Request { SmallBuyOf("NEW", "Equities") }

  function NoneYet(): Account { Account(map[], 0.0) }

  /** A card labelled a swap, paid from cash alone, that moves weight and takes the book further from its plan. */
  ghost predicate SwapRaisesDrift(b: Book, a: Account, r: Request) {
    && Propose(b, a, r).Some? && Invested(b.positions) > 0.0
    && var c := Propose(b, a, r).value;
       && c.kind == WithinClassSwap && c.fund.sales == []
       && MixAfter(b, c.request.cls, c.amount, c.fund.sales).total > 0.0
       && !MovesNoWeight(b, c) && DriftAdded(b, c) > DRIFT_EPSILON
  }

  /** A swap is let past the drift check because it is said to move no weight, but the label only means that the bought
      class moved by less than half a point.  A thousand shekels of equities for the tilted book is labelled a swap, and
      takes it further from its plan. */
  lemma SwapCanRaiseDrift()
    ensures LongBook(TiltedBook()) && SwapRaisesDrift(TiltedBook(), NoneYet(), SmallBuy())
  {
    hide TiltedBook, SmallBuy, LongBook, SwapRaisesDrift, Tilted, Spread;
    TiltedBookIsSpread();
    SpreadIsTilted(TiltedBook(), "Fixed Income", "Commodities", SmallBuy());
    TiltedSwapRaisesDrift(TiltedBook(), NoneYet(), SmallBuy(), "Fixed Income");
  }

  /** What of the tilted book matters: the class bought is ten points over its target, no other class is over. */
  ghost predicate Tilted(b: Book, a: Account, r: Request, other: AssetClass) {
    && LongBook(b) && Invested(b.positions) == 1000000.0 && b.nav == 1100000.0 && b.cap == 0.25
    && b.cash == 100000.0 && b.floorPct == 0.05 && a == NoneYet()
    && r.requested == Some(1000.0) && r.allowSwap && r.ticker != "" && r.cls != ""
    && TickerWeight(b, b.positions, r.ticker) == 0.0
    && ClassValue(b.positions, r.cls) == 700000.0 && AimFor(b.aims, r.cls) == 0.6
    && other != r.cls && ClassValue(b.positions, other) == 200000.0
    && OthersAtOrUnder(b, MixNow(b), r.cls)
  }

  lemma TiltedSwapRaisesDrift(b: Book, a: Account, r: Request, other: AssetClass)
    requires Tilted(b, a, r, other)
    ensures SwapRaisesDrift(b, a, r)
  {
    hide LongBook, Invested, ClassValue, AimFor, MovesNoWeight, DriftAdded, HoldsOnly, OthersAtOrUnder, OthersAtOrOver,
         Propose, Tilted, MixAfter, WeightIn, Wanted, CashCovers, CashMix;
    TiltedCard(b, a, r, other);
    TiltedHoldsOther(b, a, r, other);
    TiltedMoves(b, a, r, other);
    CashSwapMovesNoWeightIff(b, a, r);
    CashSwapKeepsDriftIff(b, a, r);
  }

  lemma TiltedHoldsOther(b: Book, a: Account, r: Request, other: AssetClass)
    requires Tilted(b, a, r, other)
    ensures LongBook(b) && !HoldsOnly(b, r.cls) && OthersAtOrUnder(b, MixNow(b), r.cls)
  {
    hide LongBook, Invested, ClassValue, AimFor, OthersAtOrUnder, MixNow;
  }

  lemma TiltedAsks(b: Book, a: Account, r: Request, other: AssetClass)
    requires Tilted(b, a, r, other)
    ensures Invested(b.positions) == 1000000.0 && Wanted(b, r) == Some(1000.0) && CashFree(b, a) == 45000.0
  {
    hide LongBook, Invested, ClassValue, AimFor, OthersAtOrUnder, TickerWeight;
    assert ClassGap(b, r.cls) == 0.0;
    assert RoomFor(b, r.ticker) == 275000.0;
    assert CashFloor(b) == 55000.0;
  }

  lemma TiltedMoves(b: Book, a: Account, r: Request, other: AssetClass)
    requires Tilted(b, a, r, other)
    ensures Invested(b.positions) == 1000000.0 && Wanted(b, r).Some? && CashCovers(b, a, r)
    ensures var now, after := MixNow(b), CashMix(b, a, r);
      && now.total == 1000000.0 && after.total == 1001000.0
      && WeightIn(now, r.cls) == 0.7 && AimFor(b.aims, r.cls) == 0.6
      && WeightIn(after, r.cls) > 0.7 + DRIFT_EPSILON
  {
    hide LongBook, Invested, ClassValue, AimFor, OthersAtOrUnder, TickerWeight, Wanted, CashFree;
    TiltedAsks(b, a, r, other);
  }

  lemma TiltedCard(b: Book, a: Account, r: Request, other: AssetClass)
    requires Tilted(b, a, r, other)
    ensures Propose(b, a, r).Some? && Propose(b, a, r).value.kind == WithinClassSwap
    ensures Propose(b, a, r).value.fund.sales == []
  {
    hide LongBook, Invested, ClassValue, AimFor, OthersAtOrUnder, TickerWeight, Wanted, AdvanceAll, Drift, Spendable,
         MixClasses;
    TiltedAsks(b, a, r, other);
    TiltedLabel(b, a, r, other);
  }

  lemma TiltedLabel(b: Book, a: Account, r: Request, other: AssetClass)
    requires Tilted(b, a, r, other)
    ensures Invested(b.positions) == 1000000.0 && Label(b, r, 1000.0, []) == Some(WithinClassSwap)
  {
    hide LongBook, Invested, ClassValue, AimFor, OthersAtOrUnder, TickerWeight, Drift, MixClasses;
    var after := MixAfter(b, r.cls, 1000.0, []);
    assert after.total == 1001000.0 && after.value(r.cls) == 701000.0;
  }

  lemma ThreeHoldings(b: Book, ps: seq<Position>, tk: Ticker, k: AssetClass)
    requires |ps| == 3
    ensures Invested(ps) == ValueIls(ps[0]) + ValueIls(ps[1]) + ValueIls(ps[2])
    ensures ClassValue(ps, k) == Only(ps[0].cls, k, ValueIls(ps[0])) + Only(ps[1].cls, k, ValueIls(ps[1]))
                                 + Only(ps[2].cls, k, ValueIls(ps[2]))
    ensures tk != ps[0].ticker && tk != ps[1].ticker && tk != ps[2].ticker ==> TickerWeight(b, ps, tk) == 0.0
  {
    hide ValueIls, ShareOf;
    var two, one := ps[1..], ps[1..][1..];
    assert two[0] == ps[1] && one[0] == ps[2] && one[1..] == [];
    assert Invested(one) == ValueIls(one[0]) + Invested(one[1..]);
    assert ClassValue(one, k) == Only(one[0].cls, k, ValueIls(one[0])) + ClassValue(one[1..], k);
    assert tk != ps[2].ticker ==> TickerWeight(b, one, tk) == TickerWeight(b, one[1..], tk);
  }

  lemma ThreeAims(aims: seq<Aim>, k: AssetClass)
    requires |aims| == 3
    ensures AimFor(aims, k) == if k == aims[0].cls then aims[0].weight else if k == aims[1].cls then aims[1].weight
                               else if k == aims[2].cls then aims[2].weight else 0.0
  {
    var two, one := aims[1..], aims[1..][1..];
    assert two[0] == aims[1] && one[0] == aims[2] && one[1..] == [];
    assert AimFor(one, k) == if k == one[0].cls then one[0].weight else AimFor(one[1..], k);
  }

  /** Three classes of one holding each, in the order of their targets: the first over its own, the others not. */
  ghost predicate Spread(b: Book, other: AssetClass, third: AssetClass, r: Request) {
    && |b.positions| == 3 && |b.aims| == 3 && r.cls != other && r.cls != third && other != third
    && b.positions[0].cls == b.aims[0].cls == r.cls && b.aims[0].weight == 0.6
    && b.positions[1].cls == b.aims[1].cls == other && b.aims[1].weight == 0.3
    && b.positions[2].cls == b.aims[2].cls == third && b.aims[2].weight == 0.1
    && ValueIls(b.positions[0]) == 700000.0 && ValueIls(b.positions[1]) == 200000.0 &&
         ValueIls(b.positions[2]) == 100000.0
    && (forall p :: p in b.positions ==> p.ticker != r.ticker)
    && b.nav == 1100000.0 && b.cap == 0.25 && b.cash == 100000.0 && b.floorPct == 0.05
    && r.requested == Some(1000.0) && r.allowSwap && r.ticker != "" && r.cls != ""
  }

  lemma SpreadIsTilted(b: Book, other: AssetClass, third: AssetClass, r: Request)
    requires Spread(b, other, third, r)
    ensures LongBook(b) && Tilted(b, NoneYet(), r, other)
  {
    hide ValueIls, Invested, ClassValue, AimFor, TickerWeight;
    var ps := b.positions;
    assert forall p :: p in ps ==> p == ps[0] || p == ps[1] || p == ps[2];
    assert ps[0] in ps && ps[1] in ps && ps[2] in ps;
    ThreeHoldings(b, ps, r.ticker, r.cls);
    ThreeHoldings(b, ps, r.ticker, other);
    ThreeAims(b.aims, r.cls);
    forall k | k != r.cls && ClassValue(ps, k) != 0.0
      ensures WeightIn(MixNow(b), k) <= AimFor(b.aims, k)
    {
      ThreeHoldings(b, ps, r.ticker, k);
      ThreeAims(b.aims, k);
    }
  }

  lemma OverInFirstIsSpread(a: Position, b: Position, c: Position, tk: Ticker)
    requires ValueIls(a) == 700000.0 && ValueIls(b) == 200000.0 && ValueIls(c) == 100000.0
    requires a.cls != b.cls && a.cls != c.cls && b.cls != c.cls && a.cls != "" && tk != ""
    requires tk != a.ticker && tk != b.ticker && tk != c.ticker
    ensures Spread(OverInFirst(a, b, c), b.cls, c.cls, SmallBuyOf(tk, a.cls))
  {
    hide ValueIls;
  }

  lemma WorthOneEach(tk: Ticker, quantity: real, cls: AssetClass)
    ensures ValueIls(Shares(tk, quantity, cls)) == quantity
  {
  }

  lemma TiltedBookIsSpread()
    ensures Spread(TiltedBook(), "Fixed Income", "Commodities", SmallBuy())
  {
    hide ValueIls, OverInFirst, Spread, SmallBuyOf;
    assert "Equities"[0] != "Fixed Income"[0] && "Equities"[0] != "Commodities"[0];
    assert "Fixed Income"[0] != "Commodities"[0];
    assert "NEW"[0] != "EQ"[0] && "NEW"[0] != "BND"[0] && "NEW"[0] != "OIL"[0];
    WorthOneEach("EQ", 700000.0, "Equities");
    WorthOneEach("BND", 200000.0, "Fixed Income");
    WorthOneEach("OIL", 100000.0, "Commodities");
    OverInFirstIsSpread(Shares("EQ", 700000.0, "Equities"), Shares("BND", 200000.0, "Fixed Income"),
                        Shares("OIL", 100000.0, "Commodities"), "NEW");
  }
}
