/** Which holdings a purchase is funded from, and in which order, in money and in prices; and that cash goes first. */
module WorstFit {
  import opened Basics
  import opened Sizing
  import opened Funding
  import opened FundedBuy

  // ---------------------------------------------------------------- fit, in money

  /** What a holding is worth past its cap. */
  function PastCap(b: Book, p: Position): real { Max(0.0, ValueIls(p) - b.cap * b.nav) }

  /** What a class is worth past its target. */
  function PastAim(b: Book, cls: AssetClass): real {
    Max(0.0, ClassValue(b.positions, cls) - AimFor(b.aims, cls) * b.nav)
  }

  lemma {:induction false} WeightInMoney(b: Book, ps: seq<Position>, cls: AssetClass)
    requires b.nav != 0.0
    ensures ClassWeight(b, ps, cls) * b.nav == ClassValue(ps, cls)
  {
    hide ValueIls;
    if ps != [] {
      WeightInMoney(b, ps[1..], cls);
      ShareInMoney(b, ps[0]);
      SumInMoney(if ps[0].cls == cls then ShareOf(b, ps[0]) else 0.0, ClassWeight(b, ps[1..], cls), b.nav);
    }
  }

  lemma ShareInMoney(b: Book, p: Position)
    requires b.nav != 0.0
    ensures ShareOf(b, p) * b.nav == ValueIls(p)
  {
    hide ValueIls;
  }

  lemma SumInMoney(x: real, y: real, nav: real)
    ensures (x + y) * nav == x * nav + y * nav
    ensures (x - y) * nav == x * nav - y * nav
    ensures nav > 0.0 ==> Max(0.0, x - y) * nav == Max(0.0, x * nav - y * nav)
  {
    if nav > 0.0 && x > y {
      assert (x - y) * nav > 0.0;
    } else if nav > 0.0 {
      assert (y - x) * nav >= 0.0;
    }
  }

  /** What may be sold of an overweight, in money. */
  lemma ExcessInMoney(b: Book, p: Position)
    requires b.nav > 0.0
    ensures OverCap(b, p) == PastCap(b, p) && ClassOver(b, p.cls) * b.nav == PastAim(b, p.cls)
  {
    ShareInMoney(b, p);
    WeightInMoney(b, b.positions, p.cls);
    SumInMoney(ShareOf(b, p), b.cap, b.nav);
    SumInMoney(ClassWeight(b, b.positions, p.cls), AimFor(b.aims, p.cls), b.nav);
    hide ShareOf, ClassWeight, ClassValue, AimFor, ValueIls;
  }

  // ---------------------------------------------------------------- tax, in prices

  /** How much of a doubling is still to come: all of it at a loss, or at no known cost, none from twice the cost up. */
  ghost predicate IsRelief(p: Position, relief: real) {
    && 0.0 <= relief <= 1.0
    && (p.costBasis == 0.0 || p.price <= p.costBasis ==> relief == 1.0)
    && (0.0 < p.costBasis && 2.0 * p.costBasis <= p.price ==> relief == 0.0)
    && (0.0 < p.costBasis <= p.price <= 2.0 * p.costBasis ==> relief * p.costBasis == 2.0 * p.costBasis - p.price)
  }

  lemma ReliefIs(p: Position)
    requires p.costBasis >= 0.0
    ensures IsRelief(p, TaxFriendliness(GainPct(p)))
  {
    if p.costBasis > 0.0 {
      var gain := GainPct(p);
      GainIs(p, gain);
      PartIs(p, gain);
    }
  }

  lemma GainIs(p: Position, gain: real)
    requires p.costBasis > 0.0 && gain == GainPct(p)
    ensures gain * p.costBasis == (p.price - p.costBasis) * 100.0
    ensures gain < 0.0 <==> p.price < p.costBasis
    ensures gain <= 100.0 <==> p.price <= 2.0 * p.costBasis
    ensures gain >= 100.0 <==> p.price >= 2.0 * p.costBasis
    ensures p.price == p.costBasis ==> gain == 0.0
  {
    var q := (p.price - p.costBasis) / p.costBasis;
    assert q * p.costBasis == p.price - p.costBasis;
    SignOf(q, p.costBasis);
    SignOf(q - 1.0, p.costBasis);
  }

  lemma SignOf(x: real, y: real)
    requires y > 0.0
    ensures x > 0.0 <==> x * y > 0.0
    ensures x < 0.0 <==> x * y < 0.0
  {
  }

  lemma PartIs(p: Position, gain: real)
    requires p.costBasis > 0.0 && gain * p.costBasis == (p.price - p.costBasis) * 100.0
    ensures (1.0 - gain / 100.0) * p.costBasis == 2.0 * p.costBasis - p.price
  {
  }

  // ---------------------------------------------------------------- the order

  /** How badly a holding fits, in money: four times its own excess, and its class's. */
  function Misfit(b: Book, p: Position): real { 4.0 * PastCap(b, p) + PastAim(b, p.cls) }

  /** The score is the misfit as a percentage of the book, and up to ten points of relief. */
  lemma ScoreIsMisfit(b: Book, p: Position)
    requires b.nav > 0.0
    ensures Worth(Score(b, p), b.nav) == 100.0 * Misfit(b, p) + 10.0 * Worth(TaxFriendliness(GainPct(p)), b.nav)
  {
    ExcessInMoney(b, p);
    hide PastCap, PastAim, ClassOver, TaxFriendliness, GainPct;
  }

  lemma PointsOrder(x: real, y: real, nav: real)
    requires nav > 0.0
    ensures x >= y <==> Worth(x, nav) >= Worth(y, nav)
    ensures Worth(0.0, nav) == 0.0
  {
    if x > y {
      MoreIsWorthMore(x, y, nav);
    } else if x < y {
      MoreIsWorthMore(y, x, nav);
    }
  }

  /** The worst fit is sold first. A holding sold after another fits no worse than it by more than a tenth of the
      book, the most that tax can weigh; and of two that fit alike the one with less relief is never first. */
  lemma WorstFitIsFirst(b: Book, exclude: set<Ticker>, i: nat, j: nat)
    requires Honest(b) && b.nav > 0.0 && i < j < |Candidates(b, exclude)|
    ensures var p, q := Candidates(b, exclude)[i], Candidates(b, exclude)[j];
      && Misfit(b, q) <= Misfit(b, p) + b.nav / 10.0
      && (Misfit(b, p) == Misfit(b, q) ==> forall r, s :: IsRelief(p, r) && IsRelief(q, s) ==> r >= s)
  {
    var p, q := Candidates(b, exclude)[i], Candidates(b, exclude)[j];
    CandidatesAreHoldings(b, exclude);
    assert p in Candidates(b, exclude) && q in Candidates(b, exclude);
    CostsAreNotNegative(b, p);
    CostsAreNotNegative(b, q);
    hide Candidates, Honest, Misfit, TaxFriendliness, GainPct, Score, Trimmable, IsRelief, Worth;
    ScoreIsMisfit(b, p);
    ScoreIsMisfit(b, q);
    ReliefIs(p);
    ReliefIs(q);
    var r, s := TaxFriendliness(GainPct(p)), TaxFriendliness(GainPct(q));
    ReliefBound(p, r, b.nav);
    ReliefBound(q, s, b.nav);
    PointsOrder(Score(b, p), Score(b, q), b.nav);
    PointsOrder(r, s, b.nav);
    forall r', s' | IsRelief(p, r') && IsRelief(q, s')
      ensures r' == r && s' == s
    {
      OneRelief(p, r, r');
      OneRelief(q, s, s');
    }
  }

  lemma CostsAreNotNegative(b: Book, p: Position)
    requires Honest(b) && p in b.positions
    ensures p.costBasis >= 0.0
  {
  }

  lemma ReliefBound(p: Position, relief: real, nav: real)
    requires IsRelief(p, relief) && nav > 0.0
    ensures 0.0 <= Worth(relief, nav) <= nav
  {
    assert (1.0 - relief) * nav >= 0.0;
  }

  lemma OneRelief(p: Position, x: real, y: real)
    requires p.costBasis >= 0.0 && IsRelief(p, x) && IsRelief(p, y)
    ensures x == y
  {
    SignOf(x - y, if p.costBasis > 0.0 then p.costBasis else 1.0);
  }

  /** What may be sold at all: a holding worth a trade, not barred, that is past its cap or its class past its target,
      or has less than doubled. */
  lemma MayBeSoldIff(b: Book, exclude: set<Ticker>, p: Position)
    requires Honest(b) && b.nav > 0.0 && p in b.positions
    ensures p in Candidates(b, exclude) <==>
      && p.ticker !in exclude && ValueIls(p) >= MIN_TRADE
      && (ValueIls(p) > b.cap * b.nav || ClassValue(b.positions, p.cls) > AimFor(b.aims, p.cls) * b.nav
          || p.costBasis == 0.0 || p.price < 2.0 * p.costBasis)
  {
    CandidatesAreHoldings(b, exclude);
    assert p in multiset(b.positions);
    assert p in Candidates(b, exclude) <==> p in multiset(Candidates(b, exclude));
    ScoreIsPositiveIff(b, p);
    hide Candidates, Honest, Score, ClassValue, ValueIls, AimFor;
  }

  lemma ScoreIsPositiveIff(b: Book, p: Position)
    requires Honest(b) && b.nav > 0.0 && p in b.positions
    ensures Score(b, p) > 0.0 <==>
      || ValueIls(p) > b.cap * b.nav || ClassValue(b.positions, p.cls) > AimFor(b.aims, p.cls) * b.nav
      || p.costBasis == 0.0 || p.price < 2.0 * p.costBasis
  {
    hide Honest, TaxFriendliness, GainPct, Score, IsRelief, ClassValue, ValueIls, AimFor, Worth;
    CostsAreNotNegative(b, p);
    var relief := TaxFriendliness(GainPct(p));
    ScoreIsMisfit(b, p);
    ReliefIs(p);
    SomeRelief(p, relief);
    ReliefBound(p, relief, b.nav);
    PointsOrder(0.0, Score(b, p), b.nav);
    PointsOrder(0.0, relief, b.nav);
  }

  lemma SomeRelief(p: Position, relief: real)
    requires p.costBasis >= 0.0 && IsRelief(p, relief)
    ensures relief > 0.0 <==> p.costBasis == 0.0 || p.price < 2.0 * p.costBasis
  {
  }

  // ---------------------------------------------------------------- cash first

  /** A plan draws on cash down to the floor and to what earlier cards drew, and sells nothing before that is used
      up. */
  lemma CashGoesFirst(b: Book, amount: real, exclude: set<Ticker>, reserved: map<Ticker, real>, used: real)
    requires used >= 0.0
    ensures var f := PlanFunding(b, amount, exclude, reserved, used);
      var floor := if b.nav > 0.0 then b.nav * b.floorPct else 0.0;
      && (f.fromCash > 0.0 ==> f.fromCash <= b.cash - floor - used)
      && (f.sales != [] ==> f.fromCash >= b.cash - floor - used && amount - f.fromCash >= MIN_TRADE)
      && (f.fromCash < amount ==> f.fromCash >= b.cash - floor - used)
  {
    hide AdvanceAll, Candidates, BookHasBudget, InitialBudget;
  }
}
