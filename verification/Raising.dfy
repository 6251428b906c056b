/** That funding raises what it can: when a sale is made and how far it goes, and what every candidate has given when a
    plan still comes up short. */
module Raising {
  import opened Basics
  import opened Sizing
  import opened Funding

  // ---------------------------------------------------------------- one sale

  /** What of a holding is not promised elsewhere, in money. */
  function FreeWorth(p: Position, kept: real): real { Worth(p.quantity - kept, PriceIls(p)) }

  /** What must be sold of a holding to net an amount after its tax. */
  function NeedsSold(b: Book, p: Position, amount: real): real
    requires PriceIls(p) > 0.0
  {
    amount / (1.0 - TaxFraction(b, p))
  }

  /** The book's rules let so much of a holding go, and so much of it is free. */
  ghost predicate CanGive(p: Position, kept: real, allow: Option<real>) {
    PriceIls(p) > 0.0 && allow.Some? && p.quantity - kept > 0.0
  }

  lemma FloorIsWhole(take: real, price: real)
    requires price > 0.0
    ensures WholeShares(take, price) >= 1 <==> take >= price
    ensures Worth(WholeShares(take, price) as real, price) > take - price
    ensures Worth(WholeShares(take, price) as real, price) <= take
  {
    var q := take / price;
    assert q * price == take;
    var n := q.Floor as real;
    assert n <= q < n + 1.0;
    OrderWorth(n, q, price);
    OrderWorth(q, n + 1.0, price);
    WorthOfSum(n, 1.0, price);
    if take >= price {
      OrderBack(1.0, q, price);
    } else {
      OrderBack(q, 1.0, price);
    }
  }

  lemma OrderWorth(x: real, y: real, price: real)
    requires price > 0.0
    ensures x <= y ==> Worth(x, price) <= Worth(y, price)
    ensures x < y ==> Worth(x, price) < Worth(y, price)
  {
  }

  lemma OrderBack(x: real, y: real, price: real)
    requires price > 0.0
    ensures Worth(x, price) <= Worth(y, price) ==> x <= y
    ensures Worth(x, price) < Worth(y, price) ==> x < y
  {
  }

  /** A sale is made exactly when the rules let some go, some is free, and the least of what is needed, what may go and
      what is free is worth a trade and worth a share. */
  lemma SaleIsMadeIff(b: Book, p: Position, remaining: real, kept: real, budget: real, has: bool)
    ensures var allow := Allowance(b, p, budget, has);
      SaleFrom(b, p, remaining, kept, budget, has).Some? <==>
        && CanGive(p, kept, allow)
        && (var most := Min(NeedsSold(b, p, remaining), Min(allow.value, FreeWorth(p, kept)));
            most >= MIN_TRADE && most >= PriceIls(p))
  {
    hide TaxFraction, Allowance, PriceIls, TaxPerShare, NetPerShare, Worth, WholeShares, TakesOneMore;
    var allow := Allowance(b, p, budget, has);
    if CanGive(p, kept, allow) {
      FloorIsWhole(Min(NeedsSold(b, p, remaining), Min(allow.value, FreeWorth(p, kept))), PriceIls(p));
    }
  }

  /** What a sale leaves: either less than one of its own shares would net is still to be raised, and nothing if one
      share more was free; or it went to within a share of the lesser of what may go and what is free. */
  lemma SaleGoesFar(b: Book, p: Position, remaining: real, kept: real, budget: real, has: bool)
    requires Honest(b) && p in b.positions && SaleFrom(b, p, remaining, kept, budget, has).Some?
    ensures PriceIls(p) > 0.0 && Allowance(b, p, budget, has).Some?
    ensures var s := SaleFrom(b, p, remaining, kept, budget, has).value;
      var limit := Min(Allowance(b, p, budget, has).value, FreeWorth(p, kept));
      && s.value > Min(NeedsSold(b, p, remaining), limit) - PriceIls(p)
      && (NeedsSold(b, p, remaining) <= limit ==> remaining - (s.value - s.tax) < NetPerShare(b, p))
      && (NeedsSold(b, p, remaining) + PriceIls(p) <= FreeWorth(p, kept) && NeedsSold(b, p, remaining) <= limit ==>
          remaining - (s.value - s.tax) <= 0.0)
      && (remaining - (s.value - s.tax) > 0.0 ==> s.value > limit - PriceIls(p))
  {
    hide WholeShares, TaxFraction, Allowance, PriceIls, TaxPerShare, Worth, Honest, NeedsSold;
    SaleFitsHolding(b, p, remaining, kept, budget, has);
    NetIsExactOf(b, p);
    var s := SaleFrom(b, p, remaining, kept, budget, has).value;
    var price, net, gross := PriceIls(p), NetPerShare(b, p), NeedsSold(b, p, remaining);
    var limit := Min(Allowance(b, p, budget, has).value, FreeWorth(p, kept));
    var n := WholeShares(Min(gross, limit), price);
    TakeIs(b, p, remaining, kept, budget, has);
    FloorIsWhole(Min(gross, limit), price);
    WorthOfSum(n as real, 1.0, price);
    WorthOfSum(n as real, 1.0, net);
    WorthOfSum(s.shares as real, TaxPerShare(b, p), net);
    NetOfGross(b, p, remaining, n as real);
    NetOfGross(b, p, remaining, (n + 1) as real);
  }

  lemma NetIsExactOf(b: Book, p: Position)
    requires Honest(b) && p in b.positions && PriceIls(p) > 0.0
    ensures NetPerShare(b, p) == PriceIls(p) - TaxPerShare(b, p) > 0.0
  {
    NetIsExact(b, p);
  }

  /** How many shares a sale is of. */
  lemma TakeIs(b: Book, p: Position, remaining: real, kept: real, budget: real, has: bool)
    requires SaleFrom(b, p, remaining, kept, budget, has).Some?
    ensures PriceIls(p) > 0.0 && Allowance(b, p, budget, has).Some?
    ensures var limit := Min(Allowance(b, p, budget, has).value, FreeWorth(p, kept));
      var n := WholeShares(Min(NeedsSold(b, p, remaining), limit), PriceIls(p));
      SaleFrom(b, p, remaining, kept, budget, has).value.shares ==
        if Worth(n as real, NetPerShare(b, p)) < remaining && Worth((n + 1) as real, PriceIls(p)) <= FreeWorth(p, kept)
        then n + 1 else n
  {
    hide WholeShares, TaxFraction, Allowance, PriceIls, TaxPerShare, NetPerShare, Worth;
  }

  /** So many shares are worth what must be sold exactly when they net what is needed. */
  lemma NetOfGross(b: Book, p: Position, remaining: real, shares: real)
    requires PriceIls(p) > 0.0
    ensures Worth(shares, PriceIls(p)) < NeedsSold(b, p, remaining) <==> Worth(shares, NetPerShare(b, p)) < remaining
    ensures Worth(shares, PriceIls(p)) > NeedsSold(b, p, remaining) <==> Worth(shares, NetPerShare(b, p)) > remaining
  {
    var part := 1.0 - TaxFraction(b, p);
    hide TaxFraction;
    NetScales(shares, PriceIls(p), part);
    DividesBack(Worth(shares, PriceIls(p)), remaining, part);
  }

  lemma NetScales(shares: real, price: real, part: real)
    ensures Worth(shares, price * part) == Worth(shares, price) * part
  {
  }

  lemma DividesBack(x: real, y: real, part: real)
    requires part > 0.0
    ensures x < y / part <==> x * part < y
    ensures x > y / part <==> x * part > y
  {
    var q := y / part;
    assert q * part == y;
    OrderWorth(x, q, part);
    OrderWorth(q, x, part);
  }

  // ---------------------------------------------------------------- the whole plan

  /** Where the loop stands when it comes to the k-th candidate. */
  function Turn(b: Book, amount: real, exclude: set<Ticker>, reserved: map<Ticker, real>, used: real, k: nat): Progress
    requires k <= |Candidates(b, exclude)|
  {
    AdvanceAll(b, Progress(amount - PlanFunding(b, amount, exclude, reserved, used).fromCash, [], InitialBudget(b)),
               Candidates(b, exclude)[..k], reserved, BookHasBudget(b))
  }

  /** What the book's rules let go of a holding once so much of its class is sold: the name's excess over its cap or
      what is left of its class's overweight, whichever is more; the whole position when nothing is overweight. */
  function Licence(b: Book, p: Position, sold: real): real {
    if BookHasBudget(b) then Max(OverCap(b, p), Max(0.0, ClassOver(b, p.cls) * b.nav - sold)) else ValueIls(p)
  }

  /** The most a holding can give: what the rules let go, of what is not promised elsewhere. */
  function CanGiveUp(b: Book, p: Position, sold: real, kept: real): real {
    Min(Licence(b, p, sold), FreeWorth(p, kept))
  }

  /** A class's budget is its overweight less what was sold of it. */
  ghost predicate BudgetIsUnsold(b: Book, g: Progress) {
    forall p :: p in b.positions ==>
      BudgetFor(g.budget, p.cls) == Max(0.0, ClassOver(b, p.cls) * b.nav - ClassSold(g.sales, p.cls))
  }

  lemma ValueNonNegative(b: Book, p: Position, remaining: real, kept: real, budget: real, has: bool)
    requires Honest(b) && p in b.positions && SaleFrom(b, p, remaining, kept, budget, has).Some?
    ensures var s := SaleFrom(b, p, remaining, kept, budget, has).value;
      s.position == p && s.value >= 0.0 && s.value - s.tax >= 0.0
  {
    hide SaleFrom, TaxFraction, PriceIls, TaxPerShare, Worth, Honest;
    SaleFitsHolding(b, p, remaining, kept, budget, has);
    NetIsExactOf(b, p);
    var s := SaleFrom(b, p, remaining, kept, budget, has).value;
    WorthOfSum(s.shares as real, TaxPerShare(b, p), NetPerShare(b, p));
    WorthNonNegative(s.shares as real, NetPerShare(b, p));
    WorthNonNegative(s.shares as real, PriceIls(p));
  }

  lemma StepKeepsBudget(b: Book, m: Progress, p: Position, reserved: map<Ticker, real>, has: bool)
    requires Honest(b) && p in b.positions && BudgetIsUnsold(b, m)
    requires forall q :: q in b.positions ==> q.cls in m.budget
    ensures var r := Advance(b, m, p, reserved, has);
      && BudgetIsUnsold(b, r) && r.remaining <= m.remaining && m.sales <= r.sales
      && forall q :: q in b.positions ==> q.cls in r.budget
  {
    hide SaleFrom, Honest, ClassSold, ClassOver;
    var kept, budget := Reserved(reserved, p.ticker), BudgetFor(m.budget, p.cls);
    var sale := SaleFrom(b, p, m.remaining, kept, budget, has);
    if m.remaining >= MIN_TRADE && sale.Some? {
      ValueNonNegative(b, p, m.remaining, kept, budget, has);
      forall q | q in b.positions
        ensures ClassSold(m.sales + [sale.value], q.cls)
             == ClassSold(m.sales, q.cls) + (if p.cls == q.cls then sale.value.value else 0.0)
      {
        ClassSoldAppend(b, m.sales, sale.value, q.cls);
      }
    }
  }

  /** At any turn the sales made so far are the first of the plan's, what is still to be raised is the request less what
      they net, and each class may still give its overweight less what was sold of it. */
  lemma {:induction false} TurnFollowsTheSales(b: Book, amount: real, exclude: set<Ticker>, reserved: map<Ticker, real>,
                                               used: real, k: nat)
    requires Honest(b) && k <= |Candidates(b, exclude)|
    ensures var m := Turn(b, amount, exclude, reserved, used, k);
      && m.remaining == amount - PlanFunding(b, amount, exclude, reserved, used).fromCash - NetOf(m.sales)
      && BudgetIsUnsold(b, m) && forall q :: q in b.positions ==> q.cls in m.budget
    ensures k > 0 ==>
      var m, before := Turn(b, amount, exclude, reserved, used, k), Turn(b, amount, exclude, reserved, used, k - 1);
      && m == Advance(b, before, Candidates(b, exclude)[k - 1], reserved, BookHasBudget(b))
      && before.sales <= m.sales && m.remaining <= before.remaining
  {
    hide SaleFrom, Candidates, BookHasBudget, Honest, ClassOver, Advance;
    var cs := Candidates(b, exclude);
    var start := Progress(amount - PlanFunding(b, amount, exclude, reserved, used).fromCash, [], InitialBudget(b));
    RemainingIsExact(b, start, cs[..k], reserved, BookHasBudget(b));
    CandidatesAreHoldings(b, exclude);
    if k == 0 {
      StartIsUnsold(b, start.remaining);
    } else {
      TurnFollowsTheSales(b, amount, exclude, reserved, used, k - 1);
      assert cs[..k][..k - 1] == cs[..k - 1];
      StepKeepsBudget(b, Turn(b, amount, exclude, reserved, used, k - 1), cs[k - 1], reserved, BookHasBudget(b));
    }
  }

  lemma StartIsUnsold(b: Book, remaining: real)
    requires Honest(b)
    ensures BudgetIsUnsold(b, Progress(remaining, [], InitialBudget(b)))
    ensures forall q :: q in b.positions ==> q.cls in InitialBudget(b)
  {
    hide ClassOver;
    forall q | q in b.positions
      ensures ClassOver(b, q.cls) * b.nav >= 0.0
    {
      ClassBudgetNonNegative(b, q.cls);
    }
  }

  lemma {:induction false} LaterTurns(b: Book, amount: real, exclude: set<Ticker>, reserved: map<Ticker, real>,
                                      used: real, k: nat, n: nat)
    requires Honest(b) && k <= n <= |Candidates(b, exclude)|
    ensures var m, r := Turn(b, amount, exclude, reserved, used, k), Turn(b, amount, exclude, reserved, used, n);
      m.sales <= r.sales && r.remaining <= m.remaining
    decreases n - k
  {
    hide Turn, Candidates, Honest;
    if k < n {
      LaterTurns(b, amount, exclude, reserved, used, k, n - 1);
      TurnFollowsTheSales(b, amount, exclude, reserved, used, n);
    }
  }

  /** The plan is where the loop stands after the last candidate. */
  lemma PlanIsTheLastTurn(b: Book, amount: real, exclude: set<Ticker>, reserved: map<Ticker, real>, used: real)
    requires Honest(b)
    ensures var f, n := PlanFunding(b, amount, exclude, reserved, used), |Candidates(b, exclude)|;
      && (amount - f.fromCash >= MIN_TRADE ==>
          f.sales == Turn(b, amount, exclude, reserved, used, n).sales)
      && amount - Funded(f) <= amount - f.fromCash - NetOf(f.sales)
      && (amount - f.fromCash < MIN_TRADE ==> f.sales == [])
  {
    hide AdvanceAll, Candidates, BookHasBudget, Honest, InitialBudget, NetOf, Spendable;
    var cs := Candidates(b, exclude);
    assert cs[..|cs|] == cs;
  }

  // ---------------------------------------------------------------- what the rules let go

  lemma {:induction false} ClassWithinTotal(b: Book, cs: seq<AssetClass>, cls: AssetClass)
    requires b.nav >= 0.0
    ensures 0.0 <= TotalClassOver(b, cs)
    ensures cls in cs ==> ClassOver(b, cls) * b.nav <= TotalClassOver(b, cs)
  {
    hide ClassOver;
    if cs != [] {
      ClassWithinTotal(b, cs[1..], cls);
      ClassBudgetNonNegative(b, cs[0]);
    }
  }

  lemma {:induction false} NameWithinTotal(b: Book, ps: seq<Position>, p: Position)
    requires b.nav >= 0.0
    ensures 0.0 <= TotalNameOver(b, ps)
    ensures p in ps ==> OverCap(b, p) <= TotalNameOver(b, ps)
  {
    hide OverCap;
    if ps != [] {
      NameWithinTotal(b, ps[1..], p);
      OverCapNonNegative(b, ps[0]);
    }
  }

  /** Nothing in the book counts as overweight only while no name and no class is over by as much as a trade. */
  lemma NothingOverweight(b: Book, p: Position)
    requires b.nav >= 0.0 && p in b.positions && !BookHasBudget(b)
    ensures OverCap(b, p) < MIN_TRADE && ClassOver(b, p.cls) * b.nav < MIN_TRADE
  {
    hide ClassOver, OverCap;
    ClassWithinTotal(b, Classes(b.positions), p.cls);
    NameWithinTotal(b, b.positions, p);
  }

  /** What authorises a sale, from what was sold of the class. */
  lemma AllowanceIsLicence(b: Book, p: Position, sold: real)
    requires b.nav >= 0.0 && p in b.positions && sold >= 0.0
    ensures var budget := Max(0.0, ClassOver(b, p.cls) * b.nav - sold);
      match Allowance(b, p, budget, BookHasBudget(b))
      case Some(value) => value == Licence(b, p, sold)
      case None => Licence(b, p, sold) < MIN_TRADE
  {
    hide BookHasBudget, OverCap, ClassOver, ValueIls;
    if !BookHasBudget(b) {
      NothingOverweight(b, p);
    }
  }

  lemma {:induction false} ClassSoldNonNegative(sales: seq<Sale>, cls: AssetClass)
    requires forall s :: s in sales ==> s.value >= 0.0
    ensures ClassSold(sales, cls) >= 0.0
  {
    if sales != [] {
      ClassSoldNonNegative(sales[..|sales| - 1], cls);
    }
  }

  lemma {:induction false} TurnsSellForMoney(b: Book, amount: real, exclude: set<Ticker>, reserved: map<Ticker, real>,
                                             used: real, k: nat)
    requires Honest(b) && k <= |Candidates(b, exclude)|
    ensures forall s :: s in Turn(b, amount, exclude, reserved, used, k).sales ==> s.value >= 0.0
  {
    hide Turn, SaleFrom, Candidates, BookHasBudget, Honest;
    if k == 0 {
      TurnZero(b, amount, exclude, reserved, used);
    } else {
      TurnsSellForMoney(b, amount, exclude, reserved, used, k - 1);
      TurnFollowsTheSales(b, amount, exclude, reserved, used, k);
      CandidatesAreHoldings(b, exclude);
      var m, p := Turn(b, amount, exclude, reserved, used, k - 1), Candidates(b, exclude)[k - 1];
      var kept, budget := Reserved(reserved, p.ticker), BudgetFor(m.budget, p.cls);
      if SaleFrom(b, p, m.remaining, kept, budget, BookHasBudget(b)).Some? {
        ValueNonNegative(b, p, m.remaining, kept, budget, BookHasBudget(b));
      }
    }
  }

  lemma TurnZero(b: Book, amount: real, exclude: set<Ticker>, reserved: map<Ticker, real>, used: real)
    ensures Turn(b, amount, exclude, reserved, used, 0).sales == []
  {
  }

  lemma CandidateHasAPrice(b: Book, p: Position, exclude: set<Ticker>)
    requires Honest(b) && p in Candidates(b, exclude)
    ensures p in b.positions && PriceIls(p) > 0.0
  {
    hide Candidates, Score;
    CandidatesAreHoldings(b, exclude);
    if PriceIls(p) == 0.0 {
      NoPriceNoValue(p);
    } else {
      NonNegative(p.price, p.rate);
    }
  }

  lemma NoPriceNoValue(p: Position)
    requires PriceIls(p) == 0.0
    ensures ValueIls(p) == 0.0
  {
  }

  lemma NeedsAtLeast(b: Book, p: Position, amount: real)
    requires Honest(b) && p in b.positions && PriceIls(p) > 0.0 && amount >= 0.0
    ensures NeedsSold(b, p, amount) >= amount
  {
    ClipNeverBinds(b, p);
    var part := 1.0 - TaxFraction(b, p);
    hide TaxFraction;
    var q := amount / part;
    assert q * part == amount;
    if q < amount {
      SmallerPart(q, part);
    }
  }

  lemma SmallerPart(q: real, part: real)
    requires 0.0 < part <= 1.0
    ensures q >= 0.0 ==> q * part <= q
    ensures q < 0.0 ==> q * part < 0.0
  {
  }

  /** What one turn sells, and what it leaves. */
  ghost predicate Sells(b: Book, m: Progress, r: Progress, p: Position, kept: real)
    requires PriceIls(p) > 0.0
  {
    var most, gross := CanGiveUp(b, p, ClassSold(m.sales, p.cls), kept), NeedsSold(b, p, m.remaining);
    if m.remaining >= MIN_TRADE && most >= MIN_TRADE && most >= PriceIls(p) && gross >= PriceIls(p)
    then
      && |r.sales| == |m.sales| + 1 && m.sales == r.sales[..|m.sales|] && r.sales[|m.sales|].position == p
      && (gross <= most ==> r.remaining < NetPerShare(b, p))
      && (gross <= most && gross + PriceIls(p) <= FreeWorth(p, kept) ==> r.remaining <= 0.0)
      && (r.remaining > 0.0 ==> r.sales[|m.sales|].value > most - PriceIls(p))
    else r == m
  }

  lemma StepSells(b: Book, m: Progress, p: Position, reserved: map<Ticker, real>)
    requires Honest(b) && p in b.positions && PriceIls(p) > 0.0 && ClassSold(m.sales, p.cls) >= 0.0
    requires BudgetFor(m.budget, p.cls) == Max(0.0, ClassOver(b, p.cls) * b.nav - ClassSold(m.sales, p.cls))
    ensures Sells(b, m, Advance(b, m, p, reserved, BookHasBudget(b)), p, Reserved(reserved, p.ticker))
  {
    hide SaleFrom, BookHasBudget, Honest, Licence, Allowance, PriceIls, NetPerShare, NeedsSold, ClassOver, FreeWorth,
         ClassSold, Reserved;
    var kept, budget, has := Reserved(reserved, p.ticker), BudgetFor(m.budget, p.cls), BookHasBudget(b);
    NavNonNegative(b);
    AllowanceIsLicence(b, p, ClassSold(m.sales, p.cls));
    FreeIsWorth(p, kept);
    if m.remaining >= MIN_TRADE {
      NeedsAtLeast(b, p, m.remaining);
      SaleIsMadeIff(b, p, m.remaining, kept, budget, has);
      if SaleFrom(b, p, m.remaining, kept, budget, has).Some? {
        SaleGoesFar(b, p, m.remaining, kept, budget, has);
        ValueNonNegative(b, p, m.remaining, kept, budget, has);
      }
    }
  }

  /** What a candidate gives when its turn comes, from the sales already made alone. It sells exactly when a trade's
      worth is still to be raised, what it can give up is worth a trade and a share, and what must be sold is worth a
      share. It then raises all that is needed when it can give that up, to within one net share, and to nothing when
      a further share is free; otherwise it sells to within a share of all it can give up. */
  lemma TurnSellsIff(b: Book, amount: real, exclude: set<Ticker>, reserved: map<Ticker, real>, used: real, k: nat)
    requires Honest(b) && k < |Candidates(b, exclude)|
    ensures PriceIls(Candidates(b, exclude)[k]) > 0.0
    ensures var p := Candidates(b, exclude)[k];
      Sells(b, Turn(b, amount, exclude, reserved, used, k), Turn(b, amount, exclude, reserved, used, k + 1), p,
            Reserved(reserved, p.ticker))
  {
    hide Turn, Advance, Candidates, BookHasBudget, Honest, PriceIls, ClassOver, ClassSold, NetOf, PlanFunding, Reserved,
         Sells;
    var p, m := Candidates(b, exclude)[k], Turn(b, amount, exclude, reserved, used, k);
    CandidateHasAPrice(b, p, exclude);
    TurnFollowsTheSales(b, amount, exclude, reserved, used, k);
    TurnFollowsTheSales(b, amount, exclude, reserved, used, k + 1);
    TurnsSellForMoney(b, amount, exclude, reserved, used, k);
    ClassSoldNonNegative(m.sales, p.cls);
    StepSells(b, m, p, reserved);
  }

  lemma NavNonNegative(b: Book)
    requires Honest(b)
    ensures b.nav >= 0.0
  {
  }

  lemma FreeIsWorth(p: Position, kept: real)
    requires PriceIls(p) > 0.0
    ensures FreeWorth(p, kept) > 0.0 <==> p.quantity - kept > 0.0
  {
  }

  /** A holding has given all it can: up to within a share of all it could give up, or that was not worth a trade or a
      share, or one share of it fetches more than had to be sold. */
  ghost predicate GaveAll(b: Book, sales: seq<Sale>, made: nat, needed: real, p: Position, kept: real)
    requires PriceIls(p) > 0.0 && made <= |sales|
  {
    var most := CanGiveUp(b, p, ClassSold(sales[..made], p.cls), kept);
    || most < MIN_TRADE || most < PriceIls(p)
    || NeedsSold(b, p, needed) < PriceIls(p)
    || (made < |sales| && sales[made].position == p && sales[made].value > most - PriceIls(p))
  }

  lemma SellsInsidePlan(b: Book, m: Progress, r: Progress, p: Position, kept: real, sales: seq<Sale>)
    requires PriceIls(p) > 0.0 && Sells(b, m, r, p, kept)
    requires m.sales <= r.sales <= sales && MIN_TRADE <= r.remaining <= m.remaining
    ensures GaveAll(b, sales, |m.sales|, m.remaining, p, kept)
  {
    hide PriceIls, CanGiveUp, NeedsSold, ClassSold, FreeWorth, NetPerShare;
    assert sales[..|m.sales|] == m.sales;
  }

  /** A plan left short by a trade or more has had all that its candidates can give. */
  lemma ShortPlanGaveAll(b: Book, amount: real, exclude: set<Ticker>, reserved: map<Ticker, real>, used: real, k: nat)
    requires Honest(b) && k < |Candidates(b, exclude)|
    requires amount - Funded(PlanFunding(b, amount, exclude, reserved, used)) >= MIN_TRADE
    ensures var f, p := PlanFunding(b, amount, exclude, reserved, used), Candidates(b, exclude)[k];
      var made := |Turn(b, amount, exclude, reserved, used, k).sales|;
      && PriceIls(p) > 0.0 && made <= |f.sales|
      && GaveAll(b, f.sales, made, amount - f.fromCash - NetOf(f.sales[..made]), p, Reserved(reserved, p.ticker))
  {
    hide Turn, Candidates, Honest, PriceIls, Sells, GaveAll, NetOf, Funded, PlanFunding, Reserved, Advance,
         BookHasBudget,
         BudgetIsUnsold;
    var f, p, n := PlanFunding(b, amount, exclude, reserved, used), Candidates(b, exclude)[k], |Candidates(b, exclude)|;
    var m, r := Turn(b, amount, exclude, reserved, used, k), Turn(b, amount, exclude, reserved, used, k + 1);
    TurnSellsIff(b, amount, exclude, reserved, used, k);
    TurnFollowsTheSales(b, amount, exclude, reserved, used, k);
    PlanIsTheLastTurn(b, amount, exclude, reserved, used);
    NetOfNothing();
    LaterTurns(b, amount, exclude, reserved, used, k, k + 1);
    LaterTurns(b, amount, exclude, reserved, used, k + 1, n);
    TurnFollowsTheSales(b, amount, exclude, reserved, used, n);
    SellsInsidePlan(b, m, r, p, Reserved(reserved, p.ticker), f.sales);
    assert f.sales[..|m.sales|] == m.sales;
  }

  lemma NetOfNothing()
    ensures NetOf([]) == 0.0
  {
  }

  /** One holding that can give up all that must be sold leaves less than one of its net shares unraised, and nothing
      when it has a further share free. */
  lemma OneHoldingIsEnough(b: Book, amount: real, exclude: set<Ticker>, reserved: map<Ticker, real>, used: real, k: nat)
    requires Honest(b) && k < |Candidates(b, exclude)| && PriceIls(Candidates(b, exclude)[k]) > 0.0
    requires amount - PlanFunding(b, amount, exclude, reserved, used).fromCash >= MIN_TRADE
    requires var p, m := Candidates(b, exclude)[k], Turn(b, amount, exclude, reserved, used, k);
      m.remaining >= MIN_TRADE
      && PriceIls(p) <= NeedsSold(b, p, m.remaining)
         <= CanGiveUp(b, p, ClassSold(m.sales, p.cls), Reserved(reserved, p.ticker))
    ensures var f, p := PlanFunding(b, amount, exclude, reserved, used), Candidates(b, exclude)[k];
      && amount - Funded(f) < NetPerShare(b, p)
      && (var gross := NeedsSold(b, p, Turn(b, amount, exclude, reserved, used, k).remaining);
          gross + PriceIls(p) <= FreeWorth(p, Reserved(reserved, p.ticker)) ==> Funded(f) >= amount)
  {
    hide Turn, Candidates, Honest, PriceIls, NetPerShare, NeedsSold, CanGiveUp, FreeWorth, ClassSold, NetOf, Funded,
         PlanFunding;
    var p, m := Candidates(b, exclude)[k], Turn(b, amount, exclude, reserved, used, k);
    CandidateHasAPrice(b, p, exclude);
    NeedsAtLeast(b, p, m.remaining);
    TurnSellsIff(b, amount, exclude, reserved, used, k);
    PlanIsTheLastTurn(b, amount, exclude, reserved, used);
    LaterTurns(b, amount, exclude, reserved, used, k + 1, |Candidates(b, exclude)|);
    TurnFollowsTheSales(b, amount, exclude, reserved, used, |Candidates(b, exclude)|);
  }

  /** With nothing overweight, a holding none of whose shares is promised can give up the whole of itself. */
  lemma WholePositionWhenNothingIsOver(b: Book, p: Position, sold: real)
    requires Honest(b) && p in b.positions && !BookHasBudget(b)
    ensures CanGiveUp(b, p, sold, 0.0) == ValueIls(p)
  {
  }

  /** So nothing at all is sold while no candidate could sell for the whole of what cash leaves. */
  lemma NothingIsSoldWhile(b: Book, amount: real, exclude: set<Ticker>, reserved: map<Ticker, real>, used: real, k: nat)
    requires Honest(b) && k <= |Candidates(b, exclude)|
    requires forall p :: p in Candidates(b, exclude) && PriceIls(p) > 0.0 ==>
      NeedsSold(b, p, amount - PlanFunding(b, amount, exclude, reserved, used).fromCash) < PriceIls(p)
    ensures Turn(b, amount, exclude, reserved, used, k).sales == []
  {
    hide Turn, Candidates, Honest, PriceIls, NeedsSold, CanGiveUp, NetOf, PlanFunding, Reserved, Advance, BookHasBudget,
         BudgetIsUnsold, NetPerShare, FreeWorth, ClassSold;
    if k == 0 {
      TurnZero(b, amount, exclude, reserved, used);
    } else {
      NothingIsSoldWhile(b, amount, exclude, reserved, used, k - 1);
      TurnFollowsTheSales(b, amount, exclude, reserved, used, k - 1);
      TurnSellsIff(b, amount, exclude, reserved, used, k - 1);
      NetOfNothing();
    }
  }

  /** Ten shares of 4,000 that cost as much, 40% of a book of 100,000 that aims at 10% of their class. */
  ghost predicate Dear(b: Book, p: Position) {
    && p.price == 4000.0 && p.rate == 1.0 && p.quantity == 10.0 && p.costBasis == 4000.0
    && b.positions == [p] && b.nav == 100000.0 && b.aims == [Aim(p.cls, 0.1)] && b.cap == 0.2 && b.cgt == 0.25
    && b.cash == 0.0 && b.floorPct == 0.0
  }

  lemma DearIsOverweight(b: Book, p: Position)
    requires Dear(b, p)
    ensures Honest(b) && PriceIls(p) == 4000.0 && ValueIls(p) == 40000.0 && ShareOf(b, p) == 0.4
    ensures ClassOver(b, p.cls) * b.nav == 30000.0
  {
    assert b.positions[1..] == [];
    assert ClassWeight(b, b.positions[1..], p.cls) == 0.0;
    assert ClassWeight(b, b.positions, p.cls) == 0.4;
    assert ClassOver(b, p.cls) == 0.3;
  }

  lemma DearIsTheCandidate(b: Book, p: Position)
    requires Dear(b, p)
    ensures Candidates(b, {}) == [p]
  {
    DearIsOverweight(b, p);
    ScoreIsPositive(b, p);
    hide Score, ClassOver, ValueIls;
    assert b.positions[1..] == [];
    assert Ranked(b, b.positions[1..], {}) == [];
  }

  lemma ScoreIsPositive(b: Book, p: Position)
    requires ShareOf(b, p) - b.cap == 0.2
    ensures Score(b, p) > 0.0
  {
  }

  /** A share worth more than the need is never sold, so a plan can leave all of the need unraised beside a holding far
      over its target, with shares to spare. */
  lemma ExpensiveShareStaysUnsold(b: Book, p: Position)
    requires Dear(b, p)
    ensures Candidates(b, {}) == [p] && PriceIls(p) == 4000.0 && ClassOver(b, p.cls) * b.nav == 30000.0
    ensures PlanFunding(b, 3000.0, {}, map[], 0.0) == Fund(3000.0, 0.0, [])
  {
    DearIsOverweight(b, p);
    DearIsTheCandidate(b, p);
    UntaxedNeed(b, p, 3000.0);
    NothingIsSpendable(b);
    hide ClassOver, Candidates, Honest, NeedsSold, PriceIls, InitialBudget, BookHasBudget, AdvanceAll, Spendable, Turn;
    NothingIsSoldWhile(b, 3000.0, {}, map[], 0.0, 1);
    PlanIsTheLastTurn(b, 3000.0, {}, map[], 0.0);
  }

  lemma UntaxedNeed(b: Book, p: Position, amount: real)
    requires PriceIls(p) > 0.0 && p.price == p.costBasis
    ensures NeedsSold(b, p, amount) == amount
  {
  }

  lemma NothingIsSpendable(b: Book)
    requires b.cash == 0.0 && b.floorPct == 0.0
    ensures Spendable(b) == 0.0
  {
  }
}
