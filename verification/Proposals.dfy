/** When a purchase is proposed at all: exactly when the plan wants it, the book can pay for it, and what its card would
    claim holds. */
module Proposals {
  import opened Basics
  import opened Sizing
  import opened Funding
  import opened FundedBuy
  import opened WorstFit
  import opened Swaps

  // ---------------------------------------------------------------- what is asked for

  /** What a class is short of its target, as a part of the book; a class without a target is short of nothing. */
  function Short(b: Book, cls: AssetClass): real
    requires Invested(b.positions) != 0.0
  {
    if AimFor(b.aims, cls) == 0.0 then 0.0
    else b.nav * (AimFor(b.aims, cls) - ClassValue(b.positions, cls) / Invested(b.positions))
  }

  /** What is held of a ticker, over all its rows. */
  function TickerValue(ps: seq<Position>, tk: Ticker): real {
    if ps == [] then 0.0 else (if ps[0].ticker == tk then ValueIls(ps[0]) else 0.0) + TickerValue(ps[1..], tk)
  }

  /** What a name may still take before its cap. */
  function Headroom(b: Book, tk: Ticker): real { b.cap * b.nav - TickerValue(b.positions, tk) }

  /** The most of a request that its class and its name have room for. */
  function MostOf(b: Book, r: Request): real
    requires Invested(b.positions) != 0.0
  {
    var room, short := Headroom(b, r.ticker), Short(b, r.cls);
    var most := if short >= MIN_TRADE && short < room then short else room;
    if r.requested.Some? && r.requested.value < most then r.requested.value else most
  }

  lemma {:induction false} TickerInMoney(b: Book, ps: seq<Position>, tk: Ticker)
    requires b.nav != 0.0
    ensures TickerWeight(b, ps, tk) * b.nav == TickerValue(ps, tk)
  {
    hide ValueIls;
    if ps != [] {
      TickerInMoney(b, ps[1..], tk);
      ShareInMoney(b, ps[0]);
      SumInMoney(if ps[0].ticker == tk then ShareOf(b, ps[0]) else 0.0, TickerWeight(b, ps[1..], tk), b.nav);
    }
  }

  lemma RoomInMoney(b: Book, tk: Ticker)
    requires b.nav > 0.0
    ensures RoomFor(b, tk) == Max(0.0, Headroom(b, tk))
  {
    TickerInMoney(b, b.positions, tk);
    ClippedProduct(b.nav, b.cap - TickerWeight(b, b.positions, tk));
    SumInMoney(b.cap, TickerWeight(b, b.positions, tk), b.nav);
    hide TickerWeight, TickerValue;
  }

  lemma GapInMoney(b: Book, cls: AssetClass)
    requires b.nav > 0.0 && Invested(b.positions) != 0.0
    ensures ClassGap(b, cls) == Max(0.0, Short(b, cls))
  {
    ClippedProduct(b.nav, AimFor(b.aims, cls) - WeightIn(MixNow(b), cls));
  }

  /** What is asked for, from the room a class and a name have. */
  function Ask(short: real, room: real, requested: Option<real>, allowSwap: bool): Option<real> {
    if short < MIN_TRADE && !allowSwap then None
    else
      var sized := if short >= MIN_TRADE then Min(short, room) else room;
      var want := if requested.Some? then Min(sized, Max(0.0, requested.value)) else sized;
      if want < MIN_TRADE then None else Some(want)
  }

  /** Room under nothing is no room. */
  lemma AskClips(short: real, room: real, requested: Option<real>, allowSwap: bool)
    ensures Ask(Max(0.0, short), Max(0.0, room), requested, allowSwap) == Ask(short, room, requested, allowSwap)
  {
  }

  /** A purchase is sized exactly when its class is short by a trade, or it may be a swap, and a trade of it has room;
      and then for the most that has. */
  lemma WantedIff(b: Book, r: Request)
    requires b.nav > 0.0 && Invested(b.positions) != 0.0
    ensures Wanted(b, r) ==
      if (Short(b, r.cls) >= MIN_TRADE || r.allowSwap) && MostOf(b, r) >= MIN_TRADE then Some(MostOf(b, r)) else None
  {
    hide ClassGap, RoomFor, Short, Headroom, Invested, Wanted, Ask;
    WantedAsks(b, r);
    GapInMoney(b, r.cls);
    RoomInMoney(b, r.ticker);
    AskClips(Short(b, r.cls), Headroom(b, r.ticker), r.requested, r.allowSwap);
    AskIff(b, r);
  }

  lemma AskIff(b: Book, r: Request)
    requires Invested(b.positions) != 0.0
    ensures Ask(Short(b, r.cls), Headroom(b, r.ticker), r.requested, r.allowSwap) ==
      if (Short(b, r.cls) >= MIN_TRADE || r.allowSwap) && MostOf(b, r) >= MIN_TRADE then Some(MostOf(b, r)) else None
  {
    hide Short, Headroom, Invested;
  }

  lemma WantedAsks(b: Book, r: Request)
    requires Invested(b.positions) != 0.0
    ensures Wanted(b, r) == Ask(ClassGap(b, r.cls), RoomFor(b, r.ticker), r.requested, r.allowSwap)
  {
    hide ClassGap, RoomFor, Invested;
  }

  // ---------------------------------------------------------------- when there is a card

  /** What the book can pay for: planned for all that is wanted, and again for what that raised. */
  function Payable(b: Book, a: Account, r: Request, want: real): real { Min(want, Funded(PlanFor(b, a, r, want))) }

  function LastPlan(b: Book, a: Account, r: Request, want: real): Fund { PlanFor(b, a, r, Payable(b, a, r, want)) }

  /** The card a purchase would be shown on. */
  function CardFor(b: Book, a: Account, r: Request, want: real): Card
    requires Invested(b.positions) != 0.0
  {
    var fund := LastPlan(b, a, r, want);
    var amount := Min(Payable(b, a, r, want), Funded(fund));
    var after := MixAfter(b, r.cls, amount, fund.sales);
    Card(r, amount, fund,
         if after.total > 0.0 && Abs(WeightIn(after, r.cls) - WeightIn(MixNow(b), r.cls)) >= MIN_CLAIMABLE_MOVE
         then TowardTarget else WithinClassSwap)
  }

  lemma SizedIs(b: Book, a: Account, r: Request, want: real)
    requires Invested(b.positions) != 0.0
    ensures var (amount, fund) := Sized(b, a, r, want); var card := CardFor(b, a, r, want);
      if Payable(b, a, r, want) >= MIN_TRADE then amount == card.amount && fund == card.fund else amount < MIN_TRADE
  {
    hide PlanFunding, Funded, MixAfter, WeightIn, Invested;
  }

  lemma LabelIffClaimHolds(b: Book, c: Card)
    requires Invested(b.positions) > 0.0 && OfTheBook(b, c.fund.sales)
    requires var after := MixAfter(b, c.request.cls, c.amount, c.fund.sales);
      c.kind == if after.total > 0.0 &&
                   Abs(WeightIn(after, c.request.cls) - WeightIn(MixNow(b), c.request.cls)) >= MIN_CLAIMABLE_MOVE
                then TowardTarget else WithinClassSwap
    ensures Label(b, c.request, c.amount, c.fund.sales) ==
      if ClaimHolds(b, c) then Some(c.kind) else None
  {
    hide MixClasses, Drift, Overweight, WeightIn, SumWeights, Invested, MixNow, MixAfter, AimFor, SameWay;
    MixTotal(b);
    var cls, now := c.request.cls, MixNow(b);
    var after := MixAfter(b, cls, c.amount, c.fund.sales);
    if after.total > 0.0 {
      var moved, asked := WeightIn(after, cls) - WeightIn(now, cls), AimFor(b.aims, cls) - WeightIn(now, cls);
      WeightsAddUp(b, cls, c.amount, c.fund.sales);
      DriftSplits(b, now, MixClasses(b, cls));
      DriftSplits(b, after, MixClasses(b, cls));
      if Abs(moved) >= MIN_CLAIMABLE_MOVE {
        SameSign(moved, asked);
      }
    }
  }

  /** A card is shown exactly when its class is short by a trade or it may be a swap, a trade of it has room and can
      be paid for, and what it claims holds; and then for all that can be paid for.  No honest purchase is
      withheld. */
  lemma CardIff(b: Book, a: Account, r: Request)
    requires b.nav > 0.0
    ensures Propose(b, a, r) ==
      if r.ticker == "" || r.cls == "" || Invested(b.positions) <= 0.0 || Wanted(b, r).None? then None
      else
        var card := CardFor(b, a, r, Wanted(b, r).value);
        if Payable(b, a, r, Wanted(b, r).value) >= MIN_TRADE && card.amount >= MIN_TRADE && ClaimHolds(b, card)
        then Some(card) else None
  {
    hide Wanted, Label, Sized, PlanFunding, Funded, Payable, ClaimHolds, MixNow, MixAfter, WeightIn, AimFor;
    if r.ticker != "" && r.cls != "" && Invested(b.positions) > 0.0 && Wanted(b, r).Some? {
      var want := Wanted(b, r).value;
      SizedIs(b, a, r, want);
      PlanSellsHoldings(b, Payable(b, a, r, want), Barred(r), a.shares, a.cash);
      LabelIffClaimHolds(b, CardFor(b, a, r, want));
    }
  }

  // ---------------------------------------------------------------- a purchase from spare cash

  /** Bought from cash that is free, whatever is asked for. */
  function CashCard(r: Request, want: real): Card { Card(r, want, Fund(want, want, []), TowardTarget) }

  lemma FreeCashPays(b: Book, a: Account, r: Request, want: real)
    requires Invested(b.positions) > 0.0 && MIN_TRADE <= want <= CashFree(b, a)
    ensures Payable(b, a, r, want) == want
    ensures var c := CardFor(b, a, r, want); c.request == r && c.amount == want && c.fund == Fund(want, want, [])
  {
    hide AdvanceAll, Candidates, InitialBudget, BookHasBudget, Spendable, MixAfter, WeightIn, Invested;
    NetOfNone();
  }

  lemma NetOfNone()
    ensures NetOf([]) == 0.0
  {
  }

  lemma CashMix(b: Book, cls: AssetClass, want: real)
    requires Invested(b.positions) > 0.0 && want > 0.0
    ensures var now, after := MixNow(b), MixAfter(b, cls, want, []);
      && now.total == Invested(b.positions) && after.total == Invested(b.positions) + want
      && WeightIn(now, cls) == ClassValue(b.positions, cls) / Invested(b.positions)
      && WeightIn(after, cls) == (ClassValue(b.positions, cls) + want) / (Invested(b.positions) + want)
  {
    hide ClassValue, Invested;
    assert ClassSold([], cls) == 0.0 && Proceeds([]) == 0.0;
  }

  lemma CashDilutes(b: Book, c: Card)
    requires LongBook(b) && Invested(b.positions) > 0.0 && c.amount > 0.0 && c.fund.sales == []
    ensures MixAfter(b, c.request.cls, c.amount, c.fund.sales).total > 0.0
    ensures Diluted(MixNow(b), MixAfter(b, c.request.cls, c.amount, c.fund.sales), c.request.cls,
                    MixClasses(b, c.request.cls))
  {
    hide LongBook, Invested, ClassValue, MixClasses, WeightIn, MixNow, MixAfter;
    CashMix(b, c.request.cls, c.amount);
    NothingFetches();
    forall k | k in MixClasses(b, c.request.cls) && k != c.request.cls
      ensures WeightIn(MixAfter(b, c.request.cls, c.amount, c.fund.sales), k) <= WeightIn(MixNow(b), k)
    {
      OtherWeightsFollowTheTotal(b, c, k);
    }
  }

  lemma NothingFetches()
    ensures Proceeds([]) == 0.0
  {
  }

  /** A purchase for a class that is short, paid from free cash, is always shown, for all that is wanted and with
      nothing sold, as long as it moves the class by half a point and not past its target: it can take no other class
      further from its own. */
  lemma CashPurchaseIsShown(b: Book, a: Account, r: Request, want: real)
    requires b.nav > 0.0 && LongBook(b) && Invested(b.positions) > 0.0 && r.ticker != "" && r.cls != ""
    requires Wanted(b, r) == Some(want) && want <= CashFree(b, a)
    requires var before := ClassValue(b.positions, r.cls) / Invested(b.positions);
      var after := (ClassValue(b.positions, r.cls) + want) / (Invested(b.positions) + want);
      before + MIN_CLAIMABLE_MOVE <= after <= AimFor(b.aims, r.cls)
    ensures Propose(b, a, r) == Some(CashCard(r, want))
  {
    hide Wanted, Propose, CashFree, LongBook, Invested, ClassValue, AimFor, MixNow, MixAfter, WeightIn, MixClasses,
         Drift,
         Overweight, SumWeights, Diluted, Payable;
    WantedIsWorthATrade(b, r);
    FreeCashPays(b, a, r, want);
    var c := CardFor(b, a, r, want);
    CashMix(b, r.cls, want);
    CashDilutes(b, c);
    DilutionKeepsDriftIff(b, c);
    WeightsAddUp(b, r.cls, want, []);
    DriftSplits(b, MixNow(b), MixClasses(b, r.cls));
    DriftSplits(b, MixAfter(b, r.cls, want, []), MixClasses(b, r.cls));
    CardIff(b, a, r);
  }

  lemma WantedIsWorthATrade(b: Book, r: Request)
    requires Invested(b.positions) != 0.0 && Wanted(b, r).Some?
    ensures Wanted(b, r).value >= MIN_TRADE
  {
  }
}
