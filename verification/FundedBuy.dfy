/** A purchase sized by the plan, paid for in full, and checked against the mix it leaves behind. */
module FundedBuy {
  import opened Basics
  import opened Funding
  import opened Sizing

  /** A smaller move of a class's weight is not claimed as a move. */
  const MIN_CLAIMABLE_MOVE := 0.005
  const DRIFT_EPSILON := 0.000000001

  datatype Request = Request(ticker: Ticker, cls: AssetClass, requested: Option<real>, exclude: set<Ticker>,
                             allowSwap: bool)
  datatype Kind = TowardTarget | WithinClassSwap
  datatype Card = Card(request: Request, amount: real, fund: Fund, kind: Kind)

  /** What the cards built so far have promised. */
  datatype Account = Account(shares: map<Ticker, real>, cash: real)

  // ---------------------------------------------------------------- the mix

  function ClassValue(ps: seq<Position>, cls: AssetClass): real {
    if ps == [] then 0.0 else (if ps[0].cls == cls then ValueIls(ps[0]) else 0.0) + ClassValue(ps[1..], cls)
  }

  function Invested(ps: seq<Position>): real {
    if ps == [] then 0.0 else ValueIls(ps[0]) + Invested(ps[1..])
  }

  function TickerWeight(b: Book, ps: seq<Position>, tk: Ticker): real {
    if ps == [] then 0.0 else (if ps[0].ticker == tk then ShareOf(b, ps[0]) else 0.0) + TickerWeight(b, ps[1..], tk)
  }

  function Proceeds(sales: seq<Sale>): real {
    if sales == [] then 0.0 else Proceeds(sales[..|sales| - 1]) + sales[|sales| - 1].value
  }

  /** A book's money by class, before a card and after it. */
  datatype Mix = Mix(value: AssetClass -> real, total: real)

  function MixNow(b: Book): Mix { Mix(c => ClassValue(b.positions, c), Invested(b.positions)) }

  function MixAfter(b: Book, bought: AssetClass, amount: real, sales: seq<Sale>): Mix {
    Mix(c => ClassValue(b.positions, c) + (if c == bought then amount else 0.0) - ClassSold(sales, c),
        Invested(b.positions) + amount - Proceeds(sales))
  }

  function WeightIn(m: Mix, cls: AssetClass): real
    requires m.total != 0.0
  {
    m.value(cls) / m.total
  }

  function Distinct(cs: seq<AssetClass>): seq<AssetClass> {
    if cs == [] then [] else if cs[0] in cs[1..] then Distinct(cs[1..]) else [cs[0]] + Distinct(cs[1..])
  }

  function AimClasses(aims: seq<Aim>): seq<AssetClass> {
    if aims == [] then [] else [aims[0].cls] + AimClasses(aims[1..])
  }

  /** Every class the plan, the book or the purchase names, once. */
  function MixClasses(b: Book, bought: AssetClass): seq<AssetClass> {
    Distinct(AimClasses(b.aims) + Classes(b.positions) + [bought])
  }

  /** How far a mix is from the plan, over all classes. */
  function Drift(b: Book, m: Mix, cs: seq<AssetClass>): real
    requires m.total != 0.0
  {
    if cs == [] then 0.0 else Abs(WeightIn(m, cs[0]) - AimFor(b.aims, cs[0])) + Drift(b, m, cs[1..])
  }

  // ---------------------------------------------------------------- sizing

  /** What the plan wants added to a class: nothing once it is at or over its target. */
  function ClassGap(b: Book, cls: AssetClass): real
    requires Invested(b.positions) != 0.0
  {
    if b.nav == 0.0 || AimFor(b.aims, cls) == 0.0 then 0.0
    else b.nav * Max(0.0, AimFor(b.aims, cls) - WeightIn(MixNow(b), cls))
  }

  /** The most one name may take before its cap. */
  function RoomFor(b: Book, tk: Ticker): real {
    NameRoom(b.nav, TickerWeight(b, b.positions, tk), b.cap)
  }

  /** How much to ask for, or nothing when the plan has no room for the name or no wish for its class. */
  function Wanted(b: Book, r: Request): Option<real>
    requires Invested(b.positions) != 0.0
  {
    var gap, room := ClassGap(b, r.cls), RoomFor(b, r.ticker);
    if gap < MIN_TRADE && !r.allowSwap then None
    else
      var sized := if gap >= MIN_TRADE then Min(gap, room) else room;
      var want := if r.requested.Some? then Min(sized, Max(0.0, r.requested.value)) else sized;
      if want < MIN_TRADE then None else Some(want)
  }

  // ---------------------------------------------------------------- funding and checking

  function Barred(r: Request): set<Ticker> { r.exclude + {r.ticker} }

  function PlanFor(b: Book, a: Account, r: Request, amount: real): Fund {
    PlanFunding(b, amount, Barred(r), a.shares, a.cash)
  }

  /** The plan that will be shown and the amount it pays for: planned again when the first came up short. */
  function Sized(b: Book, a: Account, r: Request, want: real): (real, Fund) {
    var first := PlanFor(b, a, r, want);
    var amount := Min(want, Funded(first));
    if amount < MIN_TRADE || amount >= want then (amount, first)
    else
      var second := PlanFor(b, a, r, amount);
      (Min(amount, Funded(second)), second)
  }

  /** Two moves in one direction. */
  predicate SameWay(x: real, y: real) { x * y > 0.0 }

  /** What a trade may honestly be called, or nothing if it takes the mix away from the plan. */
  function Label(b: Book, r: Request, amount: real, sales: seq<Sale>): Option<Kind>
    requires Invested(b.positions) != 0.0
  {
    var before, after := MixNow(b), MixAfter(b, r.cls, amount, sales);
    if after.total <= 0.0 then None
    else
      var moved := WeightIn(after, r.cls) - WeightIn(before, r.cls);
      if Abs(moved) < MIN_CLAIMABLE_MOVE then if r.allowSwap then Some(WithinClassSwap) else None
      else if !SameWay(moved, AimFor(b.aims, r.cls) - WeightIn(before, r.cls)) then None
      else if Drift(b, after, MixClasses(b, r.cls)) > Drift(b, before, MixClasses(b, r.cls)) + DRIFT_EPSILON then None
      else Some(TowardTarget)
  }

  function Propose(b: Book, a: Account, r: Request): Option<Card> {
    if b.nav == 0.0 || r.ticker == "" || r.cls == "" || Invested(b.positions) <= 0.0 then None
    else
      var want := Wanted(b, r);
      if want.None? then None
      else
        var (amount, fund) := Sized(b, a, r, want.value);
        if amount < MIN_TRADE then None
        else
          var kind := Label(b, r, amount, fund.sales);
          if kind.None? then None else Some(Card(r, amount, fund, kind.value))
  }

  // ---------------------------------------------------------------- the ledger

  function AddSales(shares: map<Ticker, real>, sales: seq<Sale>): map<Ticker, real> {
    if sales == [] then shares
    else
      var s, rest := sales[|sales| - 1], AddSales(shares, sales[..|sales| - 1]);
      rest[s.position.ticker := Reserved(rest, s.position.ticker) + s.shares as real]
  }

  function Booked(a: Account, f: Fund): Account { Account(AddSales(a.shares, f.sales), a.cash + f.fromCash) }

  /** One inventory for a whole set of cards. */
  class FundingLedger {
    var shares: map<Ticker, real>
    var cash: real

    constructor ()
      ensures shares == map[] && cash == 0.0
    {
      shares, cash := map[], 0.0;
    }

    function Value(): Account
      reads this
    {
      Account(shares, cash)
    }

    method Commit(f: Fund)
      modifies this
      ensures Value() == Booked(old(Value()), f)
    {
      cash := cash + f.fromCash;
      for k := 0 to |f.sales|
        invariant shares == AddSales(old(shares), f.sales[..k]) && cash == old(cash) + f.fromCash
      {
        assert f.sales[..k + 1][..k] == f.sales[..k];
        var tk := f.sales[k].position.ticker;
        shares := shares[tk := Reserved(shares, tk) + f.sales[k].shares as real];
      }
      assert f.sales[..|f.sales|] == f.sales;
    }
  }

  /** Builds one card and, only when there is one, books what it promises. */
  method ProposeFundedBuy(b: Book, r: Request, ledger: FundingLedger) returns (card: Option<Card>)
    modifies ledger
    ensures card == Propose(b, old(ledger.Value()), r)
    ensures ledger.Value() == (if card.Some? then Booked(old(ledger.Value()), card.value.fund) else old(ledger.Value()))
  {
    hide Wanted, Label, PlanFunding, AddSales;
    if b.nav == 0.0 || r.ticker == "" || r.cls == "" || Invested(b.positions) <= 0.0 {
      return None;
    }
    var want := Wanted(b, r);
    if want.None? {
      return None;
    }
    var barred := r.exclude + {r.ticker};
    var fund := ComputeFunding(b, want.value, barred, ledger.shares, ledger.cash);
    var amount := Min(want.value, Funded(fund));
    if amount < MIN_TRADE {
      return None;
    }
    if amount < want.value {
      fund := ComputeFunding(b, amount, barred, ledger.shares, ledger.cash);
      amount := Min(amount, Funded(fund));
      if amount < MIN_TRADE {
        return None;
      }
    }
    var kind := Label(b, r, amount, fund.sales);
    if kind.None? {
      return None;
    }
    ledger.Commit(fund);
    card := Some(Card(r, amount, fund, kind.value));
  }

  // ---------------------------------------------------------------- one card

  /** The amount on a card is what its funding nets, to within one share of the last holding it sells. */
  lemma CardIsPaidFor(b: Book, a: Account, r: Request)
    requires Honest(b) && Propose(b, a, r).Some?
    ensures var c := Propose(b, a, r).value;
      && MIN_TRADE <= c.amount <= Funded(c.fund)
      && if c.fund.sales == [] then c.amount == Funded(c.fund) == c.fund.fromCash
         else
           var p := c.fund.sales[|c.fund.sales| - 1].position;
           PriceIls(p) > 0.0 && Funded(c.fund) - c.amount < NetPerShare(b, p)
  {
    hide Wanted, Label, PlanFunding, Honest, PriceIls, NetPerShare;
    var want := Wanted(b, r).value;
    var first := PlanFor(b, a, r, want);
    SizedBelowWant(b, a, r, want);
    FundingIsTight(b, want, Barred(r), a.shares, a.cash);
    FundingIsTight(b, Min(want, Funded(first)), Barred(r), a.shares, a.cash);
    PlanWithinAmount(b, want, Barred(r), a);
    PlanWithinAmount(b, Min(want, Funded(first)), Barred(r), a);
  }

  lemma SizedBelowWant(b: Book, a: Account, r: Request, want: real)
    requires Wanted.requires(b, r) && Wanted(b, r) == Some(want)
    ensures want >= MIN_TRADE && Sized(b, a, r, want).0 <= want
  {
  }

  lemma PlanWithinAmount(b: Book, amount: real, exclude: set<Ticker>, a: Account)
    requires amount >= 0.0
    ensures PlanFunding(b, amount, exclude, a.shares, a.cash).fromCash <= amount
  {
  }

  /** No card takes a name past its cap, nor, unless it may be a swap, a class past the money its gap stands for. */
  lemma CardKeepsTheCap(b: Book, a: Account, r: Request)
    requires b.nav > 0.0 && Propose(b, a, r).Some?
    ensures var c := Propose(b, a, r).value;
      && TickerWeight(b, b.positions, r.ticker) * b.nav + c.amount <= b.cap * b.nav
      && (!r.allowSwap ==> c.amount <= b.nav * (AimFor(b.aims, r.cls) - WeightIn(MixNow(b), r.cls)))
  {
    hide PlanFunding, Label, RoomFor, ClassGap, MixNow, Funded, WeightIn, AimFor, TickerWeight, Invested;
    SizedBelowWant(b, a, r, Wanted(b, r).value);
    RoomIsHeadroom(b, r.ticker);
    GapIsShortfall(b, r.cls);
  }

  lemma RoomIsHeadroom(b: Book, tk: Ticker)
    requires b.nav > 0.0 && RoomFor(b, tk) > 0.0
    ensures RoomFor(b, tk) == b.cap * b.nav - TickerWeight(b, b.positions, tk) * b.nav
  {
    ClippedProduct(b.nav, b.cap - TickerWeight(b, b.positions, tk));
  }

  lemma GapIsShortfall(b: Book, cls: AssetClass)
    requires b.nav > 0.0 && Invested(b.positions) != 0.0
    ensures ClassGap(b, cls) > 0.0 ==> ClassGap(b, cls) == b.nav * (AimFor(b.aims, cls) - WeightIn(MixNow(b), cls))
  {
  }

  /** A card never sells the name it buys, nor an excluded one, nor a share promised to an earlier card, and never
      draws on cash an earlier card took or the floor protects. */
  lemma CardTakesOnlyWhatIsLeft(b: Book, a: Account, r: Request, tk: Ticker)
    requires Propose(b, a, r).Some?
    ensures var f := Propose(b, a, r).value.fund;
      && 0.0 <= Sold(f.sales, tk) <= Free(b.positions, tk, Reserved(a.shares, tk))
      && (tk == r.ticker || tk in r.exclude ==> Sold(f.sales, tk) == 0.0)
      && 0.0 <= f.fromCash <= Max(0.0, Spendable(b) - a.cash)
  {
    hide PlanFunding, Label, Wanted, Spendable, Funded;
    var want := Wanted(b, r).value;
    FundSellsWithin(b, want, Barred(r), a.shares, a.cash, tk);
    FundSellsWithin(b, Min(want, Funded(PlanFor(b, a, r, want))), Barred(r), a.shares, a.cash, tk);
  }

  // ---------------------------------------------------------------- a whole set of cards

  datatype Deck = Deck(cards: seq<Card>, account: Account)

  /** The cards one ledger is threaded through. */
  function Build(b: Book, rs: seq<Request>): Deck {
    if rs == [] then Deck([], Account(map[], 0.0))
    else
      var d := Build(b, rs[..|rs| - 1]);
      match Propose(b, d.account, rs[|rs| - 1])
      case None => d
      case Some(card) => Deck(d.cards + [card], Booked(d.account, card.fund))
  }

  function SharesPromised(cards: seq<Card>, tk: Ticker): real {
    if cards == [] then 0.0 else SharesPromised(cards[..|cards| - 1], tk) + Sold(cards[|cards| - 1].fund.sales, tk)
  }

  function CashPromised(cards: seq<Card>): real {
    if cards == [] then 0.0 else CashPromised(cards[..|cards| - 1]) + cards[|cards| - 1].fund.fromCash
  }

  lemma {:induction false} AddSalesBooksSold(shares: map<Ticker, real>, sales: seq<Sale>, tk: Ticker)
    ensures Reserved(AddSales(shares, sales), tk) == Reserved(shares, tk) + Sold(sales, tk)
  {
    if sales != [] {
      AddSalesBooksSold(shares, sales[..|sales| - 1], tk);
    }
  }

  lemma {:induction false} LedgerIsTheCards(b: Book, rs: seq<Request>, tk: Ticker)
    ensures var d := Build(b, rs);
      Reserved(d.account.shares, tk) == SharesPromised(d.cards, tk) && d.account.cash == CashPromised(d.cards)
  {
    hide Propose, AddSales, Sold;
    if rs != [] {
      var d := Build(b, rs[..|rs| - 1]);
      LedgerIsTheCards(b, rs[..|rs| - 1], tk);
      forall card: Card
        ensures (d.cards + [card])[..|d.cards|] == d.cards
        ensures Reserved(AddSales(d.account.shares, card.fund.sales), tk)
            == Reserved(d.account.shares, tk) + Sold(card.fund.sales, tk)
      {
        AddSalesBooksSold(d.account.shares, card.fund.sales, tk);
      }
    }
  }

  /** Over any set of cards built on one ledger and one book, no share and no shekel is promised twice: the cards'
      sales of a holding total at most what is held, their cash at most what lies above the floor, and no card sells
      the name it buys or one it was told to leave alone. */
  lemma {:induction false} NothingIsPromisedTwice(b: Book, rs: seq<Request>, tk: Ticker)
    ensures var d := Build(b, rs);
      && 0.0 <= SharesPromised(d.cards, tk) <= Held(b.positions, tk)
      && 0.0 <= CashPromised(d.cards) <= Spendable(b)
      && forall c :: c in d.cards && (tk == c.request.ticker || tk in c.request.exclude) ==>
           Sold(c.fund.sales, tk) == 0.0
  {
    hide Propose, Booked, Sold, CashFloor;
    if rs != [] {
      var last := rs[|rs| - 1];
      var d := Build(b, rs[..|rs| - 1]);
      NothingIsPromisedTwice(b, rs[..|rs| - 1], tk);
      LedgerIsTheCards(b, rs[..|rs| - 1], tk);
      if Propose(b, d.account, last).Some? {
        CardTakesOnlyWhatIsLeft(b, d.account, last, tk);
        FreeWithinHeld(b.positions, tk, Reserved(d.account.shares, tk));
        CardNamesItsRequest(b, d.account, last);
        var card := Propose(b, d.account, last).value;
        assert (d.cards + [card])[..|d.cards|] == d.cards;
      }
    }
  }

  lemma CardNamesItsRequest(b: Book, a: Account, r: Request)
    requires Propose(b, a, r).Some?
    ensures Propose(b, a, r).value.request == r
  {
  }

  /** The build as the callers run it: one ledger, one card at a time. */
  method BuildCards(b: Book, rs: seq<Request>) returns (cards: seq<Card>, ledger: FundingLedger)
    ensures fresh(ledger) && Deck(cards, ledger.Value()) == Build(b, rs)
  {
    hide Propose, Booked;
    ledger := new FundingLedger();
    cards := [];
    for k := 0 to |rs|
      invariant fresh(ledger) && Deck(cards, ledger.Value()) == Build(b, rs[..k])
    {
      assert rs[..k + 1][..k] == rs[..k];
      var card := ProposeFundedBuy(b, rs[k], ledger);
      if card.Some? {
        cards := cards + [card.value];
      }
    }
    assert rs[..|rs|] == rs;
  }
}
