/** Accepting a redeployment: every leg bought out of cash at live prices. */
module RedeployAccept {
  import opened Basics
  import opened Redeploy

  datatype Lot = Lot(quantity: real, basis: real, price: real)
  datatype Quote = Quote(price: real, rate: real)
  datatype Receipt = Receipt(ticker: Ticker, shares: real, price: real, amount: real)

  /** The book while the legs are worked through.  A new name makes the call that would store it fail, which ends the
      run with nothing kept. */
  datatype Progress = Running(cash: real, lots: map<Ticker, Lot>, bought: seq<Receipt>, skipped: seq<Ticker>) | Broken

  /** How a share count is rounded for storage. */
  type Rounding = real -> real

  function PriceIls(q: Quote): real { q.price * q.rate }

  function SharesFor(round: Rounding, amount: real, q: Quote): real
    requires PriceIls(q) > 0.0
  {
    round(amount / PriceIls(q))
  }

  /** There is a live price, and the amount is worth some of a share at it. */
  predicate Buyable(quotes: map<Ticker, Quote>, round: Rounding, leg: Leg) {
    leg.ticker in quotes && PriceIls(quotes[leg.ticker]) > 0.0 && SharesFor(round, leg.amount, quotes[leg.ticker]) > 0.0
  }

  function Blend(quantity: real, basis: real, shares: real, price: real): real {
    if quantity + shares > 0.0 then (quantity * basis + shares * price) / (quantity + shares) else basis
  }

  function TopUpLot(lot: Lot, shares: real, price: real): Lot {
    Lot(lot.quantity + shares, Blend(lot.quantity, lot.basis, shares, price), price)
  }

  function Buy(p: Progress, leg: Leg, quotes: map<Ticker, Quote>, round: Rounding): Progress {
    if p.Broken? || leg.ticker == "" || leg.amount <= 0.0 then p
    else if leg.amount > p.cash || !Buyable(quotes, round, leg) then p.(skipped := p.skipped + [leg.ticker])
    else if leg.ticker !in p.lots then Broken
    else
      var q := quotes[leg.ticker];
      var shares := SharesFor(round, leg.amount, q);
      Running(p.cash - leg.amount, p.lots[leg.ticker := TopUpLot(p.lots[leg.ticker], shares, q.price)],
              p.bought + [Receipt(leg.ticker, shares, q.price, leg.amount)], p.skipped)
  }

  function BuyAll(p: Progress, legs: seq<Leg>, quotes: map<Ticker, Quote>, round: Rounding): Progress {
    if legs == [] then p else Buy(BuyAll(p, legs[..|legs| - 1], quotes, round), legs[|legs| - 1], quotes, round)
  }

  /** The tracked book of one user. */
  class Account {
    var cash: real
    var lots: map<Ticker, Lot>

    /** Buys what it can; returns nothing, and changes nothing, when a leg cannot be stored. */
    method AcceptRedeploy(legs: seq<Leg>, quotes: map<Ticker, Quote>, round: Rounding) returns (done: Option<Progress>)
      modifies this
      ensures var run := BuyAll(Running(old(cash), old(lots), [], []), legs, quotes, round);
        if run.Broken? then done == None && cash == old(cash) && lots == old(lots)
        else done == Some(run) && cash == Max(0.0, run.cash) && lots == run.lots
    {
      hide Buyable, SharesFor, TopUpLot;
      ghost var start := Running(cash, lots, [], []);
      var left, held, bought, skipped := cash, lots, [], [];
      for k := 0 to |legs|
        invariant cash == old(cash) && lots == old(lots)
        invariant Running(left, held, bought, skipped) == BuyAll(start, legs[..k], quotes, round)
      {
        var leg := legs[k];
        assert legs[..k + 1][..k] == legs[..k];
        if leg.ticker == "" || leg.amount <= 0.0 {
          continue;
        }
        if leg.amount > left || !Buyable(quotes, round, leg) {
          skipped := skipped + [leg.ticker];
          continue;
        }
        if leg.ticker !in held {
          BrokenStays(start, legs, k + 1, quotes, round);
          return None;
        }
        BuyableIsQuoted(quotes, round, leg);
        var q := quotes[leg.ticker];
        var shares := SharesFor(round, leg.amount, q);
        held := held[leg.ticker := TopUpLot(held[leg.ticker], shares, q.price)];
        left := left - leg.amount;
        bought := bought + [Receipt(leg.ticker, shares, q.price, leg.amount)];
      }
      assert legs[..|legs|] == legs;
      cash, lots := Max(0.0, left), held;
      done := Some(Running(left, held, bought, skipped));
    }
  }

  lemma BuyableIsQuoted(quotes: map<Ticker, Quote>, round: Rounding, leg: Leg)
    requires Buyable(quotes, round, leg)
    ensures leg.ticker in quotes && PriceIls(quotes[leg.ticker]) > 0.0
  {
  }

  lemma {:induction false} BrokenStays(p: Progress, legs: seq<Leg>, n: nat, quotes: map<Ticker, Quote>, round: Rounding)
    requires n <= |legs| && BuyAll(p, legs[..n], quotes, round).Broken?
    ensures BuyAll(p, legs, quotes, round).Broken?
    decreases |legs| - n
  {
    hide Buyable;
    if n == |legs| {
      assert legs[..n] == legs;
    } else {
      assert legs[..|legs| - 1][..n] == legs[..n];
      BrokenStays(p, legs[..|legs| - 1], n, quotes, round);
    }
  }

  // ---------------------------------------------------------------- cash

  function Spent(bought: seq<Receipt>): real {
    if bought == [] then 0.0 else Spent(bought[..|bought| - 1]) + bought[|bought| - 1].amount
  }

  lemma SpentAppend(bought: seq<Receipt>, r: Receipt)
    ensures Spent(bought + [r]) == Spent(bought) + r.amount
  {
  }

  /** Whatever prices have done since, what leaves cash is what was bought, and it is never more than there was. */
  lemma {:induction false} CashPaysForWhatIsBought(p: Progress, legs: seq<Leg>, quotes: map<Ticker, Quote>,
                                                   round: Rounding)
    requires p.Running? && p.cash >= 0.0 && p.bought == []
    ensures var run := BuyAll(p, legs, quotes, round);
      run.Running? ==> run.cash == p.cash - Spent(run.bought) && 0.0 <= run.cash <= p.cash
  {
    hide Buyable, TopUpLot;
    if legs != [] {
      var m, leg := BuyAll(p, legs[..|legs| - 1], quotes, round), legs[|legs| - 1];
      CashPaysForWhatIsBought(p, legs[..|legs| - 1], quotes, round);
      if m.Running? && Buyable(quotes, round, leg) {
        BuyableIsQuoted(quotes, round, leg);
        var q := quotes[leg.ticker];
        SpentAppend(m.bought, Receipt(leg.ticker, SharesFor(round, leg.amount, q), q.price, leg.amount));
      }
    }
  }

  predicate AllPositive(legs: seq<Leg>) { forall i :: 0 <= i < |legs| ==> legs[i].ticker != "" && legs[i].amount > 0.0 }

  ghost predicate HasReceipt(bought: seq<Receipt>, leg: Leg) {
    exists i :: 0 <= i < |bought| && bought[i].ticker == leg.ticker && bought[i].amount == leg.amount
  }

  lemma OneBuy(m: Progress, leg: Leg, quotes: map<Ticker, Quote>, round: Rounding)
    requires m.Running? && leg.ticker != "" && 0.0 < leg.amount <= m.cash
    ensures var r := Buy(m, leg, quotes, round);
      && r.Running? == (!Buyable(quotes, round, leg) || leg.ticker in m.lots)
      && (r.Running? ==> m.cash - leg.amount <= r.cash && r.lots.Keys == m.lots.Keys)
      && (r.Running? && Buyable(quotes, round, leg) ==> HasReceipt(r.bought, leg))
      && (r.Running? ==> m.bought <= r.bought)
  {
    hide SharesFor, TopUpLot, PriceIls;
    if Buyable(quotes, round, leg) && leg.ticker in m.lots {
      BuyableIsQuoted(quotes, round, leg);
      hide Buyable;
      assert Buy(m, leg, quotes, round).bought[|m.bought|].amount == leg.amount;
    }
  }

  /** With cash for all of its legs, a plan buys every one that has a price: it goes through exactly when each of
      those is for a name already held, and then leaves at least what the plan left. */
  lemma {:induction false} AcceptGoesThroughIff(p: Progress, legs: seq<Leg>, quotes: map<Ticker, Quote>,
                                                round: Rounding)
    requires p.Running? && AllPositive(legs) && Total(legs) <= p.cash
    ensures var run := BuyAll(p, legs, quotes, round);
      && run.Running? == (forall i :: 0 <= i < |legs| && Buyable(quotes, round, legs[i]) ==> legs[i].ticker in p.lots)
      && (run.Running? ==> run.cash >= p.cash - Total(legs) && run.lots.Keys == p.lots.Keys)
      && (run.Running? ==> forall i :: 0 <= i < |legs| && Buyable(quotes, round, legs[i]) ==>
          HasReceipt(run.bought, legs[i]))
  {
    hide Buyable, Buy, HasReceipt;
    if legs != [] {
      var n := |legs| - 1;
      var m, run := BuyAll(p, legs[..n], quotes, round), BuyAll(p, legs, quotes, round);
      AcceptGoesThroughIff(p, legs[..n], quotes, round);
      if m.Running? {
        OneBuy(m, legs[n], quotes, round);
        if run.Running? {
          ReceiptsStay(m.bought, run.bought);
        }
      } else {
        BrokenStays(p, legs, n, quotes, round);
      }
    }
  }

  lemma ReceiptsStay(a: seq<Receipt>, b: seq<Receipt>)
    requires a <= b
    ensures forall leg :: HasReceipt(a, leg) ==> HasReceipt(b, leg)
  {
  }

  /** Accepting the plan on the cash it was made for ends at that cash less what was bought, at or above the floor. */
  lemma AcceptKeepsTheFloor(d: Facts, cash: real, floor: real, lots: map<Ticker, Lot>, quotes: map<Ticker, Quote>,
                            round: Rounding)
    requires cash >= 0.0 && floor >= 0.0 && d.spendable == Max(0.0, cash - floor)
    requires forall leg :: leg in Redeploy.Redeploy(d).legs ==> leg.ticker != ""
    ensures var run := BuyAll(Running(cash, lots, [], []), Redeploy.Redeploy(d).legs, quotes, round);
      run.Running? ==> run.cash == cash - Spent(run.bought) && run.cash >= Min(cash, floor)
  {
    hide Redeploy.Redeploy, BuyAll, Spent, FitsCap;
    var legs := Redeploy.Redeploy(d).legs;
    RedeployIsSound(d);
    assert forall i :: 0 <= i < |legs| ==> legs[i] in legs;
    AcceptGoesThroughIff(Running(cash, lots, [], []), legs, quotes, round);
    CashPaysForWhatIsBought(Running(cash, lots, [], []), legs, quotes, round);
  }

  // ---------------------------------------------------------------- cost basis

  function BoughtShares(bought: seq<Receipt>, tk: Ticker): real {
    if bought == [] then 0.0
    else BoughtShares(bought[..|bought| - 1], tk)
         + (if bought[|bought| - 1].ticker == tk then bought[|bought| - 1].shares else 0.0)
  }

  function BoughtCost(bought: seq<Receipt>, tk: Ticker): real {
    if bought == [] then 0.0
    else
      var last := bought[|bought| - 1];
      BoughtCost(bought[..|bought| - 1], tk) + (if last.ticker == tk then Outlay(last.shares, last.price) else 0.0)
  }

  function Outlay(shares: real, price: real): real { shares * price }
  function Cost(lot: Lot): real { Outlay(lot.quantity, lot.basis) }

  lemma TopUpKeepsCost(lot: Lot, shares: real, price: real)
    requires lot.quantity >= 0.0 && shares > 0.0
    ensures Cost(TopUpLot(lot, shares, price)) == Cost(lot) + Outlay(shares, price)
  {
  }

  lemma BoughtAppend(bought: seq<Receipt>, r: Receipt, tk: Ticker)
    ensures BoughtShares(bought + [r], tk) == BoughtShares(bought, tk) + (if r.ticker == tk then r.shares else 0.0)
    ensures BoughtCost(bought + [r], tk)
        == BoughtCost(bought, tk) + (if r.ticker == tk then Outlay(r.shares, r.price) else 0.0)
  {
  }

  /** Topping up keeps the books: a holding gains the shares bought, and its cost gains what they cost, however many
      legs touch it. */
  lemma {:induction false} BasisFollowsTheMoney(p: Progress, legs: seq<Leg>, quotes: map<Ticker, Quote>,
                                                round: Rounding, tk: Ticker)
    requires p.Running? && p.bought == [] && tk in p.lots && p.lots[tk].quantity >= 0.0
    ensures var run := BuyAll(p, legs, quotes, round);
      run.Running? ==>
        && tk in run.lots && run.lots[tk].quantity >= p.lots[tk].quantity
        && run.lots[tk].quantity == p.lots[tk].quantity + BoughtShares(run.bought, tk)
        && Cost(run.lots[tk]) == Cost(p.lots[tk]) + BoughtCost(run.bought, tk)
  {
    hide Outlay, SharesFor, PriceIls, Blend;
    if legs != [] {
      var m, leg := BuyAll(p, legs[..|legs| - 1], quotes, round), legs[|legs| - 1];
      BasisFollowsTheMoney(p, legs[..|legs| - 1], quotes, round, tk);
      if m.Running? && leg.ticker != "" && 0.0 < leg.amount <= m.cash && Buyable(quotes, round, leg)
         && leg.ticker in m.lots {
        OneBuyKeepsCost(m, leg, quotes, round, tk);
      }
    }
  }

  lemma OneBuyKeepsCost(m: Progress, leg: Leg, quotes: map<Ticker, Quote>, round: Rounding, tk: Ticker)
    requires m.Running? && leg.ticker != "" && 0.0 < leg.amount <= m.cash && Buyable(quotes, round, leg) &&
        leg.ticker in m.lots
    requires tk in m.lots && m.lots[tk].quantity >= 0.0
    ensures var r := Buy(m, leg, quotes, round);
      && r.Running? && tk in r.lots && r.lots[tk].quantity >= m.lots[tk].quantity
      && r.lots[tk].quantity - m.lots[tk].quantity == BoughtShares(r.bought, tk) - BoughtShares(m.bought, tk)
      && Cost(r.lots[tk]) - Cost(m.lots[tk]) == BoughtCost(r.bought, tk) - BoughtCost(m.bought, tk)
  {
    var q := quotes[leg.ticker];
    var shares := SharesFor(round, leg.amount, q);
    assert shares > 0.0;
    hide Blend, PriceIls, SharesFor, Outlay, BoughtShares, BoughtCost, Buyable;
    BoughtAppend(m.bought, Receipt(leg.ticker, shares, q.price, leg.amount), tk);
    if tk == leg.ticker {
      TopUpKeepsCost(m.lots[tk], shares, q.price);
    }
  }

  // ---------------------------------------------------------------- what is bought is worth what leaves cash

  /** A share count is stored to within so much of itself. */
  ghost predicate RoundsWithin(round: Rounding, e: real) {
    e >= 0.0 && forall x :: x - e <= round(x) <= x + e
  }

  /** What the tickers listed are worth at the live prices. */
  function WorthAt(tks: seq<Ticker>, lots: map<Ticker, Lot>, quotes: map<Ticker, Quote>): real {
    if tks == [] then 0.0
    else
      WorthAt(tks[1..], lots, quotes)
      + (if tks[0] in lots && tks[0] in quotes then Outlay(lots[tks[0]].quantity, PriceIls(quotes[tks[0]])) else 0.0)
  }

  /** What rounding may add or take away over these purchases. */
  function Slack(bought: seq<Receipt>, quotes: map<Ticker, Quote>, e: real): real {
    if bought == [] then 0.0
    else
      var last := bought[|bought| - 1];
      Slack(bought[..|bought| - 1], quotes, e)
      + (if last.ticker in quotes then Outlay(e, PriceIls(quotes[last.ticker])) else 0.0)
  }

  lemma SlackAppend(bought: seq<Receipt>, r: Receipt, quotes: map<Ticker, Quote>, e: real)
    ensures Slack(bought + [r], quotes, e)
         == Slack(bought, quotes, e) + (if r.ticker in quotes then Outlay(e, PriceIls(quotes[r.ticker])) else 0.0)
  {
  }

  lemma {:induction false} WorthAtIgnores(tks: seq<Ticker>, lots: map<Ticker, Lot>, tk: Ticker, lot: Lot,
                                          quotes: map<Ticker, Quote>)
    requires tk !in tks
    ensures WorthAt(tks, lots[tk := lot], quotes) == WorthAt(tks, lots, quotes)
  {
    hide Outlay, PriceIls;
    if tks != [] {
      WorthAtIgnores(tks[1..], lots, tk, lot, quotes);
    }
  }

  lemma {:induction false} WorthAtUpdate(tks: seq<Ticker>, lots: map<Ticker, Lot>, tk: Ticker, lot: Lot,
                                         quotes: map<Ticker, Quote>)
    requires NoDup(tks) && tk in tks && tk in lots && tk in quotes
    ensures WorthAt(tks, lots[tk := lot], quotes)
         == WorthAt(tks, lots, quotes) + Outlay(lot.quantity, PriceIls(quotes[tk]))
            - Outlay(lots[tk].quantity, PriceIls(quotes[tk]))
  {
    hide Outlay, PriceIls;
    assert NoDup(tks[1..]) && tks[0] !in tks[1..];
    if tks[0] == tk {
      WorthAtIgnores(tks[1..], lots, tk, lot, quotes);
    } else {
      WorthAtUpdate(tks[1..], lots, tk, lot, quotes);
    }
  }

  /** What is bought for an amount is worth it, to within the rounding. */
  lemma SharesAreWorth(round: Rounding, amount: real, q: Quote, e: real)
    requires RoundsWithin(round, e) && PriceIls(q) > 0.0
    ensures amount - Outlay(e, PriceIls(q)) <= Outlay(SharesFor(round, amount, q), PriceIls(q))
            <= amount + Outlay(e, PriceIls(q))
  {
    var price := PriceIls(q);
    hide PriceIls;
    var x := amount / price;
    assert x * price == amount;
    OutlayOrder(x - e, round(x), price);
    OutlayOrder(round(x), x + e, price);
    OutlaySum(x, e, price);
  }

  lemma OutlayOrder(x: real, y: real, price: real)
    requires x <= y && price > 0.0
    ensures Outlay(x, price) <= Outlay(y, price)
  {
  }

  lemma OutlaySum(x: real, y: real, price: real)
    ensures Outlay(x + y, price) == Outlay(x, price) + Outlay(y, price)
    ensures Outlay(x - y, price) == Outlay(x, price) - Outlay(y, price)
  {
  }

  /** Accepting only turns cash into holdings: cash and holdings together are worth, at the live prices, what they were
      before, to within what storing the share counts rounds off. */
  lemma {:induction false} AcceptKeepsValue(p: Progress, legs: seq<Leg>, quotes: map<Ticker, Quote>, round: Rounding,
                                            tks: seq<Ticker>, e: real)
    requires p.Running? && p.bought == [] && RoundsWithin(round, e) && NoDup(tks)
    requires forall tk :: tk in p.lots ==> tk in tks
    ensures var run := BuyAll(p, legs, quotes, round);
      run.Running? ==>
        && run.lots.Keys == p.lots.Keys
        && (var change := (run.cash + WorthAt(tks, run.lots, quotes)) - (p.cash + WorthAt(tks, p.lots, quotes));
            -Slack(run.bought, quotes, e) <= change <= Slack(run.bought, quotes, e))
  {
    hide Outlay, SharesFor, PriceIls, Blend, RoundsWithin, Buyable, WorthAt, Slack, Buy;
    if legs == [] {
      NothingSlips(quotes, e);
    } else {
      var m, leg := BuyAll(p, legs[..|legs| - 1], quotes, round), legs[|legs| - 1];
      AcceptKeepsValue(p, legs[..|legs| - 1], quotes, round, tks, e);
      if m.Running? {
        OneBuyKeepsValue(m, leg, quotes, round, tks, e);
      } else {
        BrokenStays(p, legs, |legs| - 1, quotes, round);
      }
    }
  }

  lemma NothingSlips(quotes: map<Ticker, Quote>, e: real)
    ensures Slack([], quotes, e) == 0.0
  {
  }

  lemma OneBuyKeepsValue(m: Progress, leg: Leg, quotes: map<Ticker, Quote>, round: Rounding, tks: seq<Ticker>, e: real)
    requires m.Running? && RoundsWithin(round, e) && NoDup(tks) && forall tk :: tk in m.lots ==> tk in tks
    ensures var r := Buy(m, leg, quotes, round);
      r.Running? ==>
        && r.lots.Keys == m.lots.Keys
        && (var change := (r.cash + WorthAt(tks, r.lots, quotes)) - (m.cash + WorthAt(tks, m.lots, quotes));
            var slack := Slack(r.bought, quotes, e) - Slack(m.bought, quotes, e);
            -slack <= change <= slack)
  {
    hide Outlay, SharesFor, PriceIls, Blend, RoundsWithin, Buyable, WorthAt, Slack;
    if leg.ticker != "" && 0.0 < leg.amount <= m.cash && Buyable(quotes, round, leg) && leg.ticker in m.lots {
      BuyableIsQuoted(quotes, round, leg);
      var q, lot := quotes[leg.ticker], m.lots[leg.ticker];
      var shares := SharesFor(round, leg.amount, q);
      WorthAtUpdate(tks, m.lots, leg.ticker, TopUpLot(lot, shares, q.price), quotes);
      SlackAppend(m.bought, Receipt(leg.ticker, shares, q.price, leg.amount), quotes, e);
      SharesAreWorth(round, leg.amount, q, e);
      OutlaySum(lot.quantity, shares, PriceIls(q));
    }
  }

  /** With share counts stored exactly, a leg can be bought exactly when it has a live price and is for something. */
  lemma BuyableIff(quotes: map<Ticker, Quote>, round: Rounding, leg: Leg)
    requires RoundsWithin(round, 0.0)
    ensures Buyable(quotes, round, leg) <==>
      leg.ticker in quotes && quotes[leg.ticker].price * quotes[leg.ticker].rate > 0.0 && leg.amount > 0.0
  {
    if leg.ticker in quotes && PriceIls(quotes[leg.ticker]) > 0.0 {
      var price := PriceIls(quotes[leg.ticker]);
      var x := leg.amount / price;
      assert x * price == leg.amount;
    }
  }
}
