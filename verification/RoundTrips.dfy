/** What the simulator records of each round trip: the closes it was opened and finished at, and how long it took. */
module RoundTrips {
  import opened Basics
  import opened Simulator

  function Winning(pnl: seq<real>): nat {
    if pnl == [] then 0 else Winning(pnl[..|pnl| - 1]) + (if pnl[|pnl| - 1] > 0.0 then 1 else 0)
  }

  /** The percentage one ticker's close changed by between two days so far apart, the later before day n. */
  ghost predicate RealTrip(px: Closes, pnl: real, days: int, n: nat) {
    exists tk, d: nat :: TripOf(px, tk, d, pnl, days, n)
  }

  ghost predicate TripOf(px: Closes, tk: Ticker, d: nat, pnl: real, days: int, n: nat) {
    && 0 <= days && tk in px && d + days < n && d + days < |px[tk]|
    && pnl == (px[tk][d + days] as real / px[tk][d] as real - 1.0) * 100.0
  }

  /** Every holding carries the day it was opened, before day n, and that day's close. */
  ghost predicate Opened(px: Closes, s: State, n: nat)
    requires Coherent(s)
  {
    forall tk :: tk in s.order ==>
      && tk in px && 0 <= s.entryDay[tk] < n && s.entryDay[tk] < |px[tk]|
      && s.entryPx[tk] == px[tk][s.entryDay[tk]] as real
  }

  ghost predicate Recorded(px: Closes, s: State, n: nat) {
    && |s.tripPnl| == |s.tripDays| == s.closed && s.wins == Winning(s.tripPnl)
    && forall k :: 0 <= k < |s.tripPnl| ==> RealTrip(px, s.tripPnl[k], s.tripDays[k], n)
  }

  // ---------------------------------------------------------------- steps

  lemma BookSaleKeepsTrips(px: Closes, s: State, tk: Ticker, sale: Sale, n: nat)
    requires Coherent(s) && tk in s.shares && Opened(px, s, n) && Recorded(px, s, n)
    ensures var r := BookSale(s, tk, sale); Opened(px, r, n) && Recorded(px, r, n)
  {
    hide NoDup, RealTrip;
  }

  lemma RosePositive(p: Price, ep: Price)
    ensures p > ep <==> (p as real / ep as real - 1.0) * 100.0 > 0.0
  {
    var ratio := p as real / ep as real;
    assert ratio * ep == p as real;
    assert (ratio - 1.0) * ep == p as real - ep as real;
    SignTimes(ratio - 1.0, ep);
  }

  lemma SignTimes(x: real, p: Price)
    ensures x * p > 0.0 <==> x > 0.0
  {
  }

  lemma CloseRecords(px: Closes, s: State, tk: Ticker, day: nat)
    requires Coherent(s) && tk in s.shares && tk in px && day < |px[tk]|
    requires Opened(px, s, day + 1) && Recorded(px, s, day + 1)
    ensures var r := Close(s, tk, px[tk][day], day); Opened(px, r, day + 1) && Recorded(px, r, day + 1)
  {
    hide NoDup, Worth, RealTrip, Winning;
    var d: nat := s.entryDay[tk];
    var r := Close(s, tk, px[tk][day], day);
    var pnl := (px[tk][day] as real / px[tk][d] as real - 1.0) * 100.0;
    RosePositive(px[tk][day], px[tk][d]);
    assert r.tripPnl == s.tripPnl + [pnl] && r.tripDays == s.tripDays + [day - d];
    WinningAppend(s.tripPnl, pnl);
    assert TripOf(px, tk, d, pnl, day - d, day + 1);
    TripIsReal(px, tk, d, pnl, day - d, day + 1);
  }

  lemma TripIsReal(px: Closes, tk: Ticker, d: nat, pnl: real, days: int, n: nat)
    requires TripOf(px, tk, d, pnl, days, n)
    ensures RealTrip(px, pnl, days, n)
  {
  }

  lemma WinningAppend(pnl: seq<real>, x: real)
    ensures Winning(pnl + [x]) == Winning(pnl) + if x > 0.0 then 1 else 0
  {
    assert (pnl + [x])[..|pnl|] == pnl;
  }

  lemma SellStepRecords(px: Closes, s: State, tk: Ticker, want: Target, value: real, day: nat, t: Terms)
    requires Coherent(s) && tk in s.shares && tk in px && day < |px[tk]|
    requires Opened(px, s, day + 1) && Recorded(px, s, day + 1)
    ensures var r := SellStep(s, tk, want, value, QuotesOn(px, day), day, t);
      Opened(px, r, day + 1) && Recorded(px, r, day + 1)
  {
    hide NoDup, Opened, Recorded, Worth, Excess, Negligible, Dust, SaleOf, BookSale, Close;
    var p := px[tk][day];
    var excess := Excess(s.shares[tk], p, Weight(want, tk), value);
    var sale := SaleOf(excess, Get(s.basis, tk, p), s.lossBank, p, t);
    BookSaleKeepsTrips(px, s, tk, sale, day + 1);
    CloseRecords(px, BookSale(s, tk, sale), tk, day);
  }

  lemma BuyStepRecords(px: Closes, s: State, leg: Leg, value: real, day: nat, t: Terms)
    requires Coherent(s) && leg.ticker in px && day < |px[leg.ticker]|
    requires Opened(px, s, day + 1) && Recorded(px, s, day + 1)
    ensures var r := BuyStep(s, leg, value, QuotesOn(px, day), day, t);
      Opened(px, r, day + 1) && Recorded(px, r, day + 1)
  {
    hide NoDup, RealTrip, Winning, Worth, Excess, Negligible, PurchaseOf;
  }

  // ---------------------------------------------------------------- days and runs

  lemma {:induction false} SellAllRecords(px: Closes, s: State, tks: seq<Ticker>, want: Target, value: real, day: nat,
                                          t: Terms)
    requires Coherent(s) && NoDup(tks) && forall tk :: tk in tks ==> tk in s.order && tk in px && day < |px[tk]|
    requires Opened(px, s, day + 1) && Recorded(px, s, day + 1)
    ensures Quoted(tks, QuotesOn(px, day))
    ensures var r := SellAll(s, tks, want, value, QuotesOn(px, day), day, t);
      Opened(px, r, day + 1) && Recorded(px, r, day + 1)
    decreases |tks|
  {
    hide SellStep, Opened, Recorded;
    if tks != [] {
      var n := |tks| - 1;
      SellAllRecords(px, s, tks[..n], want, value, day, t);
      SellStepRecords(px, SellAll(s, tks[..n], want, value, QuotesOn(px, day), day, t), tks[n], want, value, day, t);
    }
  }

  lemma {:induction false} BuyAllRecords(px: Closes, s: State, want: Target, value: real, day: nat, t: Terms)
    requires Coherent(s) && forall leg :: leg in want ==> leg.ticker in px && day < |px[leg.ticker]|
    requires Opened(px, s, day + 1) && Recorded(px, s, day + 1)
    ensures TargetQuoted(want, QuotesOn(px, day))
    ensures var r := BuyAll(s, want, value, QuotesOn(px, day), day, t);
      Opened(px, r, day + 1) && Recorded(px, r, day + 1)
    decreases |want|
  {
    hide BuyStep, Opened, Recorded;
    if want != [] {
      var n := |want| - 1;
      assert want[n] in want;
      BuyAllRecords(px, s, want[..n], value, day, t);
      BuyStepRecords(px, BuyAll(s, want[..n], value, QuotesOn(px, day), day, t), want[n], value, day, t);
    }
  }

  lemma LaterStillHolds(px: Closes, s: State, n: nat)
    requires Coherent(s) && Opened(px, s, n) && Recorded(px, s, n)
    ensures Opened(px, s, n + 1) && Recorded(px, s, n + 1)
  {
    hide NoDup, Winning;
    forall k | 0 <= k < |s.tripPnl|
      ensures RealTrip(px, s.tripPnl[k], s.tripDays[k], n + 1)
    {
      var tk, d: nat :| TripOf(px, tk, d, s.tripPnl[k], s.tripDays[k], n);
      assert TripOf(px, tk, d, s.tripPnl[k], s.tripDays[k], n + 1);
    }
  }

  /** Over every run each holding carries the close it was opened at, every finished round trip is recorded once with
      the percentage its ticker moved from that close to the one it was finished at and the days between them, and the
      wins are those that rose. */
  lemma {:induction false} RunRecordsTrips(px: Closes, targets: seq<Target>, t: Terms, n: nat)
    requires Covers(px, targets) && n <= |targets|
    ensures var s := After(px, targets, t, n); Opened(px, s, n) && Recorded(px, s, n)
  {
    hide Opened, Recorded, DriftOf, Equity, SellAll, BuyAll;
    if n == 0 {
      NothingRecorded(px);
    } else {
      RunRecordsTrips(px, targets, t, n - 1);
      WantIsListed(px, targets, n - 1);
      var s, want := After(px, targets, t, n - 1), WantOn(targets, n - 1);
      var value := Equity(s, QuotesOn(px, n - 1));
      LaterStillHolds(px, s, n - 1);
      SellAllRecords(px, s, s.order, want, value, n - 1, t);
      BuyAllRecords(px, SellAll(s, s.order, want, value, QuotesOn(px, n - 1), n - 1, t), want, value, n - 1, t);
    }
  }

  lemma NothingRecorded(px: Closes)
    ensures Opened(px, START, 0) && Recorded(px, START, 0)
  {
  }
}
