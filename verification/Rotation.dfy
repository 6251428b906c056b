/** What the weight-choosing overlays hold on a day, said from the closes. */
module Rotation {
  import opened Basics
  import opened Simulator
  import opened Indicators
  import opened Overlays
  import opened OverlayMeaning

  // ---------------------------------------------------------------- vocabulary

  /** How many times over its close of so many days before a ticker closed. */
  function Change(h: History, tk: Ticker, look: nat, i: nat): real {
    if tk in h.px && look <= i < h.days then h.px[tk][i] as real / h.px[tk][i - look] as real else 0.0
  }

  ghost predicate InPlay(h: History, universe: seq<Ticker>, tk: Ticker) { tk in universe && tk in h.px }

  /** A ticker of the universe that rose. */
  ghost predicate Rose(h: History, universe: seq<Ticker>, look: nat, i: nat, tk: Ticker) {
    InPlay(h, universe, tk) && Change(h, tk, look, i) > 1.0
  }

  ghost predicate IsSafe(safe: Option<Ticker>, target: Target) {
    if safe.Some? then target == [Leg(safe.value, 1.0)] else target == []
  }

  lemma {:induction false} ReturnsAre(h: History, universe: seq<Ticker>, look: nat, i: nat)
    requires look <= i < h.days
    ensures forall r :: r in ReturnsOn(h, universe, look, i) <==>
      InPlay(h, universe, r.ticker) && r.ret == Change(h, r.ticker, look, i) - 1.0
  {
    hide Change;
    if universe != [] {
      ReturnsAre(h, universe[1..], look, i);
      assert forall tk :: tk in universe <==> tk == universe[0] || tk in universe[1..];
      if universe[0] in h.px {
        ReturnIsChange(h, universe[0], look, i);
      }
    }
  }

  lemma ReturnIsChange(h: History, tk: Ticker, look: nat, i: nat)
    requires tk in h.px && look <= i < h.days
    ensures TrailingReturn(h.px[tk], look, i) == Change(h, tk, look, i) - 1.0
  {
  }

  lemma ReturnOf(h: History, universe: seq<Ticker>, look: nat, i: nat, tk: Ticker)
    requires look <= i < h.days && InPlay(h, universe, tk)
    ensures Ranked(tk, Change(h, tk, look, i) - 1.0) in ReturnsOn(h, universe, look, i)
  {
    hide Change, InPlay;
    ReturnsAre(h, universe, look, i);
  }

  // ---------------------------------------------------------------- dual momentum

  /** The whole of one ticker that rose at least as much as any other, or the safe one when none rose. */
  ghost predicate HoldsLeader(h: History, universe: seq<Ticker>, safe: Option<Ticker>, look: nat, i: nat,
                              target: Target) {
    if exists tk :: Rose(h, universe, look, i, tk) then
      exists tk :: Leads(h, universe, look, i, tk) && target == [Leg(tk, 1.0)]
    else IsSafe(safe, target)
  }

  ghost predicate Leads(h: History, universe: seq<Ticker>, look: nat, i: nat, tk: Ticker) {
    && Rose(h, universe, look, i, tk)
    && forall other :: InPlay(h, universe, other) ==> Change(h, other, look, i) <= Change(h, tk, look, i)
  }

  lemma DualTargetHoldsLeader(h: History, universe: seq<Ticker>, safe: Option<Ticker>, look: nat, i: nat)
    requires look <= i < h.days
    ensures HoldsLeader(h, universe, safe, look, i, DualTarget(ReturnsOn(h, universe, look, i), safe))
  {
    hide Change, InPlay;
    var rs := ReturnsOn(h, universe, look, i);
    ReturnsAre(h, universe, look, i);
    if rs != [] {
      LeaderIsTheBest(rs);
      var best := Leader(rs);
      forall other | InPlay(h, universe, other)
        ensures Change(h, other, look, i) <= Change(h, best.ticker, look, i)
      {
        ReturnOf(h, universe, look, i, other);
      }
      if best.ret > 0.0 {
        assert Leads(h, universe, look, i, best.ticker);
      }
    } else {
      forall tk | InPlay(h, universe, tk)
        ensures false
      {
        ReturnOf(h, universe, look, i, tk);
      }
    }
  }

  lemma DualDayIs(h: History, look: nat, universe: seq<Ticker>, safe: Option<Ticker>, i: nat)
    requires i < h.days
    ensures DualMomentumDays(h, look, universe, safe)[i]
         == if i < look then OnlyHolding(safe) else DualTarget(ReturnsOn(h, universe, look, i), safe)
  {
  }

  /** Dual momentum holds the safe ticker while its window fills, then all of the leader, or the safe one when nothing
      rose. */
  lemma DualMomentumHolds(h: History, s: Strategy, num: Numerics, i: nat)
    requires Supplied(h, s) && s.overlay.DualMomentum? && i < h.days
    ensures var r, o := TargetsFor(h, s, num), s.overlay;
      var universe := if o.universe != [] then o.universe else Names(s.weights);
      var safe := if o.safe.Some? then o.safe else s.riskOff;
      && r.Targets? && |r.daily| == h.days
      && if i < o.lookback then IsSafe(safe, r.daily[i]) else HoldsLeader(h, universe, safe, o.lookback, i, r.daily[i])
  {
    hide HoldsLeader, DualTarget, DualMomentumDays;
    var o := s.overlay;
    var universe := if o.universe != [] then o.universe else Names(s.weights);
    var safe := if o.safe.Some? then o.safe else s.riskOff;
    DualDayIs(h, o.lookback, universe, safe, i);
    if i >= o.lookback {
      DualTargetHoldsLeader(h, universe, safe, o.lookback, i);
    }
  }

  // ---------------------------------------------------------------- sector rotation

  /** A day on which the rotation ranks again. */
  predicate Turns(look: nat, hold: Window, r: nat) { r >= look && r % hold == 0 }

  /** The latest such day up to i. */
  ghost predicate LastTurn(look: nat, hold: Window, r: nat, i: nat) {
    r <= i && Turns(look, hold, r) && forall k :: r < k <= i ==> !Turns(look, hold, k)
  }

  /** Equal parts of at most so many tickers that rose, one that rose being passed over only when the places are full of
      ones that did as well; the base when none rose or there are no places. */
  ghost predicate HoldsWinners(h: History, universe: seq<Ticker>, look: nat, i: nat, topN: nat, base: Target,
                               target: Target) {
    if topN == 0 || !exists tk :: Rose(h, universe, look, i, tk) then target == base
    else
      && 0 < |target| <= topN
      && (forall leg :: leg in target ==>
          leg.weight == 1.0 / |target| as real && Rose(h, universe, look, i, leg.ticker))
      && forall tk :: Rose(h, universe, look, i, tk) && !Wants(target, tk) ==>
           |target| == topN && forall leg :: leg in target ==> Change(h, leg.ticker, look, i) >= Change(h, tk, look, i)
  }

  lemma EqualWeightsAre(tks: seq<Ticker>)
    ensures var t := EqualWeights(tks);
      && |t| == |tks| && (forall leg :: leg in t ==> leg.weight == 1.0 / |tks| as real && leg.ticker in tks)
      && forall tk :: tk in tks ==> Wants(t, tk)
  {
    var t := EqualWeights(tks);
    forall tk | tk in tks
      ensures Wants(t, tk)
    {
      var k :| 0 <= k < |tks| && tks[k] == tk;
      assert t[k] in t && t[k].ticker == tk;
    }
  }

  lemma {:induction false} SomeRiser(rs: seq<Ranked>, topN: nat, r: Ranked)
    requires r in rs && r.ret > 0.0 && topN > 0
    ensures Winners(rs, topN) != []
  {
    hide Winners;
    WinnersAreTheBest(rs, topN, r);
  }

  lemma {:induction false} NoneRise(rs: seq<Ranked>)
    requires forall r :: r in rs ==> r.ret <= 0.0
    ensures Risers(rs) == []
  {
    if rs != [] {
      assert rs[0] in rs;
      NoneRise(rs[1..]);
    }
  }

  lemma NoRisers(rs: seq<Ranked>, topN: nat)
    requires topN == 0 || forall r :: r in rs ==> r.ret <= 0.0
    ensures Winners(rs, topN) == []
  {
    SortDescends(rs);
    var sorted := SortRanked(rs);
    var top := if topN <= |sorted| then sorted[..topN] else sorted;
    assert forall q :: q in top ==> q in sorted;
    NoneRise(top);
  }

  lemma SectorTargetHoldsWinners(h: History, universe: seq<Ticker>, look: nat, i: nat, topN: nat, base: Target)
    requires look <= i < h.days
    ensures HoldsWinners(h, universe, look, i, topN, base, SectorTarget(ReturnsOn(h, universe, look, i), topN, base))
  {
    hide Change, Winners, EqualWeights, InPlay;
    var rs := ReturnsOn(h, universe, look, i);
    ReturnsAre(h, universe, look, i);
    var winners := Winners(rs, topN);
    forall tk | Rose(h, universe, look, i, tk)
      ensures Ranked(tk, Change(h, tk, look, i) - 1.0) in rs
      ensures |winners| <= topN && (topN > 0 ==> winners != [])
      ensures tk !in winners ==> |winners| == topN && forall w :: w in winners ==>
                InPlay(h, universe, w) && Change(h, w, look, i) >= Change(h, tk, look, i)
      ensures forall w :: w in winners ==> Rose(h, universe, look, i, w)
    {
      var r := Ranked(tk, Change(h, tk, look, i) - 1.0);
      ReturnOf(h, universe, look, i, tk);
      WinnersAreTheBest(rs, topN, r);
      if topN > 0 {
        SomeRiser(rs, topN, r);
      }
    }
    EqualWeightsAre(winners);
    if topN == 0 || !exists tk :: Rose(h, universe, look, i, tk) {
      forall r | r in rs
        ensures topN == 0 || r.ret <= 0.0
      {
        assert InPlay(h, universe, r.ticker);
        assert topN == 0 || !Rose(h, universe, look, i, r.ticker);
      }
      NoRisers(rs, topN);
    }
  }

  lemma {:induction false} SectorHoldsSince(h: History, look: nat, topN: nat, universe: seq<Ticker>, base: Target,
                                            hold: Window, i: nat)
    requires i < h.days
    ensures var t := SectorHolding(h, look, topN, universe, base, hold, i);
      && (forall r :: LastTurn(look, hold, r, i) ==> HoldsWinners(h, universe, look, r, topN, base, t))
      && ((forall r :: 0 <= r <= i ==> !Turns(look, hold, r)) ==> t == base)
  {
    hide SectorTarget, HoldsWinners;
    if Turns(look, hold, i) {
      SectorTargetHoldsWinners(h, universe, look, i, topN, base);
      forall r | LastTurn(look, hold, r, i)
        ensures r == i
      {
      }
    } else if i > 0 {
      SectorHoldsSince(h, look, topN, universe, base, hold, i - 1);
      forall r | LastTurn(look, hold, r, i)
        ensures LastTurn(look, hold, r, i - 1)
      {
      }
    }
  }

  /** Sector rotation holds what won on the latest day it ranked, and the base before the first. */
  lemma SectorMomentumHolds(h: History, s: Strategy, num: Numerics, i: nat)
    requires Supplied(h, s) && s.weights != [] && s.overlay.SectorMomentum? && i < h.days
    ensures var r, o := TargetsFor(h, s, num), s.overlay;
      var safe := if o.safe.Some? then o.safe else s.riskOff;
      var base := if s.base != [] then s.base else OnlyHolding(safe);
      && r.Targets? && |r.daily| == h.days
      && (forall d :: LastTurn(o.lookback, o.holdDays, d, i) ==>
            HoldsWinners(h, o.universe, o.lookback, d, o.topN, base, r.daily[i]))
      && ((forall d :: 0 <= d <= i ==> !Turns(o.lookback, o.holdDays, d)) ==> r.daily[i] == base)
  {
    hide HoldsWinners, SectorHolding, Turns, LastTurn, OnlyHolding;
    var o := s.overlay;
    var safe := if o.safe.Some? then o.safe else s.riskOff;
    var base := if s.base != [] then s.base else OnlyHolding(safe);
    SectorHoldsSince(h, o.lookback, o.topN, o.universe, base, o.holdDays, i);
  }

  // ---------------------------------------------------------------- constant volatility

  /** While the limits allow it, the exposure asked for carries exactly the volatility aimed at; else it is the
      limit. */
  lemma AskedMeetsTheTarget(vol: real, target: real, cap: real, floor: real)
    requires floor <= cap
    ensures var w := RawWeight(Some(vol), target, cap, floor);
      && floor <= w <= cap
      && (vol > 0.0 && floor * vol <= target <= cap * vol ==> w * vol == target)
      && (vol > 0.0 && target < floor * vol ==> w == floor)
      && (vol <= 0.0 || target > cap * vol ==> w == cap)
  {
    if vol > 0.0 {
      QuotientBetween(target, vol, floor);
      QuotientBetween(target, vol, cap);
    }
  }

  lemma QuotientBetween(x: real, y: real, z: real)
    requires y > 0.0
    ensures x / y * y == x && (x / y < z <==> x < z * y) && (x / y > z <==> x > z * y)
  {
    var q := x / y;
    assert q * y == x;
    OrderTimes(q, z, y);
  }

  lemma OrderTimes(a: real, b: real, y: real)
    requires y > 0.0
    ensures (a < b <==> a * y < b * y) && (a > b <==> a * y > b * y)
  {
    assert (a - b) * y == a * y - b * y;
  }

  lemma {:induction false} PutWeighs(t: Target, tk: Ticker, w: real, x: Ticker)
    ensures Weight(Put(t, tk, w), x) == if x == tk then w else Weight(t, x)
  {
    if t != [] && t[0].ticker != tk {
      PutWeighs(t[1..], tk, w, x);
      assert Put(t, tk, w)[1..] == Put(t[1..], tk, w);
    }
  }

  lemma {:induction false} PutNames(t: Target, tk: Ticker, w: real)
    ensures var r := Put(t, tk, w);
      && |t| <= |r| && (forall i :: 0 <= i < |r| ==> r[i].ticker == if i < |t| then t[i].ticker else tk)
      && (|r| > |t| ==> |r| == |t| + 1 && forall i :: 0 <= i < |t| ==> t[i].ticker != tk)
  {
    if t != [] && t[0].ticker != tk {
      PutNames(t[1..], tk, w);
      var r, rest := Put(t, tk, w), Put(t[1..], tk, w);
      assert r == [t[0]] + rest;
      forall i | 0 <= i < |r|
        ensures r[i].ticker == if i < |t| then t[i].ticker else tk
      {
        if i > 0 {
          assert r[i] == rest[i - 1];
        }
      }
      if |r| > |t| {
        forall i | 0 <= i < |t|
          ensures t[i].ticker != tk
        {
          assert i > 0 ==> t[1..][i - 1] == t[i];
        }
      }
    }
  }

  lemma PutKeepsOne(t: Target, tk: Ticker, w: real)
    requires OneLegEach(t)
    ensures OneLegEach(Put(t, tk, w))
  {
    hide Put;
    PutNames(t, tk, w);
  }

  lemma AddBaseNext(t: Target, base: Target, share: real, x: Ticker) returns (next: Target)
    requires base != [] && OneLegEach(t)
    ensures AddBase(t, base, share) == AddBase(next, base[1..], share) && OneLegEach(next)
    ensures Weight(next, x) == Weight(t, x) + if x == base[0].ticker then base[0].weight * share else 0.0
  {
    var w := Weight(t, base[0].ticker) + base[0].weight * share;
    next := Put(t, base[0].ticker, w);
    PutKeepsOne(t, base[0].ticker, w);
    PutWeighs(t, base[0].ticker, w, x);
  }

  /** Each base entry is added to what is there, in proportion. */
  lemma {:induction false} AddBaseWeighs(t: Target, base: Target, share: real, x: Ticker)
    requires OneLegEach(t) && OneLegEach(base)
    ensures OneLegEach(AddBase(t, base, share))
    ensures Weight(AddBase(t, base, share), x) == Weight(t, x) + Weight(base, x) * share
    decreases |base|
  {
    if base != [] {
      var next := AddBaseNext(t, base, share, x);
      assert OneLegEach(base[1..]);
      AddBaseWeighs(next, base[1..], share, x);
      if x == base[0].ticker {
        NamedOnce(base, x);
        assert Weight(base[1..], x) * share == 0.0;
      }
    }
  }

  lemma NamedOnce(base: Target, x: Ticker)
    requires OneLegEach(base) && base != [] && base[0].ticker == x
    ensures Weight(base[1..], x) == 0.0
  {
    assert !Wants(base[1..], x) by {
      assert forall i :: 0 <= i < |base[1..]| ==> base[1..][i].ticker != x;
    }
    UnwantedWeighsNothing(base[1..], x);
  }

  /** Entries of half a percent or less are left out. */
  lemma {:induction false} KeptWeighs(t: Target, x: Ticker)
    requires OneLegEach(t)
    ensures Weight(Kept(t), x) == if Weight(t, x) > 0.005 then Weight(t, x) else 0.0
  {
    if t != [] {
      assert OneLegEach(t[1..]);
      KeptWeighs(t[1..], x);
      if x == t[0].ticker {
        NamedOnce(t, x);
      }
    }
  }

  /** What the exposure is: kept from the day before while what is asked for stays inside the band around it. */
  ghost predicate KeepsInBand(a: Series, look: nat, target: real, cap: real, floor: real, band: real, num: Numerics,
                              ws: seq<real>, i: nat)
    requires look <= i < |a| == |ws|
  {
    var asked := num.round2(RawWeight(num.vol(WindowReturns(a, look, i)), target, cap, floor));
    ws[i] == if i > look && -band < asked - ws[i - 1] < band then ws[i - 1] else asked
  }

  /** So much of one ticker and the rest of it in the base, entries of half a percent or less left out. */
  ghost predicate Splits(tk: Ticker, base: Target, w: real, target: Target) {
    forall x ::
      var part := (if x == tk then w else 0.0) + Weight(base, x) * (1.0 - w);
      Weight(target, x) == if part > 0.005 then part else 0.0
  }

  lemma VolTargetSplits(tk: Ticker, base: Target, w: real)
    requires OneLegEach(base)
    ensures Splits(tk, base, w, VolTargetOf(tk, Some(w), base))
  {
    var t := [Leg(tk, w)];
    forall x
      ensures var part := (if x == tk then w else 0.0) + Weight(base, x) * (1.0 - w);
        Weight(VolTargetOf(tk, Some(w), base), x) == if part > 0.005 then part else 0.0
    {
      assert Weight(t, x) == if x == tk then w else Weight(t[1..], x);
      AddBaseWeighs(t, base, 1.0 - w, x);
      KeptWeighs(AddBase(t, base, 1.0 - w), x);
    }
  }

  lemma {:induction false} HeldFrom(a: Series, look: nat, target: real, cap: real, floor: real, band: real,
                                    num: Numerics, i: nat)
    requires i <= |a|
    ensures VolHeld(a, look, target, cap, floor, band, num, i).Some? == (i > look)
  {
    if i > look {
      HeldFrom(a, look, target, cap, floor, band, num, i - 1);
    }
  }

  function HeldOr(h: Option<real>): real { if h.Some? then h.value else 0.0 }

  /** Constant volatility holds the base while its window fills, then splits between its ticker and the base by an
      exposure that moves only when what is asked for leaves the band. */
  lemma VolTargetHolds(h: History, s: Strategy, num: Numerics) returns (ws: seq<real>)
    requires Supplied(h, s) && s.weights != [] && s.overlay.VolTarget? && OneLegEach(s.base)
    ensures var r, o := TargetsFor(h, s, num), s.overlay;
      var a := h.px[WatchedTicker(o.gate, s)];
      && r.Targets? && |r.daily| == |ws| == h.days
      && (forall i :: 0 <= i < h.days && i < o.volDays ==> r.daily[i] == OffTarget(s))
      && (forall i :: o.volDays <= i < h.days ==>
            Splits(s.weights[0].ticker, OffTarget(s), ws[i], r.daily[i])
            && KeepsInBand(a, o.volDays, o.targetPct, o.maxWeight, o.minWeight, o.band, num, ws, i))
  {
    hide Splits, RawWeight, WindowReturns, VolTargetOf, OffTarget;
    var o := s.overlay;
    var a, look := h.px[WatchedTicker(o.gate, s)], o.volDays;
    ws := seq(|a|, i requires 0 <= i < |a| =>
      HeldOr(VolHeld(a, look, o.targetPct, o.maxWeight, o.minWeight, o.band, num, i + 1)));
    OffIsOnce(s);
    forall i | 0 <= i < h.days
      ensures i < look ==> TargetsFor(h, s, num).daily[i] == OffTarget(s)
      ensures i >= look ==> Splits(s.weights[0].ticker, OffTarget(s), ws[i], TargetsFor(h, s, num).daily[i])
      ensures i >= look ==> KeepsInBand(a, look, o.targetPct, o.maxWeight, o.minWeight, o.band, num, ws, i)
    {
      HeldFrom(a, look, o.targetPct, o.maxWeight, o.minWeight, o.band, num, i);
      HeldFrom(a, look, o.targetPct, o.maxWeight, o.minWeight, o.band, num, i + 1);
      VolTargetSplits(s.weights[0].ticker, OffTarget(s), ws[i]);
      NoneIsBase(s.weights[0].ticker, OffTarget(s));
    }
  }

  lemma NoneIsBase(tk: Ticker, base: Target)
    ensures VolTargetOf(tk, None, base) == base
  {
  }

  lemma OffIsOnce(s: Strategy)
    requires OneLegEach(s.base)
    ensures OneLegEach(OffTarget(s))
  {
  }
}
