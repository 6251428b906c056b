/** The backtest end to end: overlay, regime gate and simulator together. */
module Backtest {
  import opened Basics
  import opened Indicators
  import opened Simulator
  import opened OverlayMeaning
  import opened Overlays
  import opened Regime
  import opened Causality
  import opened Lookahead

  // ---------------------------------------------------------------- plans name only supplied tickers

  ghost predicate Within(t: Target, tks: set<Ticker>) {
    forall leg :: leg in t ==> leg.ticker in tks
  }

  lemma {:induction false} ReturnsWithin(h: History, universe: seq<Ticker>, look: nat, i: nat)
    requires look <= i < h.days
    ensures forall r :: r in ReturnsOn(h, universe, look, i) ==> r.ticker in h.px
  {
    if universe != [] {
      ReturnsWithin(h, universe[1..], look, i);
    }
  }

  lemma SectorTargetWithin(rs: seq<Ranked>, topN: nat, base: Target, tks: set<Ticker>)
    requires forall r :: r in rs ==> r.ticker in tks
    requires Within(base, tks)
    ensures Within(SectorTarget(rs, topN, base), tks)
  {
    SortDescends(rs);
    var sorted := SortRanked(rs);
    var top := if topN <= |sorted| then sorted[..topN] else sorted;
    RisersRise(top);
    assert forall tk :: tk in Winners(rs, topN) ==> tk in tks;
  }

  lemma {:induction false} SectorWithin(h: History, look: nat, topN: nat, universe: seq<Ticker>, base: Target,
                                        hold: Window, i: nat)
    requires i < h.days && Within(base, h.px.Keys)
    ensures Within(SectorHolding(h, look, topN, universe, base, hold, i), h.px.Keys)
  {
    hide SectorTarget;
    if i >= look && i % hold == 0 {
      ReturnsWithin(h, universe, look, i);
      SectorTargetWithin(ReturnsOn(h, universe, look, i), topN, base, h.px.Keys);
    } else if i > 0 {
      SectorWithin(h, look, topN, universe, base, hold, i - 1);
    }
  }

  lemma {:induction false} PutWithin(t: Target, tk: Ticker, w: real, tks: set<Ticker>)
    requires Within(t, tks) && tk in tks
    ensures Within(Put(t, tk, w), tks)
  {
    if t != [] && t[0].ticker != tk {
      PutWithin(t[1..], tk, w, tks);
    }
  }

  lemma {:induction false} AddBaseWithin(t: Target, base: Target, share: real, tks: set<Ticker>)
    requires Within(t, tks) && Within(base, tks)
    ensures Within(AddBase(t, base, share), tks)
    decreases |base|
  {
    if base != [] {
      var w := Weight(t, base[0].ticker) + base[0].weight * share;
      assert base[0] in base;
      PutWithin(t, base[0].ticker, w, tks);
      AddBaseWithin(Put(t, base[0].ticker, w), base[1..], share, tks);
    }
  }

  lemma {:induction false} KeptWithin(t: Target, tks: set<Ticker>)
    requires Within(t, tks)
    ensures Within(Kept(t), tks)
  {
    if t != [] {
      KeptWithin(t[1..], tks);
    }
  }

  lemma VolTargetWithin(tk: Ticker, held: Option<real>, base: Target, tks: set<Ticker>)
    requires tk in tks && Within(base, tks)
    ensures Within(VolTargetOf(tk, held, base), tks)
  {
    if held.Some? {
      AddBaseWithin([Leg(tk, held.value)], base, 1.0 - held.value, tks);
      KeptWithin(AddBase([Leg(tk, held.value)], base, 1.0 - held.value), tks);
    }
  }

  /** Every ticker a plan names has a close on every day. */
  lemma PlanIsCovered(h: History, s: Strategy, num: Numerics, spread: Spread, gated: bool)
    requires Ready(h, s, gated)
    ensures Supplied(h, s)
    ensures var r := Plan(h, s, num, spread, gated); r.Targets? ==> |r.daily| == h.days && Covers(h.px, r.daily)
  {
    ReadyIsSupplied(h, s, gated);
    PlanCut(h, s, num, spread, gated, h.days);
    var r := TargetsFor(h, s, num);
    if r.Targets? {
      forall i | 0 <= i < h.days
        ensures Within(r.daily[i], h.px.Keys)
      {
        OverlayWithin(h, s, num, gated, i);
      }
      FallbackWithin(h, s, gated);
      hide TargetsFor, Gate;
      var plan := Plan(h, s, num, spread, gated);
      forall target | target in plan.daily
        ensures Within(target, h.px.Keys)
      {
      }
    }
  }

  lemma FallbackWithin(h: History, s: Strategy, gated: bool)
    requires Ready(h, s, gated)
    ensures Within(s.weights, h.px.Keys) && Within(OffTarget(s), h.px.Keys)
  {
  }

  lemma DualTargetWithin(h: History, s: Strategy, gated: bool, rs: seq<Ranked>)
    requires Ready(h, s, gated) && s.overlay.DualMomentum? && forall r :: r in rs ==> r.ticker in h.px
    ensures var safe := if s.overlay.safe.Some? then s.overlay.safe else s.riskOff;
      Within(OnlyHolding(safe), h.px.Keys) && Within(DualTarget(rs, safe), h.px.Keys)
  {
    var safe := if s.overlay.safe.Some? then s.overlay.safe else s.riskOff;
    assert safe.Some? ==> safe.value in TickersNeeded(s, gated);
    if rs != [] {
      LeaderIsTheBest(rs);
    }
  }

  lemma DualWithin(h: History, s: Strategy, gated: bool, look: nat, i: nat)
    requires Ready(h, s, gated) && s.overlay.DualMomentum? && i < h.days
    ensures var safe := if s.overlay.safe.Some? then s.overlay.safe else s.riskOff;
      var names := if s.overlay.universe != [] then s.overlay.universe else Names(s.weights);
      Within(DualMomentumDays(h, look, names, safe)[i], h.px.Keys)
  {
    hide ReturnsOn, DualTarget, TickersNeeded, Leader, Within;
    var names := if s.overlay.universe != [] then s.overlay.universe else Names(s.weights);
    if i >= look {
      ReturnsWithin(h, names, look, i);
      DualTargetWithin(h, s, gated, ReturnsOn(h, names, look, i));
    } else {
      DualTargetWithin(h, s, gated, []);
    }
  }

  lemma SwitchedWithin(days: seq<bool>, s: Strategy, i: nat, tks: set<Ticker>)
    requires i < |days| && Within(s.weights, tks) && Within(OffTarget(s), tks)
    ensures Within(WeightsOrOff(days, s)[i], tks)
  {
    hide Within, OffTarget;
  }

  lemma OverlayWithin(h: History, s: Strategy, num: Numerics, gated: bool, i: nat)
    requires Ready(h, s, gated) && Supplied(h, s) && i < h.days && TargetsFor(h, s, num).Targets?
    ensures Within(TargetsFor(h, s, num).daily[i], h.px.Keys)
  {
    FallbackWithin(h, s, gated);
    hide LiveDays, VolHeld, SectorHolding, DualMomentumDays, VolTargetOf, TickersNeeded, OffTarget, WeightsOrOff;
    match s.overlay
    case BuyHold =>
    case DualMomentum(look, _, _) => DualWithin(h, s, gated, look, i);
    case SectorMomentum(look, topN, universe, safe, hold) =>
      var base := if s.base != [] then s.base else OnlyHolding(if safe.Some? then safe else s.riskOff);
      SectorWithin(h, look, topN, universe, base, hold, i);
    case VolTarget(gate, look, target, cap, floor, band) =>
      var a := h.px[WatchedTicker(gate, s)];
      assert s.weights[0] in s.weights;
      VolTargetWithin(s.weights[0].ticker, VolHeld(a, look, target, cap, floor, band, num, i + 1), OffTarget(s),
                      h.px.Keys);
    case _ => SwitchedWithin(LiveDays(h, s), s, i, h.px.Keys);
  }

  // ---------------------------------------------------------------- no lookahead, end to end

  /** The first k days of the two histories are the same. */
  ghost predicate SameDays(a: History, b: History, k: nat) {
    k <= a.days && k <= b.days && Cut(a, k) == Cut(b, k)
  }

  lemma SameDaysSameQuotes(a: History, b: History, k: nat)
    requires SameDays(a, b, k)
    ensures SamePast(a.px, b.px, k)
  {
    assert a.px.Keys == Cut(a, k).px.Keys && b.px.Keys == Cut(b, k).px.Keys;
    forall i: nat | i < k
      ensures QuotesOn(a.px, i) == QuotesOn(b.px, i)
    {
      forall tk | tk in a.px
        ensures a.px[tk][i] == b.px[tk][i]
      {
        assert Cut(a, k).px[tk][i] == Cut(b, k).px[tk][i];
      }
    }
  }

  /** Two histories that agree up to and including day k give the same verdict, the same targets and the
      same book through day k, whatever they hold afterwards, with or without the regime gate. */
  lemma NoLookahead(a: History, b: History, s: Strategy, num: Numerics, spread: Spread, gated: bool, t: Terms, k: nat)
    requires Ready(a, s, gated) && Ready(b, s, gated) && k < a.days && k < b.days && SameDays(a, b, k + 1)
    ensures Supplied(a, s) && Supplied(b, s)
    ensures var p, q := Plan(a, s, num, spread, gated), Plan(b, s, num, spread, gated);
      && (p.Abstain? ==> q == p)
      && (p.Targets? ==>
            && q.Targets? && |p.daily| == a.days && |q.daily| == b.days
            && p.daily[..k + 1] == q.daily[..k + 1]
            && Covers(a.px, p.daily) && Covers(b.px, q.daily)
            && After(a.px, p.daily, t, k + 1) == After(b.px, q.daily, t, k + 1)
            && forall day: nat :: day <= k ==> ValueOn(a.px, p.daily, t, day) == ValueOn(b.px, q.daily, t, day))
  {
    hide Plan, Covers, After, ValueOn;
    PlanCut(a, s, num, spread, gated, k + 1);
    PlanCut(b, s, num, spread, gated, k + 1);
    PlanIsCovered(a, s, num, spread, gated);
    PlanIsCovered(b, s, num, spread, gated);
    SameDaysSameQuotes(a, b, k + 1);
    var p, q := Plan(a, s, num, spread, gated), Plan(b, s, num, spread, gated);
    if p.Targets? {
      assert p.daily[..k] == p.daily[..k + 1][..k] && q.daily[..k] == q.daily[..k + 1][..k];
      StateIsCausal(a.px, b.px, p.daily, q.daily, t, k + 1);
      forall day: nat | day <= k
        ensures ValueOn(a.px, p.daily, t, day) == ValueOn(b.px, q.daily, t, day)
      {
        var n := if day == 0 then 0 else day - 1;
        assert p.daily[..n] == p.daily[..k + 1][..n] && q.daily[..n] == q.daily[..k + 1][..n];
        ValueIsCausal(a.px, b.px, p.daily, q.daily, t, day);
      }
    }
  }
}
