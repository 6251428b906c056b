/** Putting idle cash back to work: three passes over the classes the plan is short of. */
module Redeploy {
  import opened Basics
  import opened Sizing

  datatype Gap = Gap(cls: AssetClass, need: real)

  /** What the passes read: the plan's targets, the mix they are measured against, who holds what, and the screener's
      first pick for a class nothing is held in. */
  datatype Facts = Facts(
    nav: real, spendable: real, cap: real, aims: seq<(AssetClass, real)>, mix: map<AssetClass, real>,
    weight: map<Ticker, real>, held: map<AssetClass, seq<Ticker>>, pick: map<AssetClass, Ticker>)

  datatype Leg = Leg(ticker: Ticker, amount: real, cls: AssetClass, isNew: bool)
  datatype Plan = Plan(legs: seq<Leg>, remaining: real, unplaced: seq<(AssetClass, real)>)

  // ---------------------------------------------------------------- sizes and orders

  function WeightOf(d: Facts, tk: Ticker): real { if tk in d.weight then d.weight[tk] else 0.0 }
  function MixOf(d: Facts, cls: AssetClass): real { if cls in d.mix then d.mix[cls] else 0.0 }
  function HeldIn(d: Facts, cls: AssetClass): seq<Ticker> { if cls in d.held then d.held[cls] else [] }

  function Room(d: Facts, tk: Ticker): real { NameRoom(d.nav, WeightOf(d, tk), d.cap) }

  function Shortfall(nav: real, target: real, have: real): real { Max(0.0, target - have) * nav }

  predicate Worthwhile(gs: seq<Gap>) { forall k :: 0 <= k < |gs| ==> gs[k].need >= MIN_TRADE }

  function InsertGap(g: Gap, gs: seq<Gap>): (r: seq<Gap>)
    ensures Worthwhile(gs) && g.need >= MIN_TRADE ==> Worthwhile(r)
  {
    if gs == [] || g.need >= gs[0].need then [g] + gs else [gs[0]] + InsertGap(g, gs[1..])
  }

  /** The classes worth buying, largest shortfall first. */
  function Gaps(d: Facts, aims: seq<(AssetClass, real)>): (gs: seq<Gap>)
    ensures Worthwhile(gs)
  {
    if aims == [] then []
    else
      var rest, need := Gaps(d, aims[1..]), Shortfall(d.nav, aims[0].1, MixOf(d, aims[0].0));
      if aims[0].0 == "Cash" || aims[0].1 == 0.0 || need < MIN_TRADE then rest
      else InsertGap(Gap(aims[0].0, need), rest)
  }

  function TotalNeed(gs: seq<Gap>): (total: real)
    ensures Worthwhile(gs) ==> total >= 0.0 && (gs != [] ==> total > 0.0)
  {
    if gs == [] then 0.0 else TotalNeed(gs[..|gs| - 1]) + gs[|gs| - 1].need
  }

  /** A class's part of the surplus. */
  function Share(spendable: real, need: real, total: real): real
    requires total != 0.0
  {
    spendable * (need / total)
  }

  function InsertLight(d: Facts, tk: Ticker, tks: seq<Ticker>): seq<Ticker> {
    if tks == [] || WeightOf(d, tk) <= WeightOf(d, tks[0]) then [tk] + tks else [tks[0]] + InsertLight(d, tk, tks[1..])
  }

  /** Lightest holding first. */
  function Lightest(d: Facts, tks: seq<Ticker>): (r: seq<Ticker>)
    ensures |r| == |tks|
  {
    if tks == [] then []
    else InsertedLength(d, tks[0], Lightest(d, tks[1..])); InsertLight(d, tks[0], Lightest(d, tks[1..]))
  }

  lemma InsertedLength(d: Facts, tk: Ticker, tks: seq<Ticker>)
    ensures |InsertLight(d, tk, tks)| == |tks| + 1
  {
  }

  // ---------------------------------------------------------------- first pass: each class its share

  function TopUp(d: Facts, g: Plan, tk: Ticker, per: real, cls: AssetClass): Plan {
    var amount := Min(per, Min(Room(d, tk), g.remaining));
    if g.remaining < MIN_TRADE || amount < MIN_TRADE then g
    else g.(legs := g.legs + [Leg(tk, amount, cls, false)], remaining := g.remaining - amount)
  }

  function TopUpAll(d: Facts, g: Plan, tks: seq<Ticker>, per: real, cls: AssetClass): Plan {
    if tks == [] then g else TopUp(d, TopUpAll(d, g, tks[..|tks| - 1], per, cls), tks[|tks| - 1], per, cls)
  }

  function OpenNew(d: Facts, g: Plan, cls: AssetClass, budget: real): Plan {
    var amount := Min(budget, g.remaining);
    if cls in d.pick && amount >= MIN_TRADE then
      g.(legs := g.legs + [Leg(d.pick[cls], amount, cls, true)], remaining := g.remaining - amount)
    else g.(unplaced := g.unplaced + [(cls, amount)])
  }

  function FillClass(d: Facts, g: Plan, gap: Gap, total: real): Plan
    requires total != 0.0
  {
    var budget := Min(gap.need, Min(Share(d.spendable, gap.need, total), g.remaining));
    var held := HeldIn(d, gap.cls);
    if g.remaining < MIN_TRADE then g
    else if held != [] then TopUpAll(d, g, Lightest(d, held), budget / |held| as real, gap.cls)
    else OpenNew(d, g, gap.cls, budget)
  }

  function FillAll(d: Facts, g: Plan, gs: seq<Gap>, total: real): Plan
    requires total != 0.0
  {
    if gs == [] then g else FillClass(d, FillAll(d, g, gs[..|gs| - 1], total), gs[|gs| - 1], total)
  }

  // ---------------------------------------------------------------- second pass: one trade when every leg was too thin

  function Better(d: Facts, best: Option<Leg>, tk: Ticker, remaining: real, cls: AssetClass): Option<Leg> {
    var amount := Min(remaining, Room(d, tk));
    if amount >= MIN_TRADE && (best.None? || amount > best.value.amount) then Some(Leg(tk, amount, cls, false))
    else best
  }

  function BestIn(d: Facts, best: Option<Leg>, tks: seq<Ticker>, remaining: real, cls: AssetClass): Option<Leg> {
    if tks == [] then best
    else Better(d, BestIn(d, best, tks[..|tks| - 1], remaining, cls), tks[|tks| - 1], remaining, cls)
  }

  function BestOf(d: Facts, gs: seq<Gap>, remaining: real): Option<Leg> {
    if gs == [] then None
    else
      var last := gs[|gs| - 1];
      BestIn(d, BestOf(d, gs[..|gs| - 1], remaining), Lightest(d, HeldIn(d, last.cls)), remaining, last.cls)
  }

  function Concentrate(d: Facts, g: Plan, gs: seq<Gap>): Plan {
    if g.legs != [] || g.remaining < MIN_TRADE then g
    else
      match BestOf(d, gs, g.remaining)
      case None => g
      case Some(best) => g.(legs := g.legs + [best], remaining := g.remaining - best.amount)
  }

  // ---------------------------------------------------------------- third pass: what could not be placed

  predicate Within(order: seq<nat>, n: nat) { forall k :: 0 <= k < |order| ==> order[k] < n }

  function InsertLeg(d: Facts, legs: seq<Leg>, i: nat, order: seq<nat>): (r: seq<nat>)
    requires i < |legs| && Within(order, |legs|)
    ensures Within(r, |legs|)
    ensures forall j :: j in r <==> j == i || j in order
  {
    if order == [] || WeightOf(d, legs[i].ticker) <= WeightOf(d, legs[order[0]].ticker) then [i] + order
    else [order[0]] + InsertLeg(d, legs, i, order[1..])
  }

  /** The positions of the top-up legs from n on, lightest holding first. */
  function TopUps(d: Facts, legs: seq<Leg>, n: nat): (order: seq<nat>)
    requires n <= |legs|
    ensures Within(order, |legs|)
    ensures forall j :: j in order <==> n <= j < |legs| && !legs[j].isNew
    decreases |legs| - n
  {
    if n == |legs| then []
    else if legs[n].isNew then TopUps(d, legs, n + 1)
    else InsertLeg(d, legs, n, TopUps(d, legs, n + 1))
  }

  function Extend(d: Facts, g: Plan, i: nat): (r: Plan)
    requires i < |g.legs|
    ensures |r.legs| == |g.legs|
  {
    var leg := g.legs[i];
    var extra := Min(g.remaining, Max(0.0, Room(d, leg.ticker) - leg.amount));
    if g.remaining < MIN_TRADE || extra < MIN_TRADE then g
    else g.(legs := g.legs[i := leg.(amount := leg.amount + extra)], remaining := g.remaining - extra)
  }

  function ExtendAll(d: Facts, g: Plan, order: seq<nat>): (r: Plan)
    requires Within(order, |g.legs|)
    ensures |r.legs| == |g.legs|
  {
    if order == [] then g else Extend(d, ExtendAll(d, g, order[..|order| - 1]), order[|order| - 1])
  }

  /** The whole plan; no legs means no card. */
  function Redeploy(d: Facts): Plan {
    var empty, gs := Plan([], d.spendable, []), Gaps(d, d.aims);
    if d.nav == 0.0 || d.spendable < MIN_TRADE || gs == [] then empty
    else
      var second := Concentrate(d, FillAll(d, empty, gs, TotalNeed(gs)), gs);
      ExtendAll(d, second, TopUps(d, second.legs, 0))
  }

  // ---------------------------------------------------------------- the loops

  method FillHeld(d: Facts, g: Plan, tks: seq<Ticker>, per: real, cls: AssetClass)
    returns (legs: seq<Leg>, remaining: real)
    ensures g.(legs := legs, remaining := remaining) == TopUpAll(d, g, tks, per, cls)
  {
    legs, remaining := g.legs, g.remaining;
    for k := 0 to |tks|
      invariant g.(legs := legs, remaining := remaining) == TopUpAll(d, g, tks[..k], per, cls)
    {
      assert tks[..k + 1][..k] == tks[..k];
      var amount := Min(per, Min(Room(d, tks[k]), remaining));
      if remaining < MIN_TRADE || amount < MIN_TRADE {
        continue;
      }
      legs := legs + [Leg(tks[k], amount, cls, false)];
      remaining := remaining - amount;
    }
    assert tks[..|tks|] == tks;
  }

  method FirstPass(d: Facts, gs: seq<Gap>, total: real) returns (g: Plan)
    requires total != 0.0
    ensures g == FillAll(d, Plan([], d.spendable, []), gs, total)
  {
    hide TopUpAll, Lightest, Share;
    var empty := Plan([], d.spendable, []);
    var legs, remaining, unplaced := [], d.spendable, [];
    for k := 0 to |gs|
      invariant Plan(legs, remaining, unplaced) == FillAll(d, empty, gs[..k], total)
    {
      assert gs[..k + 1][..k] == gs[..k];
      if remaining < MIN_TRADE {
        continue;
      }
      var gap, held := gs[k], HeldIn(d, gs[k].cls);
      var budget := Min(gap.need, Min(Share(d.spendable, gap.need, total), remaining));
      if held != [] {
        legs, remaining := FillHeld(d, Plan(legs, remaining, unplaced), Lightest(d, held), budget / |held| as real,
                                    gap.cls);
      } else {
        var amount := Min(budget, remaining);
        if gap.cls in d.pick && amount >= MIN_TRADE {
          legs := legs + [Leg(d.pick[gap.cls], amount, gap.cls, true)];
          remaining := remaining - amount;
        } else {
          unplaced := unplaced + [(gap.cls, amount)];
        }
      }
    }
    assert gs[..|gs|] == gs;
    g := Plan(legs, remaining, unplaced);
  }

  method SecondPass(d: Facts, gs: seq<Gap>, remaining: real) returns (best: Option<Leg>)
    ensures best == BestOf(d, gs, remaining)
  {
    hide Lightest, Room;
    best := None;
    for k := 0 to |gs|
      invariant best == BestOf(d, gs[..k], remaining)
    {
      assert gs[..k + 1][..k] == gs[..k];
      var start, tks := best, Lightest(d, HeldIn(d, gs[k].cls));
      for i := 0 to |tks|
        invariant best == BestIn(d, start, tks[..i], remaining, gs[k].cls)
      {
        assert tks[..i + 1][..i] == tks[..i];
        var amount := Min(remaining, Room(d, tks[i]));
        if amount >= MIN_TRADE && (best.None? || amount > best.value.amount) {
          best := Some(Leg(tks[i], amount, gs[k].cls, false));
        }
      }
      assert tks[..|tks|] == tks;
    }
    assert gs[..|gs|] == gs;
  }

  method ComputeRedeploy(d: Facts) returns (g: Plan)
    ensures g == Redeploy(d)
  {
    hide FillAll, BestOf, Extend, TopUps, Gaps, TotalNeed;
    g := Plan([], d.spendable, []);
    var gs := Gaps(d, d.aims);
    if d.nav == 0.0 || d.spendable < MIN_TRADE || gs == [] {
      return;
    }
    g := FirstPass(d, gs, TotalNeed(gs));
    if g.legs == [] && g.remaining >= MIN_TRADE {
      var best := SecondPass(d, gs, g.remaining);
      if best.Some? {
        g := g.(legs := g.legs + [best.value], remaining := g.remaining - best.value.amount);
      }
    }
    ghost var second := g;
    var order := TopUps(d, g.legs, 0);
    for k := 0 to |order|
      invariant g == ExtendAll(d, second, order[..k])
    {
      assert order[..k + 1][..k] == order[..k];
      g := Extend(d, g, order[k]);
    }
    assert order[..|order|] == order;
  }

  // ---------------------------------------------------------------- every shekel is accounted for

  function Total(legs: seq<Leg>): real {
    if legs == [] then 0.0 else Total(legs[..|legs| - 1]) + legs[|legs| - 1].amount
  }

  lemma TotalAppend(legs: seq<Leg>, leg: Leg)
    ensures Total(legs + [leg]) == Total(legs) + leg.amount
  {
  }

  lemma {:induction false} TotalUpdate(legs: seq<Leg>, i: nat, amount: real)
    requires i < |legs|
    ensures Total(legs[i := legs[i].(amount := amount)]) == Total(legs) + amount - legs[i].amount
  {
    var n, r := |legs| - 1, legs[i := legs[i].(amount := amount)];
    if i == n {
      assert r[..n] == legs[..n];
    } else {
      TotalUpdate(legs[..n], i, amount);
      assert r[..n] == legs[..n][i := legs[..n][i].(amount := amount)];
    }
  }

  ghost predicate GoodLeg(d: Facts, leg: Leg) {
    leg.amount >= MIN_TRADE && (!leg.isNew ==> leg.amount <= Room(d, leg.ticker))
  }

  /** Legs and what is left make up the surplus, nothing is overspent, no leg is too small to trade, and no top-up
      outgrows its name's headroom. */
  ghost predicate Sound(d: Facts, g: Plan) {
    && Total(g.legs) + g.remaining == d.spendable
    && g.remaining >= 0.0
    && forall i :: 0 <= i < |g.legs| ==> GoodLeg(d, g.legs[i])
  }

  lemma {:induction false} TopUpAllSound(d: Facts, g: Plan, tks: seq<Ticker>, per: real, cls: AssetClass)
    requires Sound(d, g)
    ensures Sound(d, TopUpAll(d, g, tks, per, cls))
  {
    hide Room;
    if tks != [] {
      var m, tk := TopUpAll(d, g, tks[..|tks| - 1], per, cls), tks[|tks| - 1];
      TopUpAllSound(d, g, tks[..|tks| - 1], per, cls);
      TotalAppend(m.legs, Leg(tk, Min(per, Min(Room(d, tk), m.remaining)), cls, false));
    }
  }

  lemma FillClassSound(d: Facts, g: Plan, gap: Gap, total: real)
    requires total != 0.0 && Sound(d, g)
    ensures Sound(d, FillClass(d, g, gap, total))
  {
    hide Room, Share, TopUpAll, Lightest;
    var budget, held := Min(gap.need, Min(Share(d.spendable, gap.need, total), g.remaining)), HeldIn(d, gap.cls);
    if held != [] {
      TopUpAllSound(d, g, Lightest(d, held), budget / |held| as real, gap.cls);
    } else if gap.cls in d.pick {
      TotalAppend(g.legs, Leg(d.pick[gap.cls], Min(budget, g.remaining), gap.cls, true));
    }
  }

  lemma {:induction false} FillAllSound(d: Facts, g: Plan, gs: seq<Gap>, total: real)
    requires total != 0.0 && Sound(d, g)
    ensures Sound(d, FillAll(d, g, gs, total))
  {
    hide FillClass, Sound;
    if gs != [] {
      FillAllSound(d, g, gs[..|gs| - 1], total);
      FillClassSound(d, FillAll(d, g, gs[..|gs| - 1], total), gs[|gs| - 1], total);
    }
  }

  ghost predicate GoodChoice(d: Facts, best: Option<Leg>, remaining: real) {
    best.Some? ==> GoodLeg(d, best.value) && !best.value.isNew && best.value.amount <= remaining
  }

  lemma {:induction false} BestInGood(d: Facts, best: Option<Leg>, tks: seq<Ticker>, remaining: real, cls: AssetClass)
    requires GoodChoice(d, best, remaining)
    ensures GoodChoice(d, BestIn(d, best, tks, remaining, cls), remaining)
  {
    hide Room;
    if tks != [] {
      BestInGood(d, best, tks[..|tks| - 1], remaining, cls);
    }
  }

  lemma {:induction false} BestOfGood(d: Facts, gs: seq<Gap>, remaining: real)
    ensures GoodChoice(d, BestOf(d, gs, remaining), remaining)
  {
    hide BestIn, Lightest;
    if gs != [] {
      var n := |gs| - 1;
      BestOfGood(d, gs[..n], remaining);
      BestInGood(d, BestOf(d, gs[..n], remaining), Lightest(d, HeldIn(d, gs[n].cls)), remaining, gs[n].cls);
    }
  }

  lemma ConcentrateSound(d: Facts, g: Plan, gs: seq<Gap>)
    requires Sound(d, g)
    ensures Sound(d, Concentrate(d, g, gs))
  {
    hide BestOf, Room;
    BestOfGood(d, gs, g.remaining);
    if BestOf(d, gs, g.remaining).Some? {
      TotalAppend(g.legs, BestOf(d, gs, g.remaining).value);
    }
  }

  lemma ExtendSound(d: Facts, g: Plan, i: nat)
    requires i < |g.legs| && Sound(d, g) && !g.legs[i].isNew
    ensures Sound(d, Extend(d, g, i))
  {
    hide Room, Total;
    var leg := g.legs[i];
    var extra := Min(g.remaining, Max(0.0, Room(d, leg.ticker) - leg.amount));
    assert GoodLeg(d, leg);
    TotalUpdate(g.legs, i, leg.amount + extra);
  }

  ghost predicate SameKinds(a: seq<Leg>, b: seq<Leg>) {
    |a| == |b| && forall i :: 0 <= i < |a| ==> a[i].isNew == b[i].isNew && (a[i].isNew ==> a[i] == b[i])
  }

  lemma {:induction false} ExtendAllSound(d: Facts, g: Plan, order: seq<nat>)
    requires Within(order, |g.legs|) && Sound(d, g) && forall k :: 0 <= k < |order| ==> !g.legs[order[k]].isNew
    ensures Sound(d, ExtendAll(d, g, order)) && SameKinds(g.legs, ExtendAll(d, g, order).legs)
  {
    hide Room, Sound;
    if order != [] {
      ExtendAllSound(d, g, order[..|order| - 1]);
      ExtendSound(d, ExtendAll(d, g, order[..|order| - 1]), order[|order| - 1]);
    }
  }

  /** Through all three passes the legs and the remainder make up the surplus exactly, the remainder is never
      negative, every leg is worth trading, and every top-up leaves its holding within the single-name cap. */
  lemma RedeployIsSound(d: Facts)
    requires d.spendable >= 0.0
    ensures var g := Redeploy(d);
      && Total(g.legs) + g.remaining == d.spendable && g.remaining >= 0.0
      && forall leg :: leg in g.legs ==> leg.amount >= MIN_TRADE && (!leg.isNew ==> FitsCap(d, leg))
  {
    hide Gaps, FillAll, Concentrate, TopUps, ExtendAll, Room;
    var empty, gs := Plan([], d.spendable, []), Gaps(d, d.aims);
    if d.nav != 0.0 && d.spendable >= MIN_TRADE && gs != [] {
      FillAllSound(d, empty, gs, TotalNeed(gs));
      ConcentrateSound(d, FillAll(d, empty, gs, TotalNeed(gs)), gs);
      var second := Concentrate(d, FillAll(d, empty, gs, TotalNeed(gs)), gs);
      var order := TopUps(d, second.legs, 0);
      assert forall k :: 0 <= k < |order| ==> order[k] in order;
      ExtendAllSound(d, second, order);
    }
    var g := Redeploy(d);
    forall leg | leg in g.legs
      ensures leg.amount >= MIN_TRADE && (!leg.isNew ==> FitsCap(d, leg))
    {
      var i :| 0 <= i < |g.legs| && g.legs[i] == leg;
      assert GoodLeg(d, g.legs[i]);
      FitsWithinRoom(d, leg);
    }
  }

  /** The leg leaves its name's whole position at or under the cap. */
  ghost predicate FitsCap(d: Facts, leg: Leg) {
    (if leg.ticker in d.weight then d.weight[leg.ticker] else 0.0) * d.nav + leg.amount <= d.cap * d.nav
  }

  lemma FitsWithinRoom(d: Facts, leg: Leg)
    requires leg.amount > 0.0
    ensures leg.amount <= Room(d, leg.ticker) ==> FitsCap(d, leg)
    ensures d.nav >= 0.0 && FitsCap(d, leg) ==> leg.amount <= Room(d, leg.ticker)
  {
    var x := d.cap - WeightOf(d, leg.ticker);
    assert d.nav * x == d.cap * d.nav - WeightOf(d, leg.ticker) * d.nav;
    ClippedProduct(d.nav, x);
  }

  // ---------------------------------------------------------------- new positions are not clipped by the cap

  function SumShares(d: Facts, gs: seq<Gap>, total: real): real
    requires total != 0.0
  {
    if gs == [] then 0.0 else SumShares(d, gs[..|gs| - 1], total) + Share(d.spendable, gs[|gs| - 1].need, total)
  }

  /** What a class nothing is held in gets: its share of the surplus, at most its shortfall. */
  function NewAmount(d: Facts, gap: Gap, total: real): real
    requires total != 0.0
  {
    Min(gap.need, Share(d.spendable, gap.need, total))
  }

  predicate Opens(d: Facts, gap: Gap, total: real)
    requires total != 0.0
  {
    HeldIn(d, gap.cls) == [] && gap.cls in d.pick && NewAmount(d, gap, total) >= MIN_TRADE
  }

  function OpeningFor(d: Facts, gap: Gap, total: real): Leg
    requires total != 0.0 && Opens(d, gap, total)
  {
    Leg(d.pick[gap.cls], NewAmount(d, gap, total), gap.cls, true)
  }

  /** The new positions a plan opens, read off the gaps alone. */
  function Openings(d: Facts, gs: seq<Gap>, total: real): seq<Leg>
    requires total != 0.0
  {
    if gs == [] then []
    else
      var rest, gap := Openings(d, gs[..|gs| - 1], total), gs[|gs| - 1];
      if Opens(d, gap, total) then rest + [OpeningFor(d, gap, total)] else rest
  }

  function NewLegs(legs: seq<Leg>): seq<Leg> {
    if legs == [] then []
    else NewLegs(legs[..|legs| - 1]) + (if legs[|legs| - 1].isNew then [legs[|legs| - 1]] else [])
  }

  lemma NewLegsAppend(legs: seq<Leg>, leg: Leg)
    ensures NewLegs(legs + [leg]) == NewLegs(legs) + (if leg.isNew then [leg] else [])
  {
  }

  lemma {:induction false} NewLegsMembers(legs: seq<Leg>, leg: Leg)
    ensures leg in NewLegs(legs) <==> leg in legs && leg.isNew
  {
    if legs != [] {
      NewLegsMembers(legs[..|legs| - 1], leg);
      assert legs == legs[..|legs| - 1] + [legs[|legs| - 1]];
    }
  }

  lemma {:induction false} SameKindsSameNew(a: seq<Leg>, b: seq<Leg>)
    requires SameKinds(a, b)
    ensures NewLegs(a) == NewLegs(b)
  {
    if a != [] {
      SameKindsSameNew(a[..|a| - 1], b[..|b| - 1]);
    }
  }

  lemma ShareDistributes(spendable: real, x: real, y: real, total: real)
    requires total != 0.0
    ensures Share(spendable, x + y, total) == Share(spendable, x, total) + Share(spendable, y, total)
    ensures Share(spendable, total, total) == spendable
    ensures Share(spendable, 0.0, total) == 0.0
  {
  }

  lemma ShareNonNegative(spendable: real, x: real, total: real)
    requires spendable >= 0.0 && x >= 0.0 && total > 0.0
    ensures Share(spendable, x, total) >= 0.0
  {
    QuotientNonNegative(x, total);
  }

  lemma QuotientNonNegative(x: real, y: real)
    requires x >= 0.0 && y > 0.0
    ensures x / y >= 0.0
  {
    assert (x / y) * y == x;
  }

  /** The shares add up to the surplus. */
  lemma {:induction false} SharesAddUp(d: Facts, gs: seq<Gap>, total: real)
    requires total != 0.0
    ensures SumShares(d, gs, total) == Share(d.spendable, TotalNeed(gs), total)
  {
    hide Share;
    if gs == [] {
      ShareDistributes(d.spendable, 0.0, 0.0, total);
    } else {
      SharesAddUp(d, gs[..|gs| - 1], total);
      ShareDistributes(d.spendable, TotalNeed(gs[..|gs| - 1]), gs[|gs| - 1].need, total);
    }
  }

  lemma {:induction false} TopUpAllSpends(d: Facts, g: Plan, tks: seq<Ticker>, per: real, cls: AssetClass)
    requires per >= 0.0
    ensures var r := TopUpAll(d, g, tks, per, cls);
      r.remaining >= g.remaining - Times(|tks|, per) && NewLegs(r.legs) == NewLegs(g.legs)
  {
    hide Room, Times, NewLegs;
    TimesStep(|tks| - 1, per);
    if tks != [] {
      var m, tk := TopUpAll(d, g, tks[..|tks| - 1], per, cls), tks[|tks| - 1];
      TopUpAllSpends(d, g, tks[..|tks| - 1], per, cls);
      NewLegsAppend(m.legs, Leg(tk, Min(per, Min(Room(d, tk), m.remaining)), cls, false));
    }
  }

  lemma TimesQuotient(n: nat, budget: real)
    requires n > 0 && budget >= 0.0
    ensures Times(n, budget / n as real) == budget && budget / n as real >= 0.0
  {
    QuotientNonNegative(budget, n as real);
  }

  /** One class spends at most its share, and opens a new position exactly when the gaps alone say so. */
  lemma FillClassOpens(d: Facts, g: Plan, gap: Gap, total: real)
    requires total > 0.0 && gap.need >= MIN_TRADE && 0.0 <= Share(d.spendable, gap.need, total) <= g.remaining
    ensures var r := FillClass(d, g, gap, total);
      && r.remaining >= g.remaining - Share(d.spendable, gap.need, total)
      && NewLegs(r.legs) == NewLegs(g.legs)
                            + (if Opens(d, gap, total) then [OpeningFor(d, gap, total)] else [])
  {
    hide Share, TopUpAll, Lightest, NewLegs, Times;
    var budget, held := NewAmount(d, gap, total), HeldIn(d, gap.cls);
    if held != [] {
      TimesQuotient(|held|, budget);
      TopUpAllSpends(d, g, Lightest(d, held), budget / |held| as real, gap.cls);
    } else if gap.cls in d.pick {
      NewLegsAppend(g.legs, Leg(d.pick[gap.cls], budget, gap.cls, true));
    }
  }

  lemma {:induction false} FillAllOpens(d: Facts, g: Plan, gs: seq<Gap>, n: nat, total: real)
    requires n <= |gs| && Worthwhile(gs) && total > 0.0 && d.spendable >= 0.0 && g.legs == []
    requires g.remaining == SumShares(d, gs, total)
    ensures var r := FillAll(d, g, gs[..n], total);
      r.remaining >= g.remaining - SumShares(d, gs[..n], total) && NewLegs(r.legs) == Openings(d, gs[..n], total)
  {
    hide FillClass, Opens, NewAmount, Share;
    if n > 0 {
      FillAllOpens(d, g, gs, n - 1, total);
      assert gs[..n][..n - 1] == gs[..n - 1];
      ShareNonNegative(d.spendable, gs[n - 1].need, total);
      SharesGrow(d, gs, n, total);
      FillClassOpens(d, FillAll(d, g, gs[..n - 1], total), gs[n - 1], total);
    }
  }

  lemma {:induction false} SharesGrow(d: Facts, gs: seq<Gap>, n: nat, total: real)
    requires n <= |gs| && Worthwhile(gs) && total > 0.0 && d.spendable >= 0.0
    ensures SumShares(d, gs[..n], total) <= SumShares(d, gs, total)
  {
    hide Share;
    if n == |gs| {
      assert gs[..n] == gs;
    } else {
      assert gs[..|gs| - 1][..n] == gs[..n];
      SharesGrow(d, gs[..|gs| - 1], n, total);
      ShareNonNegative(d.spendable, gs[|gs| - 1].need, total);
    }
  }

  /** The new positions a plan opens are exactly those its gaps call for, whatever the top-ups do. */
  lemma NewPositionsAreTheOpenings(d: Facts)
    requires d.nav != 0.0 && d.spendable >= MIN_TRADE && Gaps(d, d.aims) != []
    ensures TotalNeed(Gaps(d, d.aims)) > 0.0
    ensures NewLegs(Redeploy(d).legs) == Openings(d, Gaps(d, d.aims), TotalNeed(Gaps(d, d.aims)))
  {
    hide Gaps, FillAll, TopUps, ExtendAll, Opens, NewAmount, Share, BestOf, NewLegs, Room;
    var empty, gs := Plan([], d.spendable, []), Gaps(d, d.aims);
    var total := TotalNeed(gs);
    SharesAddUp(d, gs, total);
    ShareDistributes(d.spendable, 0.0, 0.0, total);
    FillAllOpens(d, empty, gs, |gs|, total);
    assert gs[..|gs|] == gs;
    var first := FillAll(d, empty, gs, total);
    FillAllSound(d, empty, gs, total);
    BestOfGood(d, gs, first.remaining);
    if BestOf(d, gs, first.remaining).Some? {
      NewLegsAppend(first.legs, BestOf(d, gs, first.remaining).value);
    }
    var second := Concentrate(d, first, gs);
    ConcentrateSound(d, first, gs);
    var order := TopUps(d, second.legs, 0);
    assert forall k :: 0 <= k < |order| ==> order[k] in order;
    ExtendAllSound(d, second, order);
    SameKindsSameNew(second.legs, Redeploy(d).legs);
  }

  lemma {:induction false} OpeningsMembers(d: Facts, gs: seq<Gap>, total: real, leg: Leg)
    requires total != 0.0
    ensures leg in Openings(d, gs, total) <==>
      exists k :: 0 <= k < |gs| && Opens(d, gs[k], total) && leg == OpeningFor(d, gs[k], total)
  {
    hide NewAmount, Share;
    if gs != [] {
      var n := |gs| - 1;
      OpeningsMembers(d, gs[..n], total, leg);
      assert gs == gs[..n] + [gs[n]];
    }
  }

  /** Every class the plan would open a name in has a name with room for all of that class's share. */
  ghost predicate OpeningsFit(d: Facts) {
    var gs := Gaps(d, d.aims);
    forall k | 0 <= k < |gs| && TotalNeed(gs) != 0.0 && Opens(d, gs[k], TotalNeed(gs)) ::
      var leg := OpeningFor(d, gs[k], TotalNeed(gs)); leg.amount <= Room(d, leg.ticker)
  }

  /** The plan says every leg is clipped by the single-name cap.  Top-ups are, new positions are not: the plan keeps
      the cap exactly when no class it opens a name in is due more than that name has room for. */
  lemma EveryLegFitsIff(d: Facts)
    requires d.nav > 0.0 && d.spendable >= MIN_TRADE
    ensures (forall leg :: leg in Redeploy(d).legs ==> FitsCap(d, leg)) == OpeningsFit(d)
  {
    hide Gaps, Redeploy, Opens, NewAmount, Share, Room, FitsCap, TotalNeed;
    var gs, legs := Gaps(d, d.aims), Redeploy(d).legs;
    RedeployIsSound(d);
    if gs == [] {
      NoGapsNoLegs(d);
    } else {
      var total := TotalNeed(gs);
      NewPositionsAreTheOpenings(d);
      forall leg | leg in legs && leg.isNew
        ensures FitsCap(d, leg) == (leg.amount <= Room(d, leg.ticker))
        ensures exists k :: 0 <= k < |gs| && Opens(d, gs[k], total) && leg == OpeningFor(d, gs[k], total)
      {
        NewLegsMembers(legs, leg);
        OpeningsMembers(d, gs, total, leg);
        FitsWithinRoom(d, leg);
      }
      forall k | 0 <= k < |gs| && Opens(d, gs[k], total)
        ensures OpeningFor(d, gs[k], total) in legs
      {
        NewLegsMembers(legs, OpeningFor(d, gs[k], total));
        OpeningsMembers(d, gs, total, OpeningFor(d, gs[k], total));
      }
    }
  }

  lemma NoGapsNoLegs(d: Facts)
    requires Gaps(d, d.aims) == []
    ensures Redeploy(d).legs == []
  {
  }

  /** A Balanced plan at low risk, on target in bonds and commodities, with all its equities just sold. */
  function SoldOutBook(): Facts {
    Facts(100000.0, 55000.0, 0.15, [("Equities", 0.6), ("Fixed Income", 0.3), ("Commodities", 0.1)],
          map["Fixed Income" := 0.3, "Commodities" := 0.1, "Cash" := 0.6],
          map["BND" := 0.3, "GLD" := 0.1, "CASH" := 0.6],
          map["Fixed Income" := ["BND"], "Commodities" := ["GLD"]], map["Equities" := "MSFT"])
  }

  lemma OneGap(d: Facts, aims: seq<(AssetClass, real)>)
    requires |aims| == 3 && aims[0].0 != "Cash" && aims[0].1 != 0.0
    requires Shortfall(d.nav, aims[0].1, MixOf(d, aims[0].0)) >= MIN_TRADE
    requires MixOf(d, aims[1].0) == aims[1].1 && MixOf(d, aims[2].0) == aims[2].1
    ensures Gaps(d, aims) == [Gap(aims[0].0, Shortfall(d.nav, aims[0].1, MixOf(d, aims[0].0)))]
  {
    hide MixOf;
    var two, one := aims[1..], aims[1..][1..];
    assert two[0] == aims[1] && one[0] == aims[2] && one[1..] == [];
    assert Gaps(d, one[1..]) == [];
    assert Gaps(d, one) == [];
    assert Gaps(d, two) == [];
  }

  lemma SoldOutGaps()
    ensures var d := SoldOutBook(); Gaps(d, d.aims) == [Gap("Equities", 60000.0)]
  {
    hide Gaps;
    var d := SoldOutBook();
    assert "Equities"[0] != "Fixed Income"[0] && "Equities"[0] != "Commodities"[0] && "Equities"[0] != "Cash"[0];
    assert "Fixed Income"[0] != "Commodities"[0] && "Fixed Income"[0] != "Cash"[0] && |"Commodities"| != |"Cash"|;
    OneGap(d, d.aims);
  }

  lemma TotalOfOne(gs: seq<Gap>)
    requires |gs| == 1
    ensures TotalNeed(gs) == gs[0].need
  {
  }

  /** So a new name can be bought past the cap: here for more than half of the book, where one name may be 15% of it. */
  lemma NewNameCanPassTheCap()
    ensures exists leg :: leg in Redeploy(SoldOutBook()).legs && !FitsCap(SoldOutBook(), leg)
  {
    hide Redeploy, FitsCap, Gaps, TotalNeed;
    var d := SoldOutBook();
    SoldOutGaps();
    TotalOfOne(Gaps(d, d.aims));
    EveryLegFitsIff(d);
    assert |"Fixed Income"| != |"Equities"| && "Equities"[0] != "Commodities"[0];
    assert Share(d.spendable, 60000.0, 60000.0) == 55000.0;
    assert HeldIn(d, "Equities") == [];
    assert Opens(d, Gaps(d, d.aims)[0], 60000.0) && Room(d, "MSFT") == 15000.0;
  }

  // ---------------------------------------------------------------- the orders, and the one best trade

  ghost predicate LargestFirst(gs: seq<Gap>) { forall i, j :: 0 <= i < j < |gs| ==> gs[i].need >= gs[j].need }

  lemma {:induction false} InsertGapKeeps(g: Gap, gs: seq<Gap>)
    requires LargestFirst(gs)
    ensures LargestFirst(InsertGap(g, gs)) && forall x :: x in InsertGap(g, gs) <==> x == g || x in gs
  {
    if gs != [] && g.need < gs[0].need {
      InsertGapKeeps(g, gs[1..]);
      var tail := InsertGap(g, gs[1..]);
      forall i | 0 <= i < |tail|
        ensures gs[0].need >= tail[i].need
      {
        assert tail[i] in tail;
      }
    }
  }

  /** The classes bought are exactly those short of their target by a trade or more, the shortest first. */
  lemma {:induction false} GapsAreTheShortfalls(d: Facts, aims: seq<(AssetClass, real)>)
    ensures LargestFirst(Gaps(d, aims))
    ensures forall g :: g in Gaps(d, aims) <==>
      exists a :: a in aims && a.0 != "Cash" && a.1 != 0.0 && g == Gap(a.0, Shortfall(d.nav, a.1, MixOf(d, a.0))) &&
        g.need >= MIN_TRADE
  {
    hide Shortfall, MixOf;
    if aims != [] {
      GapsAreTheShortfalls(d, aims[1..]);
      InsertGapKeeps(Gap(aims[0].0, Shortfall(d.nav, aims[0].1, MixOf(d, aims[0].0))), Gaps(d, aims[1..]));
      assert forall a :: a in aims <==> a == aims[0] || a in aims[1..];
    }
  }

  ghost predicate LightFirst(d: Facts, tks: seq<Ticker>) {
    forall i, j :: 0 <= i < j < |tks| ==> WeightOf(d, tks[i]) <= WeightOf(d, tks[j])
  }

  lemma {:induction false} InsertLightKeeps(d: Facts, tk: Ticker, tks: seq<Ticker>)
    requires LightFirst(d, tks)
    ensures LightFirst(d, InsertLight(d, tk, tks)) && forall x :: x in InsertLight(d, tk, tks) <==> x == tk || x in tks
  {
    hide WeightOf;
    if tks != [] && WeightOf(d, tk) > WeightOf(d, tks[0]) {
      InsertLightKeeps(d, tk, tks[1..]);
      var tail := InsertLight(d, tk, tks[1..]);
      forall i | 0 <= i < |tail|
        ensures WeightOf(d, tks[0]) <= WeightOf(d, tail[i])
      {
        assert tail[i] in tail;
      }
    }
  }

  /** Holdings are topped up lightest first, each of them once. */
  lemma {:induction false} LightestIsSorted(d: Facts, tks: seq<Ticker>)
    ensures LightFirst(d, Lightest(d, tks)) && forall x :: x in Lightest(d, tks) <==> x in tks
  {
    hide WeightOf, InsertLight;
    if tks != [] {
      LightestIsSorted(d, tks[1..]);
      InsertLightKeeps(d, tks[0], Lightest(d, tks[1..]));
      assert forall x :: x in tks <==> x == tks[0] || x in tks[1..];
    }
  }

  /** At least as large as what this holding has room for, if that is worth trading. */
  ghost predicate Covers(d: Facts, best: Option<Leg>, tk: Ticker, remaining: real) {
    Min(remaining, Room(d, tk)) >= MIN_TRADE ==> best.Some? && best.value.amount >= Min(remaining, Room(d, tk))
  }

  lemma {:induction false} BestInCovers(d: Facts, best: Option<Leg>, tks: seq<Ticker>, remaining: real,
                                        cls: AssetClass, tk: Ticker)
    ensures var r := BestIn(d, best, tks, remaining, cls);
      && (tk in tks || Covers(d, best, tk, remaining) ==> Covers(d, r, tk, remaining))
      && (r == best || (r.Some? && r.value.ticker in tks &&
                        r.value == Leg(r.value.ticker, Min(remaining, Room(d, r.value.ticker)), cls, false)))
  {
    hide Room;
    if tks != [] {
      BestInCovers(d, best, tks[..|tks| - 1], remaining, cls, tk);
      assert tks == tks[..|tks| - 1] + [tks[|tks| - 1]];
    }
  }

  /** The one trade made when every leg is too thin is the largest any holding of a short class has room for. */
  lemma {:induction false} BestOfIsLargest(d: Facts, gs: seq<Gap>, remaining: real, k: nat, tk: Ticker)
    requires k < |gs| && tk in HeldIn(d, gs[k].cls)
    ensures Covers(d, BestOf(d, gs, remaining), tk, remaining)
  {
    hide BestIn, Covers, Lightest;
    var n := |gs| - 1;
    LightestIsSorted(d, HeldIn(d, gs[n].cls));
    BestInCovers(d, BestOf(d, gs[..n], remaining), Lightest(d, HeldIn(d, gs[n].cls)), remaining, gs[n].cls, tk);
    if k < n {
      BestOfIsLargest(d, gs[..n], remaining, k, tk);
    }
  }
}
