/** What a redeployment places and what it leaves idle: the first pass read off the gaps alone, when there is no card at
    all, and how far the last pass goes. */
module IdleCash {
  import opened Basics
  import opened Sizing
  import opened Redeploy

  // ---------------------------------------------------------------- the first pass, from the gaps alone

  /** What each holding of a class is due: an equal part of what the class gets, clipped by the name's room, and nothing
      when that is not worth a trade. */
  function Dues(d: Facts, tks: seq<Ticker>, per: real, cls: AssetClass): seq<Leg> {
    if tks == [] then []
    else
      var tk := tks[|tks| - 1];
      Dues(d, tks[..|tks| - 1], per, cls)
      + (if Min(per, Room(d, tk)) >= MIN_TRADE then [Leg(tk, Min(per, Room(d, tk)), cls, false)] else [])
  }

  /** What a short class calls for: a new name when nothing is held in it, else its holdings' dues, lightest first. */
  function ClassDues(d: Facts, gap: Gap, total: real): seq<Leg>
    requires total != 0.0
  {
    var held := HeldIn(d, gap.cls);
    if held != [] then Dues(d, Lightest(d, held), NewAmount(d, gap, total) / |held| as real, gap.cls)
    else if Opens(d, gap, total) then [OpeningFor(d, gap, total)]
    else []
  }

  function AllDues(d: Facts, gs: seq<Gap>, total: real): seq<Leg>
    requires total != 0.0
  {
    if gs == [] then [] else AllDues(d, gs[..|gs| - 1], total) + ClassDues(d, gs[|gs| - 1], total)
  }

  /** Classes nothing is held in, that the plan can open no name in, with what each was due. */
  ghost predicate Unplaced(d: Facts, gap: Gap, total: real, entry: (AssetClass, real))
    requires total != 0.0
  {
    HeldIn(d, gap.cls) == [] && !Opens(d, gap, total) && entry == (gap.cls, NewAmount(d, gap, total))
  }

  /** A class due a trade or more that nothing can be bought for. */
  predicate Unfillable(d: Facts, gap: Gap, total: real)
    requires total != 0.0
  {
    HeldIn(d, gap.cls) == [] && gap.cls !in d.pick && NewAmount(d, gap, total) >= MIN_TRADE
  }

  /** What the first pass could not place it records: every unfillable class with what it was due, and no class that was
      given a leg. */
  ghost predicate Records(d: Facts, gs: seq<Gap>, n: nat, total: real, unplaced: seq<(AssetClass, real)>)
    requires n <= |gs| && total != 0.0
  {
    && (forall e :: e in unplaced ==> exists k :: 0 <= k < n && Unplaced(d, gs[k], total, e))
    && (forall k | 0 <= k < n && Unfillable(d, gs[k], total) :: (gs[k].cls, NewAmount(d, gs[k], total)) in unplaced)
  }

  lemma {:induction false} TopUpAllGivesDues(d: Facts, g: Plan, tks: seq<Ticker>, per: real, cls: AssetClass)
    requires per >= 0.0 && g.remaining >= Times(|tks|, per)
    ensures var r := TopUpAll(d, g, tks, per, cls);
      r.legs == g.legs + Dues(d, tks, per, cls) && r.unplaced == g.unplaced
  {
    hide Room, Times;
    if tks != [] {
      TimesStep(|tks| - 1, per);
      TopUpAllGivesDues(d, g, tks[..|tks| - 1], per, cls);
      TopUpAllSpends(d, g, tks[..|tks| - 1], per, cls);
    }
  }

  lemma FillClassGivesDues(d: Facts, g: Plan, gap: Gap, total: real)
    requires total > 0.0 && gap.need >= MIN_TRADE && 0.0 <= Share(d.spendable, gap.need, total) <= g.remaining
    ensures var r := FillClass(d, g, gap, total);
      && r.legs == g.legs + ClassDues(d, gap, total)
      && (r.unplaced == g.unplaced
          || exists e :: Unplaced(d, gap, total, e) && r.unplaced == g.unplaced + [e])
      && (Unfillable(d, gap, total) ==> r.unplaced == g.unplaced + [(gap.cls, NewAmount(d, gap, total))])
  {
    hide Share, TopUpAll, Lightest, Times, Dues;
    var due, held := NewAmount(d, gap, total), HeldIn(d, gap.cls);
    if held != [] {
      TimesQuotient(|held|, due);
      TimesGrows(|held|, due / |held| as real);
      if g.remaining < MIN_TRADE {
        NoDues(d, Lightest(d, held), due / |held| as real, gap.cls);
      } else {
        TopUpAllGivesDues(d, g, Lightest(d, held), due / |held| as real, gap.cls);
      }
    } else if g.remaining >= MIN_TRADE {
      assert Opens(d, gap, total) || Unplaced(d, gap, total, (gap.cls, due));
    }
  }

  lemma TimesGrows(n: nat, per: real)
    requires n > 0 && per >= 0.0
    ensures Times(n, per) >= per
  {
    var more := n as real - 1.0;
    assert more * per >= 0.0;
    assert (more + 1.0) * per == more * per + per;
  }

  lemma {:induction false} NoDues(d: Facts, tks: seq<Ticker>, per: real, cls: AssetClass)
    requires per < MIN_TRADE
    ensures Dues(d, tks, per, cls) == []
  {
    if tks != [] {
      NoDues(d, tks[..|tks| - 1], per, cls);
    }
  }

  lemma {:induction false} FillAllGivesDues(d: Facts, g: Plan, gs: seq<Gap>, n: nat, total: real)
    requires n <= |gs| && Worthwhile(gs) && total > 0.0 && d.spendable >= 0.0 && g.legs == [] && g.unplaced == []
    requires g.remaining == SumShares(d, gs, total)
    ensures var r := FillAll(d, g, gs[..n], total);
      r.legs == AllDues(d, gs[..n], total) && Records(d, gs, n, total, r.unplaced)
  {
    hide FillClass, Opens, NewAmount, Share, ClassDues, Unplaced, Unfillable;
    if n > 0 {
      FillAllGivesDues(d, g, gs, n - 1, total);
      FillAllOpens(d, g, gs, n - 1, total);
      assert gs[..n][..n - 1] == gs[..n - 1];
      assert gs[..n][n - 1] == gs[n - 1];
      ShareNonNegative(d.spendable, gs[n - 1].need, total);
      SharesGrow(d, gs, n, total);
      FillClassGivesDues(d, FillAll(d, g, gs[..n - 1], total), gs[n - 1], total);
    }
  }

  /** The first pass gives each short class and each of its holdings what it is due, whatever was placed before. */
  lemma FirstPassGivesDues(d: Facts, gs: seq<Gap>)
    requires d.spendable >= 0.0 && gs != [] && Worthwhile(gs)
    ensures var total := TotalNeed(gs); var r := FillAll(d, Plan([], d.spendable, []), gs, total);
      r.legs == AllDues(d, gs, total) && Records(d, gs, |gs|, total, r.unplaced)
  {
    hide FillAll, Opens, NewAmount, Share, AllDues, Records;
    var total := TotalNeed(gs);
    SharesAddUp(d, gs, total);
    ShareDistributes(d.spendable, 0.0, 0.0, total);
    FillAllGivesDues(d, Plan([], d.spendable, []), gs, |gs|, total);
    assert gs[..|gs|] == gs;
  }

  // ---------------------------------------------------------------- when there is no card at all

  /** Something of a short class can be bought: a name to open, or a holding with a trade's worth of room. */
  ghost predicate Placeable(d: Facts, gap: Gap, total: real)
    requires total != 0.0
  {
    if gap.cls in d.held && d.held[gap.cls] != [] then exists tk :: tk in d.held[gap.cls] && HasRoom(d, tk)
    else gap.cls in d.pick && NewAmount(d, gap, total) >= MIN_TRADE
  }

  /** A trade more of a name keeps it within the cap. */
  ghost predicate HasRoom(d: Facts, tk: Ticker) {
    d.nav * Max(0.0, d.cap - (if tk in d.weight then d.weight[tk] else 0.0)) >= MIN_TRADE
  }

  lemma PlaceableIs(d: Facts, gap: Gap, total: real)
    requires total != 0.0
    ensures Placeable(d, gap, total) <==>
      Opens(d, gap, total) || exists tk :: tk in HeldIn(d, gap.cls) && Room(d, tk) >= MIN_TRADE
  {
    hide NewAmount;
    assert forall tk :: HasRoom(d, tk) <==> Room(d, tk) >= MIN_TRADE;
  }

  lemma {:induction false} NoRoomNoDues(d: Facts, tks: seq<Ticker>, per: real, cls: AssetClass)
    requires forall tk :: tk in tks ==> Room(d, tk) < MIN_TRADE
    ensures Dues(d, tks, per, cls) == []
  {
    hide Room;
    if tks != [] {
      assert tks[|tks| - 1] in tks;
      NoRoomNoDues(d, tks[..|tks| - 1], per, cls);
    }
  }

  lemma {:induction false} NothingPlaceable(d: Facts, gs: seq<Gap>, total: real, remaining: real)
    requires total != 0.0 && forall k :: 0 <= k < |gs| ==> !Placeable(d, gs[k], total)
    ensures AllDues(d, gs, total) == [] && BestOf(d, gs, remaining) == None
  {
    hide Room, Opens, Dues, Lightest, BestIn, Placeable;
    if gs != [] {
      var gap := gs[|gs| - 1];
      PlaceableIs(d, gap, total);
      var tks := Lightest(d, HeldIn(d, gap.cls));
      LightestIsSorted(d, HeldIn(d, gap.cls));
      NothingPlaceable(d, gs[..|gs| - 1], total, remaining);
      if tks != [] {
        NoRoomNoDues(d, tks, NewAmount(d, gap, total) / |tks| as real, gap.cls);
      }
      BestInNeedsRoom(d, tks, remaining, gap.cls);
    }
  }

  lemma {:induction false} BestInNeedsRoom(d: Facts, tks: seq<Ticker>, remaining: real, cls: AssetClass)
    requires forall tk :: tk in tks ==> Room(d, tk) < MIN_TRADE
    ensures BestIn(d, None, tks, remaining, cls) == None
  {
    hide Room;
    if tks != [] {
      assert tks[|tks| - 1] in tks;
      BestInNeedsRoom(d, tks[..|tks| - 1], remaining, cls);
    }
  }

  lemma {:induction false} DuesOfEach(d: Facts, gs: seq<Gap>, total: real, k: nat)
    requires total != 0.0 && k < |gs| && AllDues(d, gs, total) == []
    ensures ClassDues(d, gs[k], total) == []
  {
    hide ClassDues;
    if k < |gs| - 1 {
      DuesOfEach(d, gs[..|gs| - 1], total, k);
    }
  }

  lemma PlaceableIsPlaced(d: Facts, gs: seq<Gap>, k: nat)
    requires k < |gs| && TotalNeed(gs) != 0.0 && Placeable(d, gs[k], TotalNeed(gs)) && d.spendable >= MIN_TRADE
    ensures AllDues(d, gs, TotalNeed(gs)) != [] || BestOf(d, gs, d.spendable).Some?
  {
    hide Room, AllDues, BestOf, TotalNeed, NewAmount, Placeable;
    PlaceableIs(d, gs[k], TotalNeed(gs));
    if AllDues(d, gs, TotalNeed(gs)) == [] {
      DuesOfEach(d, gs, TotalNeed(gs), k);
      var tk :| tk in HeldIn(d, gs[k].cls) && Room(d, tk) >= MIN_TRADE;
      BestOfIsLargest(d, gs, d.spendable, k, tk);
    }
  }

  // ---------------------------------------------------------------- the last pass

  /** No trade's worth of cash is left, or no trade's worth of room for this leg. */
  ghost predicate Filled(d: Facts, g: Plan, i: nat)
    requires i < |g.legs|
  {
    g.remaining < MIN_TRADE || Room(d, g.legs[i].ticker) - g.legs[i].amount < MIN_TRADE
  }

  /** One leg grows, at most, and by what leaves the cash. */
  lemma ExtendFills(d: Facts, g: Plan, i: nat)
    requires i < |g.legs| && g.remaining >= 0.0
    ensures var r := Extend(d, g, i);
      && Filled(d, r, i) && 0.0 <= r.remaining <= g.remaining && r.unplaced == g.unplaced
      && r.legs[i] == g.legs[i].(amount := g.legs[i].amount + (g.remaining - r.remaining))
      && r.legs == g.legs[i := r.legs[i]]
      && (r != g ==> !Filled(d, g, i))
  {
    hide Room;
  }

  ghost predicate Once(order: seq<nat>) { forall a, b :: 0 <= a < b < |order| ==> order[a] != order[b] }

  ghost predicate Light(d: Facts, legs: seq<Leg>, order: seq<nat>)
    requires Within(order, |legs|)
  {
    forall a, b :: 0 <= a < b < |order| ==> WeightOf(d, legs[order[a]].ticker) <= WeightOf(d, legs[order[b]].ticker)
  }

  lemma {:induction false} InsertLegKeeps(d: Facts, legs: seq<Leg>, i: nat, order: seq<nat>)
    requires i < |legs| && Within(order, |legs|) && i !in order && Once(order) && Light(d, legs, order)
    ensures Once(InsertLeg(d, legs, i, order)) && Light(d, legs, InsertLeg(d, legs, i, order))
  {
    hide WeightOf;
    if order != [] && WeightOf(d, legs[i].ticker) > WeightOf(d, legs[order[0]].ticker) {
      InsertLegKeeps(d, legs, i, order[1..]);
      var tail := InsertLeg(d, legs, i, order[1..]);
      forall a | 0 <= a < |tail|
        ensures order[0] != tail[a] && WeightOf(d, legs[order[0]].ticker) <= WeightOf(d, legs[tail[a]].ticker)
      {
        assert tail[a] in tail;
      }
    }
  }

  lemma {:induction false} TopUpsAreLightFirst(d: Facts, legs: seq<Leg>, n: nat)
    requires n <= |legs|
    ensures Once(TopUps(d, legs, n)) && Light(d, legs, TopUps(d, legs, n))
    decreases |legs| - n
  {
    hide InsertLeg, WeightOf;
    if n < |legs| {
      TopUpsAreLightFirst(d, legs, n + 1);
      if !legs[n].isNew {
        InsertLegKeeps(d, legs, n, TopUps(d, legs, n + 1));
      }
    }
  }

  /** The same legs, none shrunk. */
  ghost predicate Grown(g: Plan, r: Plan) {
    && |r.legs| == |g.legs| && 0.0 <= r.remaining <= g.remaining && r.unplaced == g.unplaced
    && forall i :: 0 <= i < |g.legs| ==>
      r.legs[i] == g.legs[i].(amount := r.legs[i].amount) && g.legs[i].amount <= r.legs[i].amount
  }

  lemma {:induction false} ExtendAllGrows(d: Facts, g: Plan, order: seq<nat>)
    requires Within(order, |g.legs|) && g.remaining >= 0.0
    ensures var r := ExtendAll(d, g, order);
      Grown(g, r) && forall i :: 0 <= i < |g.legs| && i !in order ==> r.legs[i] == g.legs[i]
  {
    hide Extend, Room;
    if order != [] {
      var n := |order| - 1;
      ExtendAllGrows(d, g, order[..n]);
      ExtendFills(d, ExtendAll(d, g, order[..n]), order[n]);
      assert order == order[..n] + [order[n]];
    }
  }

  lemma ExtendKeepsFilled(d: Facts, g: Plan, i: nat, j: nat)
    requires i < |g.legs| && j < |g.legs| && g.remaining >= 0.0 && Filled(d, g, j)
    ensures Filled(d, Extend(d, g, i), j)
  {
    hide Room, Extend;
    ExtendFills(d, g, i);
  }

  /** The legs visited are filled. */
  lemma {:induction false} ExtendAllFills(d: Facts, g: Plan, order: seq<nat>, k: nat)
    requires Within(order, |g.legs|) && g.remaining >= 0.0 && k < |order|
    ensures Filled(d, ExtendAll(d, g, order), order[k])
  {
    hide Extend, Room, Filled;
    var n := |order| - 1;
    ExtendAllGrows(d, g, order[..n]);
    if k < n {
      ExtendAllFills(d, g, order[..n], k);
      ExtendKeepsFilled(d, ExtendAll(d, g, order[..n]), order[n], order[k]);
    } else {
      ExtendFills(d, ExtendAll(d, g, order[..n]), order[n]);
    }
  }

  /** And in their turn: one that grew had none before it in the order with a trade's worth of room left. */
  lemma {:induction false} ExtendAllInTurn(d: Facts, g: Plan, order: seq<nat>, a: nat, c: nat)
    requires Within(order, |g.legs|) && g.remaining >= 0.0 && Once(order) && a < c < |order|
    ensures var r := ExtendAll(d, g, order);
      r.legs[order[c]].amount > g.legs[order[c]].amount ==>
        Room(d, r.legs[order[a]].ticker) - r.legs[order[a]].amount < MIN_TRADE
  {
    hide Extend, Room;
    var n := |order| - 1;
    var m := ExtendAll(d, g, order[..n]);
    ExtendAllGrows(d, g, order[..n]);
    ExtendFills(d, m, order[n]);
    if c < n {
      ExtendAllInTurn(d, g, order[..n], a, c);
    } else {
      ExtendAllFills(d, g, order[..n], a);
      assert order[n] !in order[..n];
    }
  }

  /** The legs the first two passes make. */
  function EarlierPasses(d: Facts): Plan
    requires TotalNeed(Gaps(d, d.aims)) != 0.0
  {
    var gs := Gaps(d, d.aims);
    Concentrate(d, FillAll(d, Plan([], d.spendable, []), gs, TotalNeed(gs)), gs)
  }

  /** What the last pass does. No cash worth a trade stays idle beside a top-up with a trade's worth of room left; no
      leg shrinks and no new position changes; and a top-up only grows once every lighter one is full. */
  lemma NothingStaysIdle(d: Facts)
    requires d.nav != 0.0 && d.spendable >= MIN_TRADE && Gaps(d, d.aims) != []
    ensures var before, g := EarlierPasses(d), Redeploy.Redeploy(d);
      && Grown(before, g)
      && (forall i :: 0 <= i < |g.legs| && g.legs[i].isNew ==> g.legs[i] == before.legs[i])
      && (forall i :: 0 <= i < |g.legs| && !g.legs[i].isNew ==> Filled(d, g, i))
      && (forall i, j | 0 <= i < |g.legs| && 0 <= j < |g.legs| && Lighter(d, g.legs[i], g.legs[j]) ::
            g.legs[j].amount > before.legs[j].amount ==>
              Room(d, g.legs[i].ticker) - g.legs[i].amount < MIN_TRADE)
  {
    hide Gaps, FillAll, Concentrate, TopUps, ExtendAll, Room, Sound, WeightOf, TotalNeed, Filled;
    var empty, gs := Plan([], d.spendable, []), Gaps(d, d.aims);
    EmptyIsSound(d);
    FillAllSound(d, empty, gs, TotalNeed(gs));
    ConcentrateSound(d, FillAll(d, empty, gs, TotalNeed(gs)), gs);
    var before, g := EarlierPasses(d), Redeploy.Redeploy(d);
    var order := TopUps(d, before.legs, 0);
    SoundRemains(d, before);
    ExtendAllGrows(d, before, order);
    forall i | 0 <= i < |g.legs| && !g.legs[i].isNew
      ensures Filled(d, g, i)
    {
      var k :| 0 <= k < |order| && order[k] == i;
      ExtendAllFills(d, before, order, k);
    }
    forall i, j | 0 <= i < |g.legs| && 0 <= j < |g.legs| && Lighter(d, g.legs[i], g.legs[j])
      ensures g.legs[j].amount > before.legs[j].amount ==> Room(d, g.legs[i].ticker) - g.legs[i].amount < MIN_TRADE
    {
      LighterComesFirst(d, before, i, j);
      var a, c :| 0 <= a < c < |order| && order[a] == i && order[c] == j;
      TopUpsAreLightFirst(d, before.legs, 0);
      ExtendAllInTurn(d, before, order, a, c);
    }
  }

  /** Two top-ups, the first of the lighter holding. */
  ghost predicate Lighter(d: Facts, x: Leg, y: Leg) {
    !x.isNew && !y.isNew && WeightOf(d, x.ticker) < WeightOf(d, y.ticker)
  }

  lemma LighterComesFirst(d: Facts, g: Plan, i: nat, j: nat)
    requires i < |g.legs| && j < |g.legs| && Lighter(d, g.legs[i], g.legs[j])
    ensures var order := TopUps(d, g.legs, 0);
      exists a, c :: 0 <= a < c < |order| && order[a] == i && order[c] == j
  {
    hide WeightOf, TopUps;
    var order := TopUps(d, g.legs, 0);
    TopUpsAreLightFirst(d, g.legs, 0);
    assert i in order && j in order;
    var a :| 0 <= a < |order| && order[a] == i;
    var c :| 0 <= c < |order| && order[c] == j;
  }

  lemma EmptyIsSound(d: Facts)
    requires d.spendable >= 0.0
    ensures Sound(d, Plan([], d.spendable, []))
  {
  }

  lemma SoundRemains(d: Facts, g: Plan)
    requires Sound(d, g)
    ensures g.remaining >= 0.0
  {
  }

  /** What the first two passes make, from the gaps alone: every class's dues, or, when no leg of them is worth a trade,
      the one largest trade; and what could not be placed is recorded. */
  lemma EarlierPassesAre(d: Facts)
    requires d.nav != 0.0 && d.spendable >= MIN_TRADE && Gaps(d, d.aims) != []
    ensures TotalNeed(Gaps(d, d.aims)) > 0.0
    ensures var gs := Gaps(d, d.aims); var dues, g := AllDues(d, gs, TotalNeed(gs)), EarlierPasses(d);
      && Records(d, gs, |gs|, TotalNeed(gs), g.unplaced)
      && g.legs == if dues != [] then dues
                   else match BestOf(d, gs, d.spendable) case None => [] case Some(leg) => [leg]
  {
    hide Gaps, FillAll, AllDues, BestOf, Records, TotalNeed, Sound;
    var empty, gs := Plan([], d.spendable, []), Gaps(d, d.aims);
    FirstPassGivesDues(d, gs);
    EmptyIsSound(d);
    FillAllSound(d, empty, gs, TotalNeed(gs));
    if FillAll(d, empty, gs, TotalNeed(gs)).legs == [] {
      NoLegsNothingSpent(d, FillAll(d, empty, gs, TotalNeed(gs)));
    }
  }

  lemma NoLegsNothingSpent(d: Facts, g: Plan)
    requires Sound(d, g) && g.legs == []
    ensures g.remaining == d.spendable
  {
  }

  /** There is no card exactly when there is no surplus worth a trade, or no class is short by a trade, or nothing of
      any short class can be bought. */
  lemma NoCardIff(d: Facts)
    ensures var gs := Gaps(d, d.aims);
      Redeploy.Redeploy(d).legs == [] <==>
        || d.nav == 0.0 || d.spendable < MIN_TRADE || gs == []
        || forall k :: 0 <= k < |gs| ==> !Placeable(d, gs[k], TotalNeed(gs))
  {
    hide Gaps, TopUps, ExtendAll, Placeable, BestOf, AllDues, TotalNeed, Records, EarlierPasses, Filled, Room;
    var gs := Gaps(d, d.aims);
    if d.nav != 0.0 && d.spendable >= MIN_TRADE && gs != [] {
      NothingStaysIdle(d);
      EarlierPassesAre(d);
      if forall k :: 0 <= k < |gs| ==> !Placeable(d, gs[k], TotalNeed(gs)) {
        NothingPlaceable(d, gs, TotalNeed(gs), d.spendable);
      } else {
        var k :| 0 <= k < |gs| && Placeable(d, gs[k], TotalNeed(gs));
        PlaceableIsPlaced(d, gs, k);
      }
    }
  }
}
