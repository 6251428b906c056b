/** The split search: a coarse sweep, then a local pattern search around the winner. */
module SplitSearch {
  import opened Basics
  import opened SplitGrid
  import opened SplitMoves

  const MAX_REFINE_ROUNDS := 6
  const MARGIN := 0.000000001

  /** What a simulated split measured, out of sample and over the full history. */
  datatype Measurement = Measurement(oos: Option<real>, excess: Option<real>, admissible: bool)

  /** A point that could not be simulated measures nothing. */
  type Measure = Point -> Option<Measurement>

  datatype Key = OutOfSample | FullSample

  function Figure(m: Measurement, key: Key): Option<real> { if key.OutOfSample? then m.oos else m.excess }

  /** What a point is ranked on, if it may be ranked at all. */
  function Rank(measure: Measure, key: Key, p: Point): Option<real> {
    match measure(p)
    case None => None
    case Some(m) => if m.admissible then Figure(m, key) else None
  }

  /** The first point that could be measured decides which figure every point is ranked on. */
  function KeyFor(measure: Measure, order: seq<Point>): Key {
    if order == [] then FullSample
    else match measure(order[0])
      case None => KeyFor(measure, order[1..])
      case Some(m) => if m.oos.Some? then OutOfSample else FullSample
  }

  /** The best-ranked of the measured points, the earliest of several. */
  function Champion(measure: Measure, key: Key, order: seq<Point>): Option<Point> {
    if order == [] then None
    else
      var rest, p := Champion(measure, key, order[..|order| - 1]), order[|order| - 1];
      if Rank(measure, key, p).None? then rest
      else if rest.None? || Beats(measure, key, p, rest.value, 0.0) then Some(p)
      else rest
  }

  /** Ranked, and above the other by more than a margin. */
  predicate Beats(measure: Measure, key: Key, p: Point, q: Point, margin: real) {
    var a, b := Rank(measure, key, p), Rank(measure, key, q);
    a.Some? && b.Some? && a.value > b.value + margin
  }

  // ---------------------------------------------------------------- the search

  /** Points in the order they were measured, the best so far, and whether the current round has moved it. */
  datatype Hunt = Hunt(order: seq<Point>, best: Point, moved: bool)

  /** The memo: a point is measured the first time it is asked for. */
  function Remember(order: seq<Point>, p: Point): seq<Point> { if p in order then order else order + [p] }

  function RememberAll(order: seq<Point>, ps: seq<Point>): seq<Point> {
    if ps == [] then order else Remember(RememberAll(order, ps[..|ps| - 1]), ps[|ps| - 1])
  }

  function Try(measure: Measure, key: Key, h: Hunt, q: Point): Hunt {
    var order := Remember(h.order, q);
    if Beats(measure, key, q, h.best, MARGIN) then Hunt(order, q, true) else h.(order := order)
  }

  function TryAll(measure: Measure, key: Key, h: Hunt, qs: seq<Point>): Hunt {
    if qs == [] then h else Try(measure, key, TryAll(measure, key, h, qs[..|qs| - 1]), qs[|qs| - 1])
  }

  /** One round looks at every neighbour of the best it started from. */
  function Round(measure: Measure, key: Key, h: Hunt, fine: int, top: int): Hunt {
    TryAll(measure, key, h.(moved := false), Neighbours(h.best, fine, top))
  }

  function Rounds(measure: Measure, key: Key, h: Hunt, fine: int, top: int, k: nat): Hunt
    decreases k
  {
    if k == 0 then h
    else
      var r := Round(measure, key, h, fine, top);
      if r.moved then Rounds(measure, key, r, fine, top, k - 1) else r
  }

  /** Only steps finer than the grid refine it. */
  function Refine(measure: Measure, key: Key, h: Hunt, fine: int, used: int, top: int): Hunt {
    if fine >= used then h else Rounds(measure, key, h, fine, top, MAX_REFINE_ROUNDS)
  }

  function RefineAll(measure: Measure, key: Key, h: Hunt, fines: seq<int>, used: int, top: int): Hunt {
    if fines == [] then h
    else Refine(measure, key, RefineAll(measure, key, h, fines[..|fines| - 1], used, top), fines[|fines| - 1], used,
                top)
  }

  datatype Outcome = NoGrid | Failed | NothingAdmissible | Found(hunt: Hunt, key: Key, coarse: seq<Point>)

  function Search(measure: Measure, n: int, top: int, step: int, fines: seq<int>, maxPoints: int): Outcome {
    var grid := SimplexGrid(n, step, top, maxPoints);
    if grid.Unbuilt? then Failed
    else if grid.points == [] then NoGrid
    else
      var order := RememberAll([], grid.points);
      var key := KeyFor(measure, order);
      match Champion(measure, key, order)
      case None => NothingAdmissible
      case Some(best) => Found(RefineAll(measure, key, Hunt(order, best, false), fines, grid.step, top), key,
                               grid.points)
  }

  // ---------------------------------------------------------------- the driver, with its memo

  /** The memo and a log of every call it made. */
  class Scorer {
    const measure: Measure
    var scored: map<Point, Option<Measurement>>
    var order: seq<Point>
    var calls: seq<Point>

    constructor (measure: Measure)
      ensures Valid() && order == [] && this.measure == measure
    {
      this.measure := measure;
      scored, order, calls := map[], [], [];
    }

    /** Every stored result is what the point measures, and no point was ever measured twice. */
    ghost predicate Valid()
      reads this
    {
      && calls == order && NoRepeats(order)
      && (forall p :: p in scored <==> p in order)
      && forall p :: p in scored ==> scored[p] == measure(p)
    }

    method Score(p: Point) returns (m: Option<Measurement>)
      requires Valid()
      modifies this
      ensures Valid() && m == measure(p) && order == Remember(old(order), p)
    {
      if p in scored {
        return scored[p];
      }
      m := measure(p);
      calls := calls + [p];
      scored := scored[p := m];
      order := order + [p];
    }

    /** The sweep over the coarse grid. */
    method ScoreAll(ps: seq<Point>)
      requires Valid()
      modifies this
      ensures Valid() && order == RememberAll(old(order), ps)
    {
      for k := 0 to |ps|
        invariant Valid() && order == RememberAll(old(order), ps[..k])
      {
        assert ps[..k + 1][..k] == ps[..k];
        var m := Score(ps[k]);
      }
      assert ps[..|ps|] == ps;
    }

    method TryNeighbours(key: Key, best: Point, qs: seq<Point>) returns (winner: Point, moved: bool)
      requires Valid()
      modifies this
      ensures Valid() && Hunt(order, winner, moved) == TryAll(measure, key, Hunt(old(order), best, false), qs)
    {
      hide Beats, Remember;
      winner, moved := best, false;
      for k := 0 to |qs|
        invariant Valid() && Hunt(order, winner, moved) == TryAll(measure, key, Hunt(old(order), best, false), qs[..k])
      {
        assert qs[..k + 1][..k] == qs[..k];
        var m := Score(qs[k]);
        if Beats(measure, key, qs[k], winner, MARGIN) {
          winner, moved := qs[k], true;
        }
      }
      assert qs[..|qs|] == qs;
    }

    /** Up to six rounds at one step, ended early by a round that finds nothing better. */
    method RefineAt(key: Key, start: Hunt, fine: int, top: int) returns (winner: Point, moved: bool)
      requires Valid() && order == start.order
      modifies this
      ensures Valid() && Hunt(order, winner, moved) == Rounds(measure, key, start, fine, top, MAX_REFINE_ROUNDS)
    {
      hide TryAll, Neighbours;
      winner, moved := start.best, start.moved;
      for round := 0 to MAX_REFINE_ROUNDS
        invariant Valid()
        invariant Rounds(measure, key, start, fine, top, MAX_REFINE_ROUNDS)
               == Rounds(measure, key, Hunt(order, winner, moved), fine, top, MAX_REFINE_ROUNDS - round)
      {
        var qs := ComputeNeighbours(winner, fine, top);
        winner, moved := TryNeighbours(key, winner, qs);
        if !moved {
          break;
        }
      }
    }
  }

  method ComputeSearch(measure: Measure, n: int, top: int, step: int, fines: seq<int>, maxPoints: int)
    returns (outcome: Outcome, scorer: Scorer)
    ensures fresh(scorer) && scorer.Valid() && outcome == Search(measure, n, top, step, fines, maxPoints)
    ensures outcome.Found? ==> scorer.calls == outcome.hunt.order
  {
    hide SimplexGrid, KeyFor, Champion, Rounds, RememberAll, NoRepeats;
    scorer := new Scorer(measure);
    var grid := ComputeSimplexGrid(n, step, top, maxPoints);
    if grid.Unbuilt? {
      return Failed, scorer;
    }
    if grid.points == [] {
      return NoGrid, scorer;
    }
    scorer.ScoreAll(grid.points);
    var key := KeyFor(measure, scorer.order);
    var champion := Champion(measure, key, scorer.order);
    if champion.None? {
      return NothingAdmissible, scorer;
    }
    var best, moved := champion.value, false;
    ghost var start := Hunt(scorer.order, best, false);
    for k := 0 to |fines|
      invariant fresh(scorer) && scorer.Valid() && scorer.measure == measure
      invariant Hunt(scorer.order, best, moved) == RefineAll(measure, key, start, fines[..k], grid.step, top)
    {
      assert fines[..k + 1][..k] == fines[..k];
      if fines[k] >= grid.step {
        continue;
      }
      best, moved := scorer.RefineAt(key, Hunt(scorer.order, best, moved), fines[k], top);
    }
    assert fines[..|fines|] == fines;
    outcome := Found(Hunt(scorer.order, best, moved), key, grid.points);
  }

  // ---------------------------------------------------------------- every point is on the simplex and measured once

  /** The best is among the measured points, ranked, and no measured point ranks above it by more than the margin. */
  ghost predicate Leads(measure: Measure, key: Key, h: Hunt) {
    && h.best in h.order && Rank(measure, key, h.best).Some?
    && forall p :: p in h.order ==> !Beats(measure, key, p, h.best, MARGIN)
  }

  ghost predicate OnSimplex(order: seq<Point>, n: nat, top: int) { forall p :: p in order ==> InSimplex(p, n, top) }

  ghost predicate Sound(measure: Measure, key: Key, h: Hunt, n: nat, top: int) {
    Leads(measure, key, h) && OnSimplex(h.order, n, top) && NoRepeats(h.order)
  }

  lemma RememberKeeps(order: seq<Point>, p: Point)
    ensures |Remember(order, p)| <= |order| + 1 && (NoRepeats(order) ==> NoRepeats(Remember(order, p)))
    ensures forall x :: x in Remember(order, p) <==> x in order || x == p
  {
  }

  lemma {:induction false} RememberAllKeeps(order: seq<Point>, ps: seq<Point>)
    ensures |RememberAll(order, ps)| <= |order| + |ps| && (NoRepeats(order) ==> NoRepeats(RememberAll(order, ps)))
    ensures forall x :: x in RememberAll(order, ps) <==> x in order || x in ps
  {
    hide Remember, NoRepeats;
    if ps != [] {
      RememberAllKeeps(order, ps[..|ps| - 1]);
      RememberKeeps(RememberAll(order, ps[..|ps| - 1]), ps[|ps| - 1]);
      assert ps == ps[..|ps| - 1] + [ps[|ps| - 1]];
    }
  }

  lemma TryKeeps(measure: Measure, key: Key, h: Hunt, q: Point, n: nat, top: int)
    requires Sound(measure, key, h, n, top) && InSimplex(q, n, top)
    ensures var r := Try(measure, key, h, q);
      && Sound(measure, key, r, n, top) && |r.order| <= |h.order| + 1
      && (forall x :: x in r.order <==> x in h.order || x == q)
      && (!r.moved ==> !h.moved && r.best == h.best)
  {
    hide InSimplex, Remember, NoRepeats, Rank;
    RememberKeeps(h.order, q);
  }

  lemma {:induction false} TryAllKeeps(measure: Measure, key: Key, h: Hunt, qs: seq<Point>, n: nat, top: int)
    requires Sound(measure, key, h, n, top) && OnSimplex(qs, n, top) && !h.moved
    ensures var r := TryAll(measure, key, h, qs);
      && Sound(measure, key, r, n, top) && |r.order| <= |h.order| + |qs|
      && (forall x :: x in r.order <==> x in h.order || x in qs)
      && (!r.moved ==> r.best == h.best)
  {
    hide Try, Sound;
    if qs != [] {
      TryAllKeeps(measure, key, h, qs[..|qs| - 1], n, top);
      TryKeeps(measure, key, TryAll(measure, key, h, qs[..|qs| - 1]), qs[|qs| - 1], n, top);
      assert qs == qs[..|qs| - 1] + [qs[|qs| - 1]];
    }
  }

  /** No neighbour at this step ranks above the best by more than the margin. */
  ghost predicate LocallyBest(measure: Measure, key: Key, best: Point, fine: int, top: int) {
    forall q :: q in Neighbours(best, fine, top) ==> !Beats(measure, key, q, best, MARGIN)
  }

  lemma RoundKeeps(measure: Measure, key: Key, h: Hunt, fine: int, n: nat, top: int)
    requires Sound(measure, key, h, n, top) && fine > 0
    ensures var r := Round(measure, key, h, fine, top);
      && Sound(measure, key, r, n, top) && |r.order| <= |h.order| + n * (n + 1)
      && (forall x :: x in h.order ==> x in r.order)
      && (!r.moved ==> LocallyBest(measure, key, r.best, fine, top))
  {
    hide TryAll, Neighbours, NoRepeats, InSimplex, Beats, Rank;
    assert InSimplex(h.best, n, top);
    BestHasSize(h.best, n, top);
    NeighboursAre(h.best, fine, top);
    var qs := Neighbours(h.best, fine, top);
    assert Sound(measure, key, h.(moved := false), n, top);
    TryAllKeeps(measure, key, h.(moved := false), qs, n, top);
  }

  lemma BestHasSize(p: Point, n: nat, top: int)
    requires InSimplex(p, n, top)
    ensures |p| == n && InSimplex(p, |p|, top)
  {
  }

  lemma {:induction false} RoundsKeep(measure: Measure, key: Key, h: Hunt, fine: int, n: nat, top: int, k: nat)
    requires Sound(measure, key, h, n, top) && fine > 0
    ensures var r := Rounds(measure, key, h, fine, top, k);
      && Sound(measure, key, r, n, top) && |r.order| <= |h.order| + k * (n * (n + 1))
      && (forall x :: x in h.order ==> x in r.order)
      && (k > 0 && !r.moved ==> LocallyBest(measure, key, r.best, fine, top))
    decreases k
  {
    hide Round, Sound, LocallyBest;
    if k > 0 {
      RoundKeeps(measure, key, h, fine, n, top);
      var r := Round(measure, key, h, fine, top);
      assert k * (n * (n + 1)) == (k - 1) * (n * (n + 1)) + n * (n + 1);
      if r.moved {
        RoundsKeep(measure, key, r, fine, n, top, k - 1);
        if k == 1 {
          assert Rounds(measure, key, r, fine, top, 0) == r;
        }
      } else {
        assert (k - 1) * (n * (n + 1)) >= 0;
      }
    }
  }

  lemma {:induction false} RefineAllKeeps(measure: Measure, key: Key, h: Hunt, fines: seq<int>, used: int, n: nat,
                                          top: int)
    requires Sound(measure, key, h, n, top) && forall i :: 0 <= i < |fines| ==> fines[i] > 0
    ensures var r := RefineAll(measure, key, h, fines, used, top);
      && Sound(measure, key, r, n, top) && |r.order| <= |h.order| + |fines| * (MAX_REFINE_ROUNDS * (n * (n + 1)))
      && (forall x :: x in h.order ==> x in r.order)
      && (fines != [] && fines[|fines| - 1] < used && !r.moved ==>
          LocallyBest(measure, key, r.best, fines[|fines| - 1], top))
  {
    hide Rounds, Sound, LocallyBest;
    if fines != [] {
      var m := |fines| - 1;
      RefineAllKeeps(measure, key, h, fines[..m], used, n, top);
      var c := MAX_REFINE_ROUNDS * (n * (n + 1));
      assert |fines| * c == m * c + c && c >= 0;
      if fines[m] < used {
        RoundsKeep(measure, key, RefineAll(measure, key, h, fines[..m], used, top), fines[m], n, top,
                   MAX_REFINE_ROUNDS);
      }
    }
  }

  // ---------------------------------------------------------------- the sweep

  lemma {:induction false} ChampionLeads(measure: Measure, key: Key, order: seq<Point>)
    ensures match Champion(measure, key, order)
      case None => forall p :: p in order ==> Rank(measure, key, p).None?
      case Some(best) => best in order && Rank(measure, key, best).Some?
                         && forall p :: p in order ==> !Beats(measure, key, p, best, 0.0)
  {
    hide Rank;
    if order != [] {
      ChampionLeads(measure, key, order[..|order| - 1]);
      assert order == order[..|order| - 1] + [order[|order| - 1]];
    }
  }

  /** Every point is ranked on the out-of-sample figure exactly when the first point that could be measured has one. */
  lemma {:induction false} KeyIsTheFirstMeasured(measure: Measure, order: seq<Point>)
    ensures KeyFor(measure, order).OutOfSample? <==>
      exists i :: 0 <= i < |order| && measure(order[i]).Some? && measure(order[i]).value.oos.Some?
                  && forall j :: 0 <= j < i ==> measure(order[j]).None?
  {
    if order != [] && measure(order[0]).None? {
      KeyIsTheFirstMeasured(measure, order[1..]);
      if KeyFor(measure, order[1..]).OutOfSample? {
        var i :| 0 <= i < |order| - 1 && measure(order[1..][i]).Some? && measure(order[1..][i]).value.oos.Some?
                 && forall j :: 0 <= j < i ==> measure(order[1..][j]).None?;
        assert forall j :: 0 < j < i + 1 ==> measure(order[j]) == measure(order[1..][j - 1]);
        assert measure(order[i + 1]).Some?;
      }
    }
  }

  lemma MarginOnlyHelps(measure: Measure, key: Key, q: Point)
    ensures forall p :: Beats(measure, key, p, q, MARGIN) ==> Beats(measure, key, p, q, 0.0)
  {
  }

  lemma GridOnSimplex(n: int, step: int, top: int, maxPoints: int)
    ensures var grid := SimplexGrid(n, step, top, maxPoints);
      grid.Unbuilt? || (n >= 0 ==> OnSimplex(grid.points, n, top))
    ensures var grid := SimplexGrid(n, step, top, maxPoints); grid.Unbuilt? || n > 0 || grid.points == []
  {
    hide Coarsen;
    if n > 0 && step > 0 && top > 0 {
      CoarsenOnSimplex(n, step, top, maxPoints, ROUNDS, Unbuilt);
    }
  }

  lemma {:induction false} CoarsenOnSimplex(n: nat, step: int, top: int, maxPoints: int, rounds: nat, built: Grid)
    requires step > 0 && (built.Unbuilt? || OnSimplex(built.points, n, top))
    ensures var grid := Coarsen(n, step, top, maxPoints, rounds, built); grid.Unbuilt? || OnSimplex(grid.points, n, top)
    decreases rounds
  {
    hide Affordable, GridAt, Power, Levels, InSimplex, FirstOf;
    if rounds > 0 {
      forall p | p in GridAt(n, step, top)
        ensures InSimplex(p, n, top)
      {
        GridPointsAre(n, step, top, p);
      }
      FirstOfIn(GridAt(n, step, top), maxPoints);
      if !Affordable(n, step, top, maxPoints) {
        var next := if Power(|Levels(step, 0, top / step)|, n) > BUILD_LIMIT then built
                    else Cut(FirstOf(GridAt(n, step, top), maxPoints), step);
        CoarsenOnSimplex(n, 2 * step, top, maxPoints, rounds - 1, next);
      }
    }
  }

  lemma FirstOfIn(ps: seq<Point>, k: int)
    ensures forall p :: p in FirstOf(ps, k) ==> p in ps
  {
  }

  /** Everything tried is a split the ceiling allows, tried once, and nothing tried ranks above the answer. */
  ghost predicate Outstanding(measure: Measure, found: Outcome, n: nat, top: int)
    requires found.Found?
  {
    Sound(measure, found.key, found.hunt, n, top) && forall p :: p in found.coarse ==> p in found.hunt.order
  }

  /** The sweep, and at most six rounds of n(n + 1) moves for each refinement step. */
  ghost predicate Thrifty(found: Outcome, n: nat, steps: nat)
    requires found.Found?
  {
    |found.hunt.order| <= |found.coarse| + steps * (MAX_REFINE_ROUNDS * (n * (n + 1)))
  }

  /** Whatever the measure says: every point tried is a split the ceiling allows, each is measured once, the cost is
      the sweep plus at most 6 rounds of n(n + 1) moves for each refinement step, and no point tried ranks above the
      answer by more than the margin.  If the last step's search ended by itself, none of the answer's neighbours at
      that step would improve on it either. */
  lemma SearchIsSound(measure: Measure, n: int, top: int, step: int, fines: seq<int>, maxPoints: int)
    requires forall i :: 0 <= i < |fines| ==> fines[i] > 0
    ensures var found := Search(measure, n, top, step, fines, maxPoints);
      found.Found? ==> n > 0 && Outstanding(measure, found, n, top) && Thrifty(found, n, |fines|)
    ensures var found := Search(measure, n, top, step, fines, maxPoints);
      found.Found? && fines != [] && fines[|fines| - 1] < SimplexGrid(n, step, top, maxPoints).step &&
        !found.hunt.moved ==>
        LocallyBest(measure, found.key, found.hunt.best, fines[|fines| - 1], top)
  {
    hide SimplexGrid, KeyFor, Champion, RefineAll, RememberAll, LocallyBest, InSimplex, Beats, Rank;
    var grid := SimplexGrid(n, step, top, maxPoints);
    if !Search(measure, n, top, step, fines, maxPoints).Found? {
      return;
    }
    GridOnSimplex(n, step, top, maxPoints);
    RememberAllKeeps([], grid.points);
    var order := RememberAll([], grid.points);
    var key := KeyFor(measure, order);
    ChampionLeads(measure, key, order);
    var start := Hunt(order, Champion(measure, key, order).value, false);
    MarginOnlyHelps(measure, key, start.best);
    RefineAllKeeps(measure, key, start, fines, grid.step, n, top);
  }

  /** Measured, admissible, and with this figure: out of sample, or over the full history when that is what ranks. */
  ghost predicate Shows(m: Option<Measurement>, outOfSample: bool, x: real) {
    && m.Some? && m.value.admissible
    && (outOfSample ==> m.value.oos == Some(x)) && (!outOfSample ==> m.value.excess == Some(x))
  }

  lemma RankIsShown(measure: Measure, key: Key, p: Point, x: real)
    ensures Rank(measure, key, p) == Some(x) <==> Shows(measure(p), key.OutOfSample?, x)
  {
  }

  /** An answer is admissible, and shows as high a figure as any admissible split that was tried, to within 1e-9. */
  lemma WinnerIsAdmissible(measure: Measure, n: int, top: int, step: int, fines: seq<int>, maxPoints: int)
    returns (x: real)
    requires forall i :: 0 <= i < |fines| ==> fines[i] > 0
    requires Search(measure, n, top, step, fines, maxPoints).Found?
    ensures var found := Search(measure, n, top, step, fines, maxPoints);
      && Shows(measure(found.hunt.best), found.key.OutOfSample?, x)
      && forall p, y :: p in found.hunt.order && Shows(measure(p), found.key.OutOfSample?, y) ==> y <= x + 0.000000001
  {
    hide Search, Rank, Shows;
    SearchIsSound(measure, n, top, step, fines, maxPoints);
    var found := Search(measure, n, top, step, fines, maxPoints);
    x := Rank(measure, found.key, found.hunt.best).value;
    RankIsShown(measure, found.key, found.hunt.best, x);
    forall p, y | p in found.hunt.order && Shows(measure(p), found.key.OutOfSample?, y)
      ensures y <= x + 0.000000001
    {
      RankIsShown(measure, found.key, p, y);
    }
  }

  /** Some point is admissible and shows the figure that ranks. */
  ghost predicate SomeShows(measure: Measure, points: seq<Point>, outOfSample: bool) {
    exists p, x :: p in points && Shows(measure(p), outOfSample, x)
  }

  lemma ChampionIff(measure: Measure, key: Key, order: seq<Point>)
    ensures Champion(measure, key, order).Some? <==> SomeShows(measure, order, key.OutOfSample?)
  {
    hide Rank, Shows;
    ChampionLeads(measure, key, order);
    match Champion(measure, key, order) {
      case None =>
        forall p, x | p in order
          ensures !Shows(measure(p), key.OutOfSample?, x)
        {
          RankIsShown(measure, key, p, x);
        }
      case Some(best) =>
        RankIsShown(measure, key, best, Rank(measure, key, best).value);
    }
  }

  lemma SweptShow(measure: Measure, points: seq<Point>, outOfSample: bool)
    ensures SomeShows(measure, RememberAll([], points), outOfSample) <==> SomeShows(measure, points, outOfSample)
  {
    hide RememberAll, Shows;
    RememberAllKeeps([], points);
  }

  /** There is an answer exactly when some split of the grid is admissible and shows the figure that ranks. */
  lemma FoundIff(measure: Measure, n: int, top: int, step: int, fines: seq<int>, maxPoints: int)
    requires !SimplexGrid(n, step, top, maxPoints).Unbuilt?
    ensures var points := SimplexGrid(n, step, top, maxPoints).points;
      var outOfSample := KeyFor(measure, RememberAll([], points)).OutOfSample?;
      Search(measure, n, top, step, fines, maxPoints).Found? <==> SomeShows(measure, points, outOfSample)
  {
    hide SimplexGrid, SomeShows;
    var points := SimplexGrid(n, step, top, maxPoints).points;
    var order := RememberAll([], points);
    var key := KeyFor(measure, order);
    ChampionIff(measure, key, order);
    SweptShow(measure, points, key.OutOfSample?);
    NoneShow(measure, key.OutOfSample?);
  }

  lemma NoneShow(measure: Measure, outOfSample: bool)
    ensures !SomeShows(measure, [], outOfSample)
  {
  }
}
