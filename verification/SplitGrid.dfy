/** The points a split search tries: a lattice on the simplex, and the moves from one of its points.
    Percentages are whole ten-thousandths of a point, the unit the source rounds to. */
module SplitGrid {
  type Point = seq<int>

  const ROUNDS := 8
  const BUILD_LIMIT := 200000

  // ---------------------------------------------------------------- points

  function Sum(p: Point): int { if p == [] then 0 else p[0] + Sum(p[1..]) }

  /** Sizes that are not negative and fit under the ceiling. */
  ghost predicate InSimplex(p: Point, n: nat, top: int) {
    |p| == n && (forall i :: 0 <= i < n ==> p[i] >= 0) && Sum(p) <= top
  }

  /** A simplex point all of whose sizes are on the grid. */
  ghost predicate OnGrid(p: Point, n: nat, step: int, top: int)
    requires step > 0
  {
    InSimplex(p, n, top) && forall i :: 0 <= i < n ==> p[i] % step == 0
  }

  /** The order tuples are sorted in. */
  predicate Before(p: Point, q: Point) {
    q != [] && (p == [] || p[0] < q[0] || (p[0] == q[0] && Before(p[1..], q[1..])))
  }

  ghost predicate Sorted(ps: seq<Point>) {
    forall i, j :: 0 <= i < j < |ps| ==> Before(ps[i], ps[j])
  }

  ghost predicate NoRepeats(ps: seq<Point>) { forall i, j :: 0 <= i < j < |ps| ==> ps[i] != ps[j] }

  lemma SortedHasNoRepeats(ps: seq<Point>)
    requires Sorted(ps)
    ensures NoRepeats(ps)
  {
    forall i, j | 0 <= i < j < |ps|
      ensures ps[i] != ps[j]
    {
      BeforeIsStrict(ps[i]);
    }
  }

  lemma {:induction false} BeforeIsStrict(p: Point)
    ensures !Before(p, p)
  {
    if p != [] {
      BeforeIsStrict(p[1..]);
    }
  }

  // ---------------------------------------------------------------- the lattice

  /** k*step, (k+1)*step, ... up to m*step. */
  function Levels(step: int, k: nat, m: int): seq<int>
    decreases m + 1 - k
  {
    if k > m then [] else [k * step] + Levels(step, k + 1, m)
  }

  function Extend(v: int, ps: seq<Point>): (r: seq<Point>)
    ensures |r| == |ps| && forall i :: 0 <= i < |ps| ==> r[i] == [v] + ps[i]
  {
    seq(|ps|, i requires 0 <= i < |ps| => [v] + ps[i])
  }

  function Cross(vs: seq<int>, ps: seq<Point>): seq<Point> {
    if vs == [] then [] else Extend(vs[0], ps) + Cross(vs[1..], ps)
  }

  /** All n-tuples over the levels, the last place running fastest. */
  function Product(vs: seq<int>, n: nat): seq<Point> {
    if n == 0 then [[]] else Cross(vs, Product(vs, n - 1))
  }

  function Fitting(ps: seq<Point>, top: int): seq<Point> {
    if ps == [] then [] else (if Sum(ps[0]) <= top then [ps[0]] else []) + Fitting(ps[1..], top)
  }

  function Power(b: nat, n: nat): nat { if n == 0 then 1 else b * Power(b, n - 1) }

  function GridAt(n: nat, step: int, top: int): seq<Point>
    requires step > 0
  {
    Fitting(Product(Levels(step, 0, top / step), n), top)
  }

  /** Whether a step is coarse enough: the tuples may be built, and enough of them fall away. */
  predicate Affordable(n: nat, step: int, top: int, maxPoints: int)
    requires step > 0
  {
    Power(|Levels(step, 0, top / step)|, n) <= BUILD_LIMIT && |GridAt(n, step, top)| <= maxPoints
  }

  /** A grid at the step finally used; or, after eight rounds too fine, what the last built list is cut to; or the
      failure of having built none. */
  datatype Grid = Exact(points: seq<Point>, step: int) | Cut(points: seq<Point>, step: int) | Unbuilt

  function Coarsen(n: nat, step: int, top: int, maxPoints: int, rounds: nat, built: Grid): Grid
    requires step > 0
    decreases rounds
  {
    if rounds == 0 then if built.Unbuilt? then Unbuilt else Cut(built.points, step)
    else if Affordable(n, step, top, maxPoints) then Exact(GridAt(n, step, top), step)
    else
      Coarsen(n, 2 * step, top, maxPoints, rounds - 1,
              if Power(|Levels(step, 0, top / step)|, n) > BUILD_LIMIT then built
              else Cut(FirstOf(GridAt(n, step, top), maxPoints), step))
  }

  /** A slice up to k, with a negative k counting from the end. */
  function FirstOf(ps: seq<Point>, k: int): seq<Point> {
    if k >= |ps| then ps else if k >= 0 then ps[..k] else if -k <= |ps| then ps[..|ps| + k] else []
  }

  function SimplexGrid(n: int, step: int, top: int, maxPoints: int): Grid {
    if n <= 0 || step <= 0 || top <= 0 then Exact([], step) else Coarsen(n, step, top, maxPoints, ROUNDS, Unbuilt)
  }

  /** The coarsening loop. */
  method ComputeSimplexGrid(n: int, step: int, top: int, maxPoints: int) returns (grid: Grid)
    ensures grid == SimplexGrid(n, step, top, maxPoints)
  {
    hide GridAt, Power, Levels;
    if n <= 0 || step <= 0 || top <= 0 {
      return Exact([], step);
    }
    var used, built := step, Unbuilt;
    for round := 0 to ROUNDS
      invariant used > 0
      invariant SimplexGrid(n, step, top, maxPoints) == Coarsen(n, used, top, maxPoints, ROUNDS - round, built)
    {
      if Power(|Levels(used, 0, top / used)|, n) <= BUILD_LIMIT {
        var points := GridAt(n, used, top);
        if |points| <= maxPoints {
          return Exact(points, used);
        }
        built := Cut(FirstOf(points, maxPoints), used);
      }
      used := used * 2;
    }
    grid := if built.Unbuilt? then Unbuilt else Cut(built.points, used);
  }

  // ---------------------------------------------------------------- the lattice is exact

  lemma {:induction false} LevelsAre(step: int, k: nat, m: int, v: int)
    requires step > 0
    ensures v in Levels(step, k, m) <==> exists i: int :: k <= i <= m && v == i * step
    decreases m + 1 - k
  {
    if k <= m {
      LevelsAre(step, k + 1, m, v);
    }
  }

  lemma {:induction false} LevelsSize(step: int, k: nat, m: int)
    requires k <= m + 1
    ensures |Levels(step, k, m)| == m + 1 - k
    decreases m + 1 - k
  {
    if k <= m {
      LevelsSize(step, k + 1, m);
    }
  }

  lemma {:induction false} CrossMembers(vs: seq<int>, ps: seq<Point>, p: Point)
    ensures p in Cross(vs, ps) <==> p != [] && p[0] in vs && p[1..] in ps
  {
    if vs != [] {
      CrossMembers(vs[1..], ps, p);
      ExtendMembers(vs[0], ps, p);
    }
  }

  lemma ExtendMembers(v: int, ps: seq<Point>, p: Point)
    ensures p in Extend(v, ps) <==> p != [] && p[0] == v && p[1..] in ps
  {
    if p != [] && p[0] == v && p[1..] in ps {
      var i :| 0 <= i < |ps| && ps[i] == p[1..];
      assert Extend(v, ps)[i] == p;
    }
  }

  lemma {:induction false} CrossLength(vs: seq<int>, ps: seq<Point>)
    ensures |Cross(vs, ps)| == |vs| * |ps|
  {
    if vs != [] {
      CrossLength(vs[1..], ps);
      OneMore(|vs| - 1, |ps|);
    }
  }

  lemma OneMore(n: int, m: int)
    ensures (n + 1) * m == n * m + m
  {
  }

  /** The bound that keeps tuples from being built counts them. */
  lemma {:induction false} PowerCountsTuples(vs: seq<int>, n: nat)
    ensures |Product(vs, n)| == Power(|vs|, n)
  {
    if n > 0 {
      PowerCountsTuples(vs, n - 1);
      CrossLength(vs, Product(vs, n - 1));
    }
  }

  /** A cut list is the front of the list: as many as asked for, or all but as many as a negative count says. */
  lemma FirstOfIsFront(ps: seq<Point>, k: int)
    ensures FirstOf(ps, k) <= ps
    ensures k >= 0 ==> |FirstOf(ps, k)| == if k < |ps| then k else |ps|
    ensures k < 0 ==> |FirstOf(ps, k)| == if |ps| + k > 0 then |ps| + k else 0
  {
  }

  lemma {:induction false} ProductMembers(vs: seq<int>, n: nat, p: Point)
    ensures p in Product(vs, n) <==> |p| == n && forall i :: 0 <= i < n ==> p[i] in vs
  {
    hide Cross;
    if n == 0 {
      assert p in Product(vs, 0) <==> p == [];
    } else {
      CrossMembers(vs, Product(vs, n - 1), p);
      if p != [] {
        ProductMembers(vs, n - 1, p[1..]);
        assert |p| == n ==> ((forall i :: 0 <= i < n ==> p[i] in vs) <==> p[0] in vs && forall i :: 0 <= i < n - 1 ==>
                             p[1..][i] in vs) by {
          assert forall i :: 0 < i < n && |p| == n ==> p[i] == p[1..][i - 1];
        }
      }
    }
  }

  lemma {:induction false} FittingMembers(ps: seq<Point>, top: int, p: Point)
    ensures p in Fitting(ps, top) <==> p in ps && Sum(p) <= top
  {
    if ps != [] {
      FittingMembers(ps[1..], top, p);
    }
  }

  lemma {:induction false} PartBelowSum(p: Point, i: nat)
    requires i < |p| && forall k :: 0 <= k < |p| ==> p[k] >= 0
    ensures p[i] <= Sum(p) && Sum(p) >= 0
  {
    if |p| > 1 {
      PartBelowSum(p[1..], if i > 0 then i - 1 else 0);
    }
  }

  lemma LevelMeans(step: int, top: int, v: int)
    requires step > 0 && v <= top
    ensures v in Levels(step, 0, top / step) <==> v >= 0 && v % step == 0
  {
    LevelsAre(step, 0, top / step, v);
    if v >= 0 && v % step == 0 {
      QuotientMonotone(v, top, step);
      assert v == (v / step) * step && 0 <= v / step <= top / step;
    }
    forall i: int | 0 <= i <= top / step && v == i * step
      ensures v >= 0 && v % step == 0
    {
      MultipleIsExact(i, step);
    }
  }

  lemma AtLeastOne(d: int, step: int)
    requires step > 0 && d >= 1
    ensures d * step >= step
  {
  }

  /** Division by a positive step is the only way to split a number into steps and a smaller rest. */
  lemma DivisionIsUnique(x: int, q: int, r: int, step: int)
    requires step > 0 && x == q * step + r && 0 <= r < step
    ensures x / step == q && x % step == r
  {
    var d := x / step - q;
    assert d * step == r - x % step;
    if d >= 1 {
      AtLeastOne(d, step);
    } else if d <= -1 {
      AtLeastOne(-d, step);
    }
  }

  lemma QuotientMonotone(a: int, b: int, step: int)
    requires step > 0 && a <= b
    ensures a / step <= b / step && (a >= 0 ==> a / step >= 0)
  {
    var d := a / step - b / step;
    assert d * step == a - a % step - (b - b % step);
    if d >= 1 {
      AtLeastOne(d, step);
    }
    if a / step <= -1 {
      AtLeastOne(-(a / step), step);
    }
  }

  lemma MultipleIsExact(i: int, step: int)
    requires step > 0
    ensures (i * step) % step == 0 && (i >= 0 ==> i * step >= 0)
  {
    DivisionIsUnique(i * step, i, 0, step);
  }

  /** The lattice holds every grid point of the simplex and nothing else. */
  lemma GridPointsAre(n: nat, step: int, top: int, p: Point)
    requires step > 0
    ensures p in GridAt(n, step, top) <==> OnGrid(p, n, step, top)
  {
    hide Levels, Product, Fitting, Sum;
    var vs := Levels(step, 0, top / step);
    FittingMembers(Product(vs, n), top, p);
    ProductMembers(vs, n, p);
    forall i | 0 <= i < |p| && |p| == n && Sum(p) <= top &&
      ((forall k :: 0 <= k < n ==> p[k] in vs) || (forall k :: 0 <= k < n ==> p[k] >= 0))
      ensures p[i] in vs <==> p[i] >= 0 && p[i] % step == 0
    {
      forall k | 0 <= k < n && p[k] in vs
        ensures p[k] >= 0
      {
        LevelsAre(step, 0, top / step, p[k]);
      }
      PartBelowSum(p, i);
      LevelMeans(step, top, p[i]);
    }
  }

  // ---------------------------------------------------------------- sorted, so without repeats

  ghost predicate Ascending(vs: seq<int>) { forall i, j :: 0 <= i < j < |vs| ==> vs[i] < vs[j] }

  lemma {:induction false} FittingSorted(ps: seq<Point>, top: int)
    requires Sorted(ps)
    ensures Sorted(Fitting(ps, top))
  {
    if ps != [] {
      FittingSorted(ps[1..], top);
      forall p | p in Fitting(ps[1..], top)
        ensures Before(ps[0], p)
      {
        FittingMembers(ps[1..], top, p);
      }
    }
  }

  lemma {:induction false} CrossSorted(vs: seq<int>, ps: seq<Point>)
    requires Sorted(ps) && Ascending(vs)
    ensures Sorted(Cross(vs, ps))
  {
    if vs != [] {
      var head, tail := Extend(vs[0], ps), Cross(vs[1..], ps);
      CrossSorted(vs[1..], ps);
      forall i, j | 0 <= i < j < |head|
        ensures Before(head[i], head[j])
      {
        assert head[i][1..] == ps[i] && head[j][1..] == ps[j];
      }
      forall p, q | p in head && q in tail
        ensures Before(p, q)
      {
        CrossMembers(vs[1..], ps, q);
        ExtendMembers(vs[0], ps, p);
      }
    }
  }

  lemma {:induction false} ProductSorted(vs: seq<int>, n: nat)
    requires Ascending(vs)
    ensures Sorted(Product(vs, n))
  {
    if n > 0 {
      ProductSorted(vs, n - 1);
      CrossSorted(vs, Product(vs, n - 1));
    }
  }

  lemma {:induction false} LevelAt(step: int, k: nat, m: int, i: nat)
    requires k + i <= m
    ensures i < |Levels(step, k, m)| && Levels(step, k, m)[i] == (k + i) * step
    decreases i
  {
    if i > 0 {
      LevelAt(step, k + 1, m, i - 1);
    }
  }

  lemma LevelsAscend(step: int, m: int)
    requires step > 0 && m >= -1
    ensures Ascending(Levels(step, 0, m))
  {
    LevelsSize(step, 0, m);
    forall i, j | 0 <= i < j <= m
      ensures Levels(step, 0, m)[i] < Levels(step, 0, m)[j]
    {
      LevelAt(step, 0, m, i);
      LevelAt(step, 0, m, j);
      AtLeastOne(j - i, step);
      assert j * step - i * step == (j - i) * step;
    }
  }

  lemma GridSorted(n: nat, step: int, top: int)
    requires step > 0 && top >= 0
    ensures Sorted(GridAt(n, step, top))
  {
    SignOfQuotient(top, step);
    LevelsAscend(step, top / step);
    ProductSorted(Levels(step, 0, top / step), n);
    FittingSorted(Product(Levels(step, 0, top / step), n), top);
  }

  // ---------------------------------------------------------------- and counted

  function Choose(n: nat, k: nat): nat {
    if k == 0 then 1 else if n == 0 then 0 else Choose(n - 1, k - 1) + Choose(n - 1, k)
  }

  lemma {:induction false} ChooseOutside(n: nat, k: nat)
    requires k > n
    ensures Choose(n, k) == 0
  {
    if n > 0 {
      ChooseOutside(n - 1, k - 1);
      ChooseOutside(n - 1, k);
    }
  }

  lemma {:induction false} FittingAppend(a: seq<Point>, b: seq<Point>, top: int)
    ensures Fitting(a + b, top) == Fitting(a, top) + Fitting(b, top)
  {
    if a == [] {
      assert a + b == b;
    } else {
      assert (a + b)[1..] == a[1..] + b;
      FittingAppend(a[1..], b, top);
    }
  }

  lemma {:induction false} FittingExtend(v: int, ps: seq<Point>, top: int)
    ensures |Fitting(Extend(v, ps), top)| == |Fitting(ps, top - v)|
  {
    if ps != [] {
      assert Extend(v, ps)[1..] == Extend(v, ps[1..]);
      assert Extend(v, ps)[0][1..] == ps[0];
      FittingExtend(v, ps[1..], top);
    }
  }

  /** Points of n places that fit in m further steps. */
  function Lattice(n: nat, m: int): nat { if m < 0 then 0 else Choose(m + n, n) }

  lemma LatticePascal(n: nat, m: int)
    requires n > 0 && m >= 0
    ensures Lattice(n, m) == Lattice(n - 1, m) + Lattice(n, m - 1)
  {
    if m == 0 {
      ChooseOutside(n - 1, n);
    }
  }

  /** The count for one place fewer, under every ceiling up to this one. */
  ghost predicate Counted(step: int, m: int, n: nat, top: int)
    requires step > 0
  {
    forall t :: t <= top ==> |Fitting(Product(Levels(step, 0, m), n), t)| == Lattice(n, t / step)
  }

  lemma FirstLevelCount(step: int, k: nat, m: int, n: nat, top: int)
    requires step > 0 && n > 0 && k <= m && Counted(step, m, n - 1, top)
    ensures var ps := Product(Levels(step, 0, m), n - 1);
      |Fitting(Cross(Levels(step, k, m), ps), top)|
      == Lattice(n - 1, top / step - k) + |Fitting(Cross(Levels(step, k + 1, m), ps), top)|
  {
    hide Product, Fitting, Lattice, Extend;
    var ps := Product(Levels(step, 0, m), n - 1);
    FittingAppend(Extend(k * step, ps), Cross(Levels(step, k + 1, m), ps), top);
    FittingExtend(k * step, ps, top);
    MultipleIsExact(k, step);
    ShiftQuotient(top, k, step);
  }

  lemma {:induction false} CrossCount(step: int, k: nat, m: int, n: nat, top: int)
    requires step > 0 && n > 0 && top / step <= m && k <= m + 1 && Counted(step, m, n - 1, top)
    ensures |Fitting(Cross(Levels(step, k, m), Product(Levels(step, 0, m), n - 1)), top)| == Lattice(n, top / step - k)
    decreases m + 1 - k
  {
    hide Lattice, Product, Counted, Fitting;
    var left := top / step - k;
    if k > m {
      NothingLeft(n, left);
      NothingFits(top);
    } else {
      FirstLevelCount(step, k, m, n, top);
      CrossCount(step, k + 1, m, n, top);
      if left >= 0 {
        LatticePascal(n, left);
      } else {
        NothingLeft(n, left);
        NothingLeft(n, left - 1);
        NothingLeft(n - 1, left);
      }
    }
  }

  lemma NothingFits(top: int)
    ensures Fitting([], top) == []
  {
  }

  lemma NothingLeft(n: nat, m: int)
    requires m < 0
    ensures Lattice(n, m) == 0
  {
  }

  lemma ShiftQuotient(top: int, k: int, step: int)
    requires step > 0
    ensures (top - k * step) / step == top / step - k
  {
    DivisionIsUnique(top - k * step, top / step - k, top % step, step);
  }

  lemma {:induction false} ProductCount(step: int, m: int, n: nat, top: int)
    requires step > 0 && top / step <= m && m >= -1
    ensures |Fitting(Product(Levels(step, 0, m), n), top)| == Lattice(n, top / step)
  {
    if n == 0 {
      SignOfQuotient(top, step);
      assert Product(Levels(step, 0, m), 0)[1..] == [];
    } else {
      hide Lattice, Levels, Fitting, Cross;
      forall t | t <= top
        ensures |Fitting(Product(Levels(step, 0, m), n - 1), t)| == Lattice(n - 1, t / step)
      {
        QuotientMonotone(t, top, step);
        ProductCount(step, m, n - 1, t);
      }
      CrossCount(step, 0, m, n, top);
    }
  }

  lemma SignOfQuotient(top: int, step: int)
    requires step > 0
    ensures top / step < 0 <==> top < 0
  {
  }

  /** Every grid point of the simplex and nothing else, in order and each once; as many as there are ways to place at
      most floor(top/step) steps in n sleeves. */
  ghost predicate FullLattice(points: seq<Point>, n: nat, step: int, top: int)
    requires step > 0
  {
    && (forall p :: p in points <==> OnGrid(p, n, step, top))
    && Sorted(points) && NoRepeats(points)
    && top >= 0 && |points| == Lattice(n, top / step)
  }

  lemma GridIsExact(n: nat, step: int, top: int)
    requires step > 0 && top >= 0
    ensures FullLattice(GridAt(n, step, top), n, step, top)
  {
    hide GridAt, OnGrid, Sorted, NoRepeats;
    var grid := GridAt(n, step, top);
    forall p
      ensures p in grid <==> OnGrid(p, n, step, top)
    {
      GridPointsAre(n, step, top, p);
    }
    GridSorted(n, step, top);
    SortedHasNoRepeats(grid);
    GridCount(n, step, top);
  }

  lemma GridCount(n: nat, step: int, top: int)
    requires step > 0 && top >= 0
    ensures |GridAt(n, step, top)| == Choose(top / step + n, n)
  {
    hide Product, Fitting, Levels;
    SignOfQuotient(top, step);
    ProductCount(step, top / step, n, top);
  }

  // ---------------------------------------------------------------- what the coarsening loop returns

  function Doubled(step: int, k: nat): int
    decreases k
  {
    if k == 0 then step else Doubled(2 * step, k - 1)
  }

  /** How often the step is doubled before it is affordable, if it is within so many rounds. */
  function Doublings(n: nat, step: int, top: int, maxPoints: int, rounds: nat): (k: nat)
    requires step > 0
    ensures k <= rounds
    decreases rounds
  {
    if rounds == 0 || Affordable(n, step, top, maxPoints) then 0
    else 1 + Doublings(n, 2 * step, top, maxPoints, rounds - 1)
  }

  ghost predicate TooFine(n: nat, step: int, top: int, maxPoints: int) {
    step > 0 && !Affordable(n, step, top, maxPoints)
  }

  /** An early return is the full lattice at the first doubling of the step that is affordable. */
  lemma {:induction false} CoarsenIsExact(n: nat, step: int, top: int, maxPoints: int, rounds: nat, built: Grid)
    requires step > 0 && !built.Exact? && Coarsen(n, step, top, maxPoints, rounds, built).Exact?
    ensures var k := Doublings(n, step, top, maxPoints, rounds); var used := Doubled(step, k);
      && used > 0 && Affordable(n, used, top, maxPoints)
      && Coarsen(n, step, top, maxPoints, rounds, built) == Exact(GridAt(n, used, top), used)
      && forall j :: 0 <= j < k ==> TooFine(n, Doubled(step, j), top, maxPoints)
    decreases rounds
  {
    hide Affordable, GridAt, Power, Levels;
    if !Affordable(n, step, top, maxPoints) {
      var next := if Power(|Levels(step, 0, top / step)|, n) > BUILD_LIMIT then built
                  else Cut(FirstOf(GridAt(n, step, top), maxPoints), step);
      CoarsenIsExact(n, 2 * step, top, maxPoints, rounds - 1, next);
      forall j | 0 <= j < Doublings(n, step, top, maxPoints, rounds)
        ensures TooFine(n, Doubled(step, j), top, maxPoints)
      {
        assert j > 0 ==> Doubled(step, j) == Doubled(2 * step, j - 1);
      }
    }
  }

  lemma {:induction false} PowerOfOne(n: nat)
    ensures Power(1, n) == 1
  {
    if n > 0 {
      PowerOfOne(n - 1);
    }
  }

  lemma {:induction false} ChooseAll(n: nat)
    ensures Choose(n, n) == 1
  {
    if n > 0 {
      ChooseAll(n - 1);
      ChooseOutside(n - 1, n);
    }
  }

  /** A step past the ceiling leaves one point, the empty split, which is always affordable. */
  lemma CoarseEnough(n: nat, step: int, top: int, maxPoints: int)
    requires step > top >= 0 && maxPoints >= 1
    ensures Affordable(n, step, top, maxPoints)
  {
    hide GridAt;
    DivisionIsUnique(top, 0, top, step);
    LevelsSize(step, 0, 0);
    PowerOfOne(n);
    GridCount(n, step, top);
    ChooseAll(n);
  }

  lemma {:induction false} CoarsenEndsEarly(n: nat, step: int, top: int, maxPoints: int, rounds: nat, built: Grid)
    requires step > 0 && top >= 0 && maxPoints >= 1 && rounds > 0 && Doubled(step, rounds - 1) > top
    ensures Coarsen(n, step, top, maxPoints, rounds, built).Exact?
    decreases rounds
  {
    hide Affordable, GridAt, Power, Levels;
    if rounds == 1 {
      CoarseEnough(n, step, top, maxPoints);
    } else if !Affordable(n, step, top, maxPoints) {
      var next := if Power(|Levels(step, 0, top / step)|, n) > BUILD_LIMIT then built
                  else Cut(FirstOf(GridAt(n, step, top), maxPoints), step);
      CoarsenEndsEarly(n, 2 * step, top, maxPoints, rounds - 1, next);
    }
  }

  lemma DoubledSeven(step: int)
    ensures Doubled(step, 7) == 128 * step
  {
  }

  /** The grid a search is given, for any ceiling under 128 steps: never cut short and never failed, but every point
      of the simplex at the step returned, each once and counted; and the step is doubled only while it was too fine. */
  lemma GridIsNeverCutShort(n: nat, step: int, top: int, maxPoints: int)
    requires n > 0 && step > 0 && 0 < top < 128 * step && maxPoints >= 1
    ensures var k := Doublings(n, step, top, maxPoints, ROUNDS); var used := Doubled(step, k);
      && used > 0 && SimplexGrid(n, step, top, maxPoints) == Exact(GridAt(n, used, top), used)
      && FullLattice(GridAt(n, used, top), n, used, top) && |GridAt(n, used, top)| <= maxPoints
      && forall j :: 0 <= j < k ==> TooFine(n, Doubled(step, j), top, maxPoints)
  {
    hide Coarsen, GridAt, FullLattice, Doubled, Doublings, TooFine;
    DoubledSeven(step);
    CoarsenEndsEarly(n, step, top, maxPoints, ROUNDS, Unbuilt);
    CoarsenIsExact(n, step, top, maxPoints, ROUNDS, Unbuilt);
    GridIsExact(n, Doubled(step, Doublings(n, step, top, maxPoints, ROUNDS)), top);
  }

  /** The tuples at a step are few enough to be built. */
  ghost predicate Buildable(n: nat, step: int, top: int) {
    step > 0 && top / step >= 0 && Power(top / step + 1, n) <= 200000
  }

  /** A step is coarse enough exactly when its tuples may be built and no more of them fit than are wanted; both
      counted, not built. */
  lemma AffordableIff(n: nat, step: int, top: int, maxPoints: int)
    requires step > 0 && top >= 0
    ensures Affordable(n, step, top, maxPoints) <==>
      Buildable(n, step, top) && Choose(top / step + n, n) <= maxPoints
  {
    hide GridAt, Power;
    BuildableIff(n, step, top);
    GridCount(n, step, top);
  }

  lemma BuildableIff(n: nat, step: int, top: int)
    requires step > 0 && top >= 0
    ensures Buildable(n, step, top) <==> Power(|Levels(step, 0, top / step)|, n) <= BUILD_LIMIT
  {
    hide Power;
    SignOfQuotient(top, step);
    LevelsSize(step, 0, top / step);
  }

  /** When no round is coarse enough, the front of the last list that was built is returned, at twice the last step; and
      nothing when none was. */
  lemma {:induction false} CoarsenIsCut(n: nat, step: int, top: int, maxPoints: int, rounds: nat, built: Grid)
    requires step > 0 && top >= 0 && !built.Exact? && !Coarsen(n, step, top, maxPoints, rounds, built).Exact?
    ensures var r := Coarsen(n, step, top, maxPoints, rounds, built);
      && ((forall k :: 0 <= k < rounds ==> !Buildable(n, Doubled(step, k), top)) ==>
           r == if built.Unbuilt? then Unbuilt else Cut(built.points, Doubled(step, rounds)))
      && (forall k | 0 <= k < rounds && LastBuilt(n, step, top, rounds, k) ::
           r == Cut(FirstOf(GridAt(n, Doubled(step, k), top), maxPoints), Doubled(step, rounds)))
    decreases rounds
  {
    hide GridAt, Power, Levels, FirstOf, Buildable, Affordable;
    if rounds > 0 {
      BuildableIff(n, step, top);
      var next := if Power(|Levels(step, 0, top / step)|, n) > BUILD_LIMIT then built
                  else Cut(FirstOf(GridAt(n, step, top), maxPoints), step);
      CoarsenIsCut(n, 2 * step, top, maxPoints, rounds - 1, next);
      forall k | 0 < k <= rounds
        ensures Doubled(step, k) == Doubled(2 * step, k - 1)
      {
      }
      LastBuiltLater(n, step, top, rounds);
    }
  }

  /** The last round in which the tuples could be built. */
  ghost predicate LastBuilt(n: nat, step: int, top: int, rounds: nat, k: nat) {
    && k < rounds && step > 0 && Buildable(n, Doubled(step, k), top)
    && forall j :: k < j < rounds ==> !Buildable(n, Doubled(step, j), top)
  }

  lemma LastBuiltLater(n: nat, step: int, top: int, rounds: nat)
    requires rounds > 0 && step > 0
    ensures forall k :: 0 < k < rounds && LastBuilt(n, step, top, rounds, k) ==>
      LastBuilt(n, 2 * step, top, rounds - 1, k - 1)
    ensures LastBuilt(n, step, top, rounds, 0) ==>
      forall k :: 0 <= k < rounds - 1 ==> !Buildable(n, Doubled(2 * step, k), top)
    ensures (forall k :: 0 <= k < rounds ==> !Buildable(n, Doubled(step, k), top)) ==>
      forall k :: 0 <= k < rounds - 1 ==> !Buildable(n, Doubled(2 * step, k), top)
  {
    hide Buildable;
    assert forall k :: 0 <= k < rounds - 1 ==> Doubled(2 * step, k) == Doubled(step, k + 1);
  }
}
