/** One step away on the simplex: each size alone, and each pair moved oppositely. */
module SplitMoves {
  import opened SplitGrid

  // ---------------------------------------------------------------- the moves, in the order they are tried

  function Up(p: Point, i: nat, d: int): Point
    requires i < |p|
  {
    p[i := p[i] + d]
  }

  function Trade(p: Point, i: nat, j: nat, step: int): Point
    requires i < |p| && j < |p| && i != j
  {
    p[i := p[i] + step][j := p[j] - step]
  }

  predicate NonNegative(p: Point) { forall i :: 0 <= i < |p| ==> p[i] >= 0 }

  function AxisMove(p: Point, i: nat, d: int, top: int): seq<Point>
    requires i < |p|
  {
    var q := Up(p, i, d);
    if q[i] < 0 || Sum(q) > top then [] else [q]
  }

  function TradeMove(p: Point, i: nat, j: nat, step: int, top: int): seq<Point>
    requires i < |p| && j < |p|
  {
    if i == j then []
    else
      var q := Trade(p, i, j, step);
      if !NonNegative(q) || Sum(q) > top then [] else [q]
  }

  function AxisMoves(p: Point, step: int, top: int, n: nat): seq<Point>
    requires n <= |p|
  {
    if n == 0 then []
    else AxisMoves(p, step, top, n - 1) + AxisMove(p, n - 1, -step, top) + AxisMove(p, n - 1, step, top)
  }

  function TradesFrom(p: Point, i: nat, step: int, top: int, n: nat): seq<Point>
    requires i < |p| && n <= |p|
  {
    if n == 0 then [] else TradesFrom(p, i, step, top, n - 1) + TradeMove(p, i, n - 1, step, top)
  }

  function Trades(p: Point, step: int, top: int, n: nat): seq<Point>
    requires n <= |p|
  {
    if n == 0 then [] else Trades(p, step, top, n - 1) + TradesFrom(p, n - 1, step, top, |p|)
  }

  function Insert(q: Point, ps: seq<Point>): seq<Point> {
    if ps == [] || Before(q, ps[0]) then [q] + ps else if q == ps[0] then ps else [ps[0]] + Insert(q, ps[1..])
  }

  /** A collection in order, each element once. */
  function SortedSet(ps: seq<Point>): seq<Point> {
    if ps == [] then [] else Insert(ps[|ps| - 1], SortedSet(ps[..|ps| - 1]))
  }

  /** The moves from a point, sorted.  A move by a positive step never stays put, so the point itself is not there. */
  function Neighbours(p: Point, step: int, top: int): seq<Point> {
    SortedSet(AxisMoves(p, step, top, |p|) + Trades(p, step, top, |p|))
  }

  // ---------------------------------------------------------------- the loops

  function AddAll(out: seq<Point>, qs: seq<Point>): seq<Point> {
    if qs == [] then out else Insert(qs[|qs| - 1], AddAll(out, qs[..|qs| - 1]))
  }

  lemma {:induction false} SortedSetAppend(ps: seq<Point>, qs: seq<Point>)
    ensures SortedSet(ps + qs) == AddAll(SortedSet(ps), qs)
  {
    hide Insert;
    if qs == [] {
      assert ps + qs == ps;
    } else {
      assert (ps + qs)[..|ps + qs| - 1] == ps + qs[..|qs| - 1];
      SortedSetAppend(ps, qs[..|qs| - 1]);
    }
  }

  lemma EmptySet()
    ensures SortedSet([]) == []
  {
  }

  method ComputeNeighbours(p: Point, step: int, top: int) returns (out: seq<Point>)
    ensures out == Neighbours(p, step, top)
  {
    hide Insert, AxisMove, TradeMove, AddAll, SortedSet;
    EmptySet();
    out := [];
    for i := 0 to |p|
      invariant out == SortedSet(AxisMoves(p, step, top, i))
    {
      var down, up := AxisMove(p, i, -step, top), AxisMove(p, i, step, top);
      SortedSetAppend(AxisMoves(p, step, top, i), down);
      SortedSetAppend(AxisMoves(p, step, top, i) + down, up);
      out := AddAll(AddAll(out, down), up);
    }
    ghost var axis := AxisMoves(p, step, top, |p|);
    assert axis + Trades(p, step, top, 0) == axis;
    for i := 0 to |p|
      invariant out == SortedSet(axis + Trades(p, step, top, i))
    {
      ghost var done := axis + Trades(p, step, top, i);
      assert done + TradesFrom(p, i, step, top, 0) == done;
      for j := 0 to |p|
        invariant out == SortedSet(done + TradesFrom(p, i, step, top, j))
      {
        var q := TradeMove(p, i, j, step, top);
        SortedSetAppend(done + TradesFrom(p, i, step, top, j), q);
        assert done + TradesFrom(p, i, step, top, j) + q == done + TradesFrom(p, i, step, top, j + 1);
        out := AddAll(out, q);
      }
      assert done + TradesFrom(p, i, step, top, |p|) == axis + Trades(p, step, top, i + 1);
    }
  }

  // ---------------------------------------------------------------- a sorted set

  lemma {:induction false} BeforeIsTotal(p: Point, q: Point)
    ensures p == q || Before(p, q) || Before(q, p)
  {
    if p != [] && q != [] && p[0] == q[0] {
      BeforeIsTotal(p[1..], q[1..]);
      assert p == [p[0]] + p[1..] && q == [q[0]] + q[1..];
    }
  }

  lemma {:induction false} BeforeIsTransitive(p: Point, q: Point, r: Point)
    requires Before(p, q) && Before(q, r)
    ensures Before(p, r)
  {
    if p != [] && p[0] == q[0] == r[0] {
      BeforeIsTransitive(p[1..], q[1..], r[1..]);
    }
  }

  lemma {:induction false} InsertKeeps(q: Point, ps: seq<Point>)
    requires Sorted(ps)
    ensures Sorted(Insert(q, ps)) && |ps| <= |Insert(q, ps)| <= |ps| + 1
    ensures forall x :: x in Insert(q, ps) <==> x == q || x in ps
  {
    if ps != [] && q != ps[0] {
      if Before(q, ps[0]) {
        forall i | 0 < i < |ps|
          ensures Before(q, ps[i])
        {
          BeforeIsTransitive(q, ps[0], ps[i]);
        }
      } else {
        InsertKeeps(q, ps[1..]);
        BeforeIsTotal(q, ps[0]);
        var tail := Insert(q, ps[1..]);
        forall i | 0 <= i < |tail|
          ensures Before(ps[0], tail[i])
        {
          assert tail[i] in tail;
        }
      }
    }
  }

  lemma {:induction false} SortedSetKeeps(ps: seq<Point>)
    ensures Sorted(SortedSet(ps)) && |SortedSet(ps)| <= |ps|
    ensures forall x :: x in SortedSet(ps) <==> x in ps
  {
    hide Insert, Sorted, Before;
    assert Sorted([]) by { EmptyIsSorted(); }
    if ps != [] {
      SortedSetKeeps(ps[..|ps| - 1]);
      InsertKeeps(ps[|ps| - 1], SortedSet(ps[..|ps| - 1]));
      assert ps == ps[..|ps| - 1] + [ps[|ps| - 1]];
    }
  }

  lemma EmptyIsSorted()
    ensures Sorted([])
  {
  }

  // ---------------------------------------------------------------- what the moves are

  ghost predicate IsStep(p: Point, q: Point, i: int, step: int) {
    0 <= i < |p| && (q == p[i := p[i] + step] || q == p[i := p[i] - step])
  }

  ghost predicate IsTrade(p: Point, q: Point, i: int, j: int, step: int) {
    0 <= i < |p| && 0 <= j < |p| && i != j && q == p[i := p[i] + step][j := p[j] - step]
  }

  /** One size up or down by the step, or one up and another down. */
  ghost predicate IsMove(p: Point, q: Point, step: int) {
    (exists i :: IsStep(p, q, i, step)) || exists i, j :: IsTrade(p, q, i, j, step)
  }

  lemma {:induction false} AxisMovesAre(p: Point, step: int, top: int, n: nat, q: Point)
    requires n <= |p| && NonNegative(p)
    ensures |AxisMoves(p, step, top, n)| <= 2 * n
    ensures q in AxisMoves(p, step, top, n) <==>
        NonNegative(q) && Sum(q) <= top && exists i :: 0 <= i < n && IsStep(p, q, i, step)
  {
    hide Sum, NonNegative, AxisMove, IsStep;
    if n > 0 {
      var m: nat := n - 1;
      AxisMovesAre(p, step, top, m, q);
      AxisMoveIs(p, m, step, top, q);
      assert IsStep(p, q, m, step) ==> exists i :: 0 <= i < n && IsStep(p, q, i, step);
    }
  }

  lemma AxisMoveIs(p: Point, i: nat, d: int, top: int, q: Point)
    requires i < |p| && NonNegative(p)
    ensures |AxisMove(p, i, -d, top)| <= 1 && |AxisMove(p, i, d, top)| <= 1
    ensures q in AxisMove(p, i, -d, top) || q in AxisMove(p, i, d, top) <==>
        NonNegative(q) && Sum(q) <= top && IsStep(p, q, i, d)
  {
  }

  lemma TradeMoveIs(p: Point, i: nat, j: nat, step: int, top: int, q: Point)
    requires i < |p| && j < |p|
    ensures |TradeMove(p, i, j, step, top)| <= if i == j then 0 else 1
    ensures q in TradeMove(p, i, j, step, top) <==> NonNegative(q) && Sum(q) <= top && IsTrade(p, q, i, j, step)
  {
  }

  lemma {:induction false} TradesFromAre(p: Point, i: nat, step: int, top: int, n: nat, q: Point)
    requires i < |p| && n <= |p|
    ensures |TradesFrom(p, i, step, top, n)| <= if i < n then n - 1 else n
    ensures q in TradesFrom(p, i, step, top, n) <==>
        NonNegative(q) && Sum(q) <= top && exists j :: 0 <= j < n && IsTrade(p, q, i, j, step)
  {
    hide Sum, NonNegative, TradeMove, IsTrade;
    if n > 0 {
      var m: nat := n - 1;
      TradesFromAre(p, i, step, top, m, q);
      TradeMoveIs(p, i, m, step, top, q);
      assert IsTrade(p, q, i, m, step) ==> exists j :: 0 <= j < n && IsTrade(p, q, i, j, step);
    }
  }

  lemma {:induction false} TradesAre(p: Point, step: int, top: int, n: nat, q: Point)
    requires n <= |p|
    ensures q in Trades(p, step, top, n) <==>
        NonNegative(q) && Sum(q) <= top && exists i, j :: 0 <= i < n && IsTrade(p, q, i, j, step)
  {
    hide Sum, NonNegative, IsTrade, TradesFrom;
    if n > 0 {
      var m: nat := n - 1;
      TradesAre(p, step, top, m, q);
      TradesFromAre(p, m, step, top, |p|, q);
      TradeIsInside(p, q, step);
      assert q in Trades(p, step, top, n) <==> q in Trades(p, step, top, m) || q in TradesFrom(p, m, step, top, |p|);
    }
  }

  lemma TradeIsInside(p: Point, q: Point, step: int)
    ensures forall i, j | IsTrade(p, q, i, j, step) :: 0 <= i < |p| && 0 <= j < |p|
  {
  }

  lemma {:induction false} TradesCount(p: Point, step: int, top: int, n: nat)
    requires n <= |p|
    ensures |Trades(p, step, top, n)| <= n * (|p| - 1)
  {
    hide TradesFrom;
    if n > 0 {
      TradesCount(p, step, top, n - 1);
      TradesFromAre(p, n - 1, step, top, |p|, p);
      assert n * (|p| - 1) == (n - 1) * (|p| - 1) + (|p| - 1);
    }
  }

  /** From a point of the simplex the moves are exactly those that stay on it, sorted, at most n(n + 1) of them. */
  lemma NeighboursAre(p: Point, step: int, top: int)
    requires step > 0 && InSimplex(p, |p|, top)
    ensures forall q :: q in Neighbours(p, step, top) <==> InSimplex(q, |p|, top) && IsMove(p, q, step)
    ensures Sorted(Neighbours(p, step, top)) && |Neighbours(p, step, top)| <= |p| * (|p| + 1)
    ensures p !in Neighbours(p, step, top)
  {
    hide Sum, AxisMoves, Trades, SortedSet, Sorted;
    var moves := AxisMoves(p, step, top, |p|) + Trades(p, step, top, |p|);
    SortedSetKeeps(moves);
    AxisMovesAre(p, step, top, |p|, p);
    TradesCount(p, step, top, |p|);
    TradesAre(p, step, top, |p|, p);
    forall q
      ensures q in Neighbours(p, step, top) <==> InSimplex(q, |p|, top) && IsMove(p, q, step)
    {
      AxisMovesAre(p, step, top, |p|, q);
      TradesAre(p, step, top, |p|, q);
    }
    assert |p| * (|p| + 1) == 2 * |p| + |p| * (|p| - 1);
  }

  /** Every move can be taken back: on the simplex, being a neighbour is mutual. */
  lemma NeighboursAreMutual(p: Point, q: Point, step: int, top: int)
    requires step > 0 && InSimplex(p, |p|, top) && InSimplex(q, |p|, top)
    ensures q in Neighbours(p, step, top) <==> p in Neighbours(q, step, top)
  {
    assert |p| == |q|;
    hide Neighbours, InSimplex, IsMove;
    NeighboursAre(p, step, top);
    NeighboursAre(q, step, top);
    MovesReverse(p, q, step);
    MovesReverse(q, p, step);
  }

  lemma MovesReverse(p: Point, q: Point, step: int)
    ensures IsMove(p, q, step) ==> IsMove(q, p, step)
  {
    if !IsMove(p, q, step) {
    } else if i :| IsStep(p, q, i, step) {
      assert p == q[i := q[i] + step] || p == q[i := q[i] - step];
      assert IsStep(q, p, i, step);
    } else {
      var i, j :| IsTrade(p, q, i, j, step);
      assert p == q[j := q[j] + step][i := q[i] - step];
      assert IsTrade(q, p, j, i, step);
    }
  }
}
