/** Drawdown, and scaling a blend's returns until its drawdown matches a benchmark's. */
module EqualRisk {
  import opened Basics

  const MAX_LEVERAGE := 5.0
  const HALVINGS := 60

  type Path = seq<real>

  // ---------------------------------------------------------------- drawdown

  function Peak(a: Path): real
    requires a != []
  {
    if |a| == 1 then a[0] else Max(Peak(a[..|a| - 1]), a[|a| - 1])
  }

  lemma {:induction false} PeakIsHighest(a: Path)
    requires a != []
    ensures Peak(a) >= a[0]
    ensures forall i :: 0 <= i < |a| ==> a[i] <= Peak(a)
    ensures exists i :: 0 <= i < |a| && a[i] == Peak(a)
  {
    if |a| > 1 {
      PeakIsHighest(a[..|a| - 1]);
      var i :| 0 <= i < |a| - 1 && a[..|a| - 1][i] == Peak(a[..|a| - 1]);
      assert a[i] == Peak(a) || a[|a| - 1] == Peak(a);
    }
  }

  function Fall(from: real, to: real): real
    requires from > 0.0
  {
    1.0 - to / from
  }

  /** The deepest fall from the running peak; a path that starts above zero keeps its peaks there. */
  function MaxDrawdown(a: Path): real
    requires a != [] ==> a[0] > 0.0
  {
    if a == [] then 0.0
    else
      PeakIsHighest(a);
      var last := Fall(Peak(a), a[|a| - 1]);
      if |a| == 1 then last else Max(MaxDrawdown(a[..|a| - 1]), last)
  }

  lemma FallFromHigher(low: real, high: real, to: real)
    requires 0.0 < low <= high && to > 0.0
    ensures Fall(low, to) <= Fall(high, to)
  {
    QuotientShrinks(low, high, to);
  }

  lemma ProductSign(q: real, x: real)
    requires q <= 0.0 && x > 0.0
    ensures q * x <= 0.0
  {
  }

  lemma ProductGrows(q: real, low: real, high: real)
    requires low <= high
    ensures q > 0.0 ==> q * low <= q * high
  {
  }

  lemma ProductStrict(p: real, q: real, x: real)
    requires p < q && x > 0.0
    ensures p * x < q * x
  {
  }

  lemma QuotientShrinks(low: real, high: real, to: real)
    requires 0.0 < low <= high && to > 0.0
    ensures to / low >= to / high > 0.0
  {
    var p, q := to / low, to / high;
    assert p * low == to && q * high == to;
    if q <= 0.0 {
      ProductSign(q, high);
    }
    ProductGrows(q, low, high);
    if p < q {
      ProductStrict(p, q, low);
    }
  }

  ghost predicate Positive(a: Path) { forall i :: 0 <= i < |a| ==> a[i] > 0.0 }

  /** On a positive path the running-peak form is the worst fall from any earlier point to any later one. */
  lemma {:induction false} DrawdownIsWorstFall(a: Path)
    requires a != [] && Positive(a)
    ensures forall i, j :: 0 <= i <= j < |a| ==> Fall(a[i], a[j]) <= MaxDrawdown(a)
    ensures exists i, j :: 0 <= i <= j < |a| && Fall(a[i], a[j]) == MaxDrawdown(a)
    ensures 0.0 <= MaxDrawdown(a) < 1.0
  {
    hide Fall, Peak;
    var n := |a| - 1;
    PeakIsHighest(a);
    var top :| 0 <= top < |a| && a[top] == Peak(a);
    forall i | 0 <= i <= n
      ensures Fall(a[i], a[n]) <= Fall(Peak(a), a[n])
    {
      FallFromHigher(a[i], Peak(a), a[n]);
    }
    FallIsPartial(a[n], Peak(a));
    if n > 0 {
      DrawdownIsWorstFall(a[..n]);
      var i, j :| 0 <= i <= j < n && Fall(a[..n][i], a[..n][j]) == MaxDrawdown(a[..n]);
      assert Fall(a[i], a[j]) == MaxDrawdown(a) || Fall(a[top], a[n]) == MaxDrawdown(a);
      forall i, j | 0 <= i <= j < |a|
        ensures Fall(a[i], a[j]) <= MaxDrawdown(a)
      {
        if j < n {
          assert Fall(a[..n][i], a[..n][j]) <= MaxDrawdown(a[..n]);
        }
      }
    }
  }

  lemma FallIsPartial(to: real, peak: real)
    requires 0.0 < to <= peak
    ensures 0.0 <= Fall(peak, to) < 1.0
  {
    QuotientShrinks(to, peak, to);
  }

  // ---------------------------------------------------------------- the scaled path

  function DailyReturns(v: Path): seq<real> {
    if |v| < 2 then []
    else
      var was := v[|v| - 2];
      DailyReturns(v[..|v| - 1]) + [(v[|v| - 1] - was) / (if was == 0.0 then 1.0 else was)]
  }

  function Grown(x: real, k: real, ret: real): real { x * (1.0 + k * ret) }

  /** One invested at k times the returns, day by day. */
  function PathAt(rets: seq<real>, k: real): (p: Path)
    ensures |p| == |rets| + 1 && p[0] == 1.0
  {
    if rets == [] then [1.0]
    else
      var before := PathAt(rets[..|rets| - 1], k);
      before + [Grown(before[|before| - 1], k, rets[|rets| - 1])]
  }

  function RiskAt(rets: seq<real>, k: real): real { MaxDrawdown(PathAt(rets, k)) }

  function Halved(lo: real, hi: real): real { (lo + hi) / 2.0 }

  datatype Bracket = Bracket(lo: real, hi: real)

  function Narrowed(rets: seq<real>, target: real, b: Bracket): Bracket {
    var mid := Halved(b.lo, b.hi);
    if RiskAt(rets, mid) < target then b.(lo := mid) else b.(hi := mid)
  }

  function Bisected(rets: seq<real>, target: real, n: nat): Bracket {
    if n == 0 then Bracket(0.0, MAX_LEVERAGE) else Narrowed(rets, target, Bisected(rets, target, n - 1))
  }

  /** The leverage at which the book's drawdown matches the target, or nothing when it never gets that deep. */
  function EqualRisk(v: Path, target: real): Option<(real, Path)> {
    if |v| < 3 || target <= 0.0 then None
    else
      var rets := DailyReturns(v);
      if RiskAt(rets, MAX_LEVERAGE) < target then None
      else
        var b := Bisected(rets, target, HALVINGS);
        Some((Halved(b.lo, b.hi), PathAt(rets, Halved(b.lo, b.hi))))
  }

  method ComputeEqualRisk(v: Path, target: real) returns (r: Option<(real, Path)>)
    ensures r == EqualRisk(v, target)
  {
    hide RiskAt, PathAt;
    if |v| < 3 || target <= 0.0 {
      return None;
    }
    var rets := DailyReturns(v);
    if RiskAt(rets, MAX_LEVERAGE) < target {
      return None;
    }
    var lo, hi := 0.0, MAX_LEVERAGE;
    for n := 0 to HALVINGS
      invariant Bracket(lo, hi) == Bisected(rets, target, n)
    {
      var mid := Halved(lo, hi);
      if RiskAt(rets, mid) < target {
        lo := mid;
      } else {
        hi := mid;
      }
    }
    var k := Halved(lo, hi);
    r := Some((k, PathAt(rets, k)));
  }

  // ---------------------------------------------------------------- the plain path is the book's own

  /** A day's return is its change over where it started; from nothing, the change itself. */
  lemma {:induction false} DailyReturnIs(v: Path, i: nat)
    requires i + 1 < |v|
    ensures |DailyReturns(v)| == |v| - 1
    ensures DailyReturns(v)[i] * (if v[i] == 0.0 then 1.0 else v[i]) == v[i + 1] - v[i]
  {
    var n := |v| - 1;
    if |v| > 2 {
      DailyReturnIs(v[..n], if i < n - 1 then i else 0);
    }
    if i == n - 1 {
      DividedBack(v[n] - v[n - 1], if v[n - 1] == 0.0 then 1.0 else v[n - 1]);
    }
  }

  lemma DividedBack(x: real, y: real)
    requires y != 0.0
    ensures (x / y) * y == x
  {
  }

  lemma ReturnsSoFar(v: Path)
    requires |v| >= 2
    ensures |DailyReturns(v)| == |v| - 1 && DailyReturns(v)[..|v| - 2] == DailyReturns(v[..|v| - 1])
  {
    DailyReturnIs(v, 0);
  }

  lemma PathGrows(rets: seq<real>, k: real)
    requires rets != []
    ensures var n, before := |rets| - 1, PathAt(rets[..|rets| - 1], k);
      PathAt(rets, k) == before + [Grown(before[n], k, rets[n])]
  {
  }

  /** Invested at its own returns a book traces its own values, from one. */
  lemma {:induction false} PlainPathIsTheBooks(v: Path, i: nat)
    requires i < |v| && forall j :: 0 <= j < |v| ==> v[j] > 0.0
    ensures |DailyReturns(v)| == |v| - 1
    ensures Worth(PathAt(DailyReturns(v), 1.0)[i], v[0]) == v[i]
  {
    hide DailyReturns, PathAt, Grown, Worth;
    var n := |v| - 1;
    if n == 0 {
      NoDays(v);
    } else {
      var rets := DailyReturns(v);
      ReturnsSoFar(v);
      PathGrows(rets, 1.0);
      PlainPathIsTheBooks(v[..n], if i < n then i else n - 1);
      if i == n {
        DailyReturnIs(v, n - 1);
        GrowsTo(PathAt(rets[..n - 1], 1.0)[n - 1], rets[n - 1], v[n - 1], v[n], v[0]);
      }
    }
  }

  lemma NoDays(v: Path)
    requires |v| == 1
    ensures DailyReturns(v) == [] && Worth(PathAt([], 1.0)[0], v[0]) == v[0]
  {
  }

  lemma GrowsTo(x: real, ret: real, was: real, now: real, first: real)
    requires Worth(x, first) == was && ret * was == now - was
    ensures Worth(Grown(x, 1.0, ret), first) == now
  {
    assert x * (1.0 + ret) * first == was + ret * was;
  }

  // ---------------------------------------------------------------- the bracket holds

  lemma {:induction false} FlatPath(rets: seq<real>)
    ensures forall i :: 0 <= i <= |rets| ==> PathAt(rets, 0.0)[i] == 1.0
  {
    if rets != [] {
      FlatPath(rets[..|rets| - 1]);
    }
  }

  lemma {:induction false} FlatDrawdown(a: Path)
    requires a != [] && forall i :: 0 <= i < |a| ==> a[i] == 1.0
    ensures Peak(a) == 1.0 && MaxDrawdown(a) == 0.0
  {
    if |a| > 1 {
      FlatDrawdown(a[..|a| - 1]);
    }
  }

  function PowerOfTwo(n: nat): real { if n == 0 then 1.0 else 2.0 * PowerOfTwo(n - 1) }

  /** Every halving keeps the target bracketed, whether or not drawdown rises with leverage, and halves the bracket. */
  lemma {:induction false} BracketHolds(rets: seq<real>, target: real, n: nat)
    ensures var b := Bisected(rets, target, n);
      && 0.0 <= b.lo < b.hi <= MAX_LEVERAGE && Width(b.lo, b.hi, PowerOfTwo(n)) == MAX_LEVERAGE
      && (0.0 < target <= RiskAt(rets, MAX_LEVERAGE) ==> RiskAt(rets, b.lo) < target <= RiskAt(rets, b.hi))
  {
    hide RiskAt, Width, PowerOfTwo;
    WidthAtStart();
    if n == 0 {
      NoRiskUndeployed(rets);
    } else {
      BracketHolds(rets, target, n - 1);
      var b := Bisected(rets, target, n - 1);
      HalfTheWidth(b.lo, b.hi, n);
    }
  }

  function Width(lo: real, hi: real, scale: real): real { (hi - lo) * scale }

  lemma NoRiskUndeployed(rets: seq<real>)
    ensures RiskAt(rets, 0.0) == 0.0
  {
    FlatPath(rets);
    FlatDrawdown(PathAt(rets, 0.0));
  }

  lemma WidthAtStart()
    ensures Width(0.0, MAX_LEVERAGE, PowerOfTwo(0)) == MAX_LEVERAGE
  {
  }

  lemma HalfTheWidth(lo: real, hi: real, n: nat)
    requires n > 0
    ensures var mid := Halved(lo, hi);
      Width(mid, hi, PowerOfTwo(n)) == Width(lo, hi, PowerOfTwo(n - 1)) == Width(lo, mid, PowerOfTwo(n))
  {
  }

  /** The answer lies strictly inside a bracket 5/2^60 wide with the target's drawdown crossed between its ends, and
      there is an answer exactly when the book can be made that risky at all. */
  lemma EqualRiskIsBracketed(v: Path, target: real)
    ensures EqualRisk(v, target).Some? == (|v| >= 3 && target > 0.0 && RiskAt(DailyReturns(v), MAX_LEVERAGE) >= target)
    ensures EqualRisk(v, target).Some? ==>
      var (k, path), b := EqualRisk(v, target).value, Bisected(DailyReturns(v), target, HALVINGS);
      && path == PathAt(DailyReturns(v), k)
      && 0.0 <= b.lo < k < b.hi <= MAX_LEVERAGE && Width(b.lo, b.hi, PowerOfTwo(HALVINGS)) == MAX_LEVERAGE
      && RiskAt(DailyReturns(v), b.lo) < target <= RiskAt(DailyReturns(v), b.hi)
  {
    hide RiskAt, PathAt, DailyReturns, PowerOfTwo, Bisected, Width;
    if EqualRisk(v, target).Some? {
      BracketHolds(DailyReturns(v), target, HALVINGS);
    }
  }

  // ---------------------------------------------------------------- leverage buys nothing on this scale

  function Scaled(times: real, ret: real): real { times * ret }

  function Levered(rets: seq<real>, times: real): seq<real> {
    if rets == [] then [] else Levered(rets[..|rets| - 1], times) + [Scaled(times, rets[|rets| - 1])]
  }

  lemma GrownTwice(x: real, k: real, times: real, ret: real, total: real)
    requires total == k * times
    ensures Grown(x, k, Scaled(times, ret)) == Grown(x, total, ret)
  {
  }

  /** A book whose every return is scaled up traces, at leverage k, the path the plain book traces at that many times
      k: the two search the same paths, so matching drawdown undoes leverage. */
  lemma {:induction false} LeverageCancels(rets: seq<real>, times: real, k: real, total: real)
    requires total == k * times
    ensures PathAt(Levered(rets, times), k) == PathAt(rets, total) &&
        RiskAt(Levered(rets, times), k) == RiskAt(rets, total)
  {
    hide Grown, Scaled, MaxDrawdown;
    if rets != [] {
      var n := |rets| - 1;
      LeverageCancels(rets[..n], times, k, total);
      assert Levered(rets, times)[..|Levered(rets, times)| - 1] == Levered(rets[..n], times);
      var before := PathAt(rets[..n], total);
      GrownTwice(before[|before| - 1], k, times, rets[n], total);
    }
  }
}
