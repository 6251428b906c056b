/** Indicators over one price series.  An undefined entry (NaN in the program) is None. */
module Indicators {
  import opened Basics

  type Series = seq<Price>

  // ---------------------------------------------------------------- simple moving average

  /** The running total the average is a difference of. */
  function Cum(a: Series, j: nat): real
    requires j <= |a|
  {
    if j == 0 then 0.0 else Cum(a, j - 1) + a[j - 1]
  }

  function Sma(a: Series, n: int): (r: seq<Option<real>>)
    ensures |r| == |a|
  {
    seq(|a|, i requires 0 <= i < |a| =>
      if n <= 0 || i < n - 1 then None else Some((Cum(a, i + 1) - Cum(a, i + 1 - n)) / n as real))
  }

  function Total(a: Series): real {
    if a == [] then 0.0 else a[0] + Total(a[1..])
  }

  lemma {:induction false} CumOfWindow(a: Series, lo: nat, hi: nat)
    requires lo <= hi <= |a|
    ensures Cum(a, hi) - Cum(a, lo) == Total(a[lo..hi])
    decreases hi - lo
  {
    if lo < hi {
      CumOfWindow(a, lo + 1, hi);
      assert a[lo..hi][1..] == a[lo + 1..hi];
    }
  }

  /** The difference of running totals is the plain mean of the trailing window. */
  lemma SmaIsWindowMean(a: Series, n: nat, i: nat)
    requires 0 < n && i < |a|
    ensures Sma(a, n)[i] == if i < n - 1 then None else Some(Total(a[i + 1 - n..i + 1]) / n as real)
  {
    if i >= n - 1 {
      CumOfWindow(a, i + 1 - n, i + 1);
    }
  }

  // ---------------------------------------------------------------- rolling extremes

  function Highest(a: Series): real
    requires a != []
  {
    if |a| == 1 then a[0] else Max(a[0], Highest(a[1..]))
  }

  function Lowest(a: Series): real
    requires a != []
  {
    if |a| == 1 then a[0] else Min(a[0], Lowest(a[1..]))
  }

  type Window = n: nat | n > 0 witness 1

  function RollingMax(a: Series, n: Window): (r: seq<Option<real>>)
    ensures |r| == |a|
  {
    seq(|a|, i requires 0 <= i < |a| => if i < n - 1 then None else Some(Highest(a[i + 1 - n..i + 1])))
  }

  function RollingMin(a: Series, n: Window): (r: seq<Option<real>>)
    ensures |r| == |a|
  {
    seq(|a|, i requires 0 <= i < |a| => if i < n - 1 then None else Some(Lowest(a[i + 1 - n..i + 1])))
  }

  // ---------------------------------------------------------------- relative strength

  datatype Averages = Averages(gain: real, loss: real)

  function Rise(a: Series, j: nat): real
    requires j + 1 < |a|
  {
    var before: real, after: real := a[j], a[j + 1];
    Max(after - before, 0.0)
  }

  function Fall(a: Series, j: nat): real
    requires j + 1 < |a|
  {
    var before: real, after: real := a[j], a[j + 1];
    Max(before - after, 0.0)
  }

  function RiseTotal(a: Series, n: nat): (t: real)
    requires n < |a|
    ensures t >= 0.0
  {
    if n == 0 then 0.0 else RiseTotal(a, n - 1) + Rise(a, n - 1)
  }

  function FallTotal(a: Series, n: nat): (t: real)
    requires n < |a|
    ensures t >= 0.0
  {
    if n == 0 then 0.0 else FallTotal(a, n - 1) + Fall(a, n - 1)
  }

  function Smooth(average: real, n: Window, latest: real): (r: real)
    ensures average >= 0.0 && latest >= 0.0 ==> r >= 0.0
  {
    (average * (n - 1) as real + latest) / n as real
  }

  /** Wilder's averages of rises and falls as of day i: a plain mean on day n, smoothed from there on. */
  function Wilder(a: Series, n: Window, i: nat): (w: Averages)
    requires n <= i < |a|
    ensures w.gain >= 0.0 && w.loss >= 0.0
  {
    if i == n then Averages(RiseTotal(a, n) / n as real, FallTotal(a, n) / n as real)
    else
      var w := Wilder(a, n, i - 1);
      Averages(Smooth(w.gain, n, Rise(a, i - 1)), Smooth(w.loss, n, Fall(a, i - 1)))
  }

  function Strength(w: Averages): (r: real)
    requires w.gain >= 0.0 && w.loss >= 0.0
    ensures 0.0 <= r <= 100.0
  {
    if w.loss == 0.0 then 100.0
    else
      assert w.gain / w.loss >= 0.0;
      var ratio := 100.0 / (1.0 + w.gain / w.loss);
      100.0 - ratio
  }

  function Rsi(a: Series, n: int): (r: seq<Option<real>>)
    ensures |r| == |a|
    ensures forall i :: 0 <= i < |a| && r[i].Some? ==> 0.0 <= r[i].value <= 100.0
  {
    seq(|a|, i requires 0 <= i < |a| => if n <= 0 || i < n then None else Some(Strength(Wilder(a, n, i))))
  }

  method ComputeRsi(a: Series, n: int) returns (out: seq<Option<real>>)
    ensures out == Rsi(a, n)
  {
    out := seq(|a|, i => None);
    if |a| <= n || n <= 0 {
      return;
    }
    var w := Averages(RiseTotal(a, n) / n as real, FallTotal(a, n) / n as real);
    for i := n to |a|
      invariant |out| == |a|
      invariant w == Wilder(a, n, if i == n then n else i - 1)
      invariant forall j :: 0 <= j < |a| ==> out[j] == if j < i then Rsi(a, n)[j] else None
    {
      if i > n {
        w := Averages(Smooth(w.gain, n, Rise(a, i - 1)), Smooth(w.loss, n, Fall(a, i - 1)));
      }
      out := out[i := Some(Strength(w))];
    }
  }

  // ---------------------------------------------------------------- what the strength reading says

  lemma DividesBetween(r: real, n: Window, lo: real, hi: real)
    requires Times(n, lo) <= Times(n, r) <= Times(n, hi)
    ensures lo <= r <= hi
  {
  }

  lemma ScalesBetween(m: nat, lo: real, x: real, hi: real)
    requires lo <= x <= hi
    ensures Times(m, lo) <= Times(m, x) <= Times(m, hi)
  {
  }

  lemma SmoothTimes(average: real, n: Window, latest: real)
    ensures Times(n, Smooth(average, n, latest)) == Times(n - 1, average) + latest
  {
  }

  /** Smoothing goes one n-th of the way to the latest move, so it never leaves the range of the moves. */
  lemma SmoothBetween(average: real, n: Window, latest: real, lo: real, hi: real)
    requires lo <= average <= hi && lo <= latest <= hi
    ensures lo <= Smooth(average, n, latest) <= hi
    ensures Times(n, Smooth(average, n, latest)) - Times(n, average) == latest - average
  {
    hide Smooth, Times;
    SmoothTimes(average, n, latest);
    TimesStep(n - 1, average);
    TimesStep(n - 1, lo);
    TimesStep(n - 1, hi);
    ScalesBetween(n - 1, lo, average, hi);
    DividesBetween(Smooth(average, n, latest), n, lo, hi);
  }

  /** A rise, or a fall, on a day, in all, and on average. */
  function Move(a: Series, j: nat, up: bool): real
    requires j + 1 < |a|
  {
    if up then Rise(a, j) else Fall(a, j)
  }

  function MoveTotal(a: Series, n: nat, up: bool): real
    requires n < |a|
  {
    if up then RiseTotal(a, n) else FallTotal(a, n)
  }

  function Average(a: Series, n: Window, i: nat, up: bool): real
    requires n <= i < |a|
  {
    if up then Wilder(a, n, i).gain else Wilder(a, n, i).loss
  }

  lemma AverageIs(a: Series, n: Window, i: nat, up: bool)
    requires n <= i < |a|
    ensures Average(a, n, i, up)
         == if i == n then MoveTotal(a, n, up) / n as real else Smooth(Average(a, n, i - 1, up), n, Move(a, i - 1, up))
  {
    hide Rise, Fall, Smooth;
  }

  lemma {:induction false} TotalsBetween(a: Series, n: nat, lo: real, hi: real, up: bool)
    requires n < |a| && forall j :: 0 <= j < n ==> lo <= Move(a, j, up) <= hi
    ensures n as real * lo <= MoveTotal(a, n, up) <= n as real * hi
  {
    hide Rise, Fall;
    if n > 0 {
      TotalsBetween(a, n - 1, lo, hi, up);
      assert MoveTotal(a, n, up) == MoveTotal(a, n - 1, up) + Move(a, n - 1, up);
      assert n as real * lo == (n - 1) as real * lo + lo && n as real * hi == (n - 1) as real * hi + hi;
    }
  }

  /** The averages of rises, and of falls, lie within the range of the rises, and of the falls, so far. */
  lemma {:induction false} WilderBetween(a: Series, n: Window, i: nat, lo: real, hi: real, up: bool)
    requires n <= i < |a| && forall j :: 0 <= j < i ==> lo <= Move(a, j, up) <= hi
    ensures lo <= Average(a, n, i, up) <= hi
  {
    hide Move, MoveTotal, Average, Smooth;
    AverageIs(a, n, i, up);
    if i == n {
      TotalsBetween(a, n, lo, hi, up);
      var mean := MoveTotal(a, n, up) / n as real;
      assert n as real * mean == MoveTotal(a, n, up);
      DividesBetween(mean, n, lo, hi);
    } else {
      WilderBetween(a, n, i - 1, lo, hi, up);
      SmoothBetween(Average(a, n, i - 1, up), n, Move(a, i - 1, up), lo, hi);
    }
  }

  /** A share of rises in all moves, in percent; nothing falling is all of it. */
  ghost predicate IsShare(r: real, gain: real, loss: real) {
    if loss > 0.0 then r * (gain + loss) == 100.0 * gain else r == 100.0
  }

  /** The reading is the share of rises in all moves, in percent. */
  lemma RsiIsShareOfRises(a: Series, n: Window, i: nat)
    requires n <= i < |a|
    ensures var r, gain, loss := Rsi(a, n)[i], Average(a, n, i, true), Average(a, n, i, false);
      r.Some? && IsShare(r.value, gain, loss)
  {
    hide Strength, IsShare;
    StrengthIsShare(Wilder(a, n, i));
  }

  /** It is 100 while nothing has fallen, and 0 while every move was a fall of some size. */
  lemma RsiAtTheEnds(a: Series, n: Window, i: nat, least: real)
    requires n <= i < |a|
    ensures (forall j :: 0 <= j < i ==> a[j + 1] >= a[j]) ==> Rsi(a, n)[i] == Some(100.0)
    ensures least > 0.0 && (forall j :: 0 <= j < i ==> a[j] as real - a[j + 1] as real >= least) ==>
              Rsi(a, n)[i] == Some(0.0)
  {
    hide Average, Rsi, IsShare;
    RsiIsShareOfRises(a, n, i);
    if forall j :: 0 <= j < i ==> a[j + 1] >= a[j] {
      WilderBetween(a, n, i, 0.0, 0.0, false);
      AllOfIt(Rsi(a, n)[i].value, Average(a, n, i, true));
    }
    if least > 0.0 && forall j :: 0 <= j < i ==> a[j] as real - a[j + 1] as real >= least {
      FallsWithin(a, i);
      WilderBetween(a, n, i, 0.0, 0.0, true);
      WilderBetween(a, n, i, least, FallTotal(a, i), false);
      NothingOfSome(Rsi(a, n)[i].value, Average(a, n, i, false));
    }
  }

  lemma AllOfIt(r: real, x: real)
    requires IsShare(r, x, 0.0)
    ensures r == 100.0
  {
  }

  lemma NothingOfSome(r: real, x: real)
    requires x > 0.0 && IsShare(r, 0.0, x)
    ensures r == 0.0
  {
    assert r * x == 0.0;
  }

  lemma {:induction false} FallsWithin(a: Series, i: nat)
    requires i < |a|
    ensures forall j :: 0 <= j < i ==> Fall(a, j) <= FallTotal(a, i)
  {
    if i > 0 {
      FallsWithin(a, i - 1);
    }
  }

  lemma StrengthIsShare(w: Averages)
    requires w.gain >= 0.0 && w.loss >= 0.0
    ensures IsShare(Strength(w), w.gain, w.loss)
  {
    if w.loss > 0.0 {
      var ratio := w.gain / w.loss;
      assert ratio * w.loss == w.gain && ratio >= 0.0;
      var part := 100.0 / (1.0 + ratio);
      assert part * (1.0 + ratio) == 100.0;
      assert part * (w.loss + w.gain) == 100.0 * w.loss by {
        assert w.loss + w.gain == (1.0 + ratio) * w.loss;
        assert part * ((1.0 + ratio) * w.loss) == (part * (1.0 + ratio)) * w.loss;
      }
    }
  }

  // ---------------------------------------------------------------- confirmation

  /** How many days in a row, up to and including day i - 1, the flag has been up. */
  function RunLength(flag: seq<bool>, i: nat): nat
    requires i <= |flag|
  {
    if i == 0 || !flag[i - 1] then 0 else RunLength(flag, i - 1) + 1
  }

  function Confirm(flag: seq<bool>, days: int): (r: seq<bool>)
    ensures |r| == |flag|
  {
    if days <= 1 then flag else seq(|flag|, i requires 0 <= i < |flag| => RunLength(flag, i + 1) >= days)
  }

  method ComputeConfirm(flag: seq<bool>, days: int) returns (out: seq<bool>)
    ensures out == Confirm(flag, days)
  {
    if days <= 1 {
      return flag;
    }
    out := [];
    var run := 0;
    for i := 0 to |flag|
      invariant run == RunLength(flag, i)
      invariant out == Confirm(flag, days)[..i]
    {
      run := if flag[i] then run + 1 else 0;
      out := out + [run >= days];
    }
  }

  lemma {:induction false} RunIsUnbroken(flag: seq<bool>, i: nat, days: nat)
    requires i <= |flag|
    ensures RunLength(flag, i) >= days <==> i >= days && forall j :: i - days <= j < i ==> flag[j]
  {
    if i > 0 && flag[i - 1] && days > 0 {
      RunIsUnbroken(flag, i - 1, days - 1);
    }
  }

  /** A confirmed day is one that ends `days` consecutive raw days. */
  lemma ConfirmMeansConsecutive(flag: seq<bool>, days: nat, i: nat)
    requires 1 <= days && i < |flag|
    ensures Confirm(flag, days)[i] <==> i + 1 >= days && forall j :: i + 1 - days <= j <= i ==> flag[j]
  {
    RunIsUnbroken(flag, i + 1, days);
  }
}
