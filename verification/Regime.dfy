/** The price-derived market regime that both the backtest gate and the live reading use. */
module Regime {
  import opened Basics
  import opened Indicators
  import opened Simulator
  import opened Overlays

  const PRIMARY: Ticker := "SPY"
  const BREADTH_SET: seq<Ticker> := ["SPY", "QQQ", "IWM"]
  const MA_DAYS := 200
  const VOL_DAYS := 20
  const VOL_LOOKBACK := 504
  const MIN_SAMPLE := 20

  datatype Mood = RISK_ON | NEUTRAL | RISK_OFF

  datatype Reading = Reading(mood: Mood, score: real, trendUp: bool, vol: Option<real>, percentile: Option<real>,
                             breadth: Option<real>)

  /** The annualised spread of a window of growth factors, None when it is not finite. */
  type Spread = seq<real> -> Option<real>

  // ---------------------------------------------------------------- volatility

  /** Growth factors between consecutive closes i - VOL_DAYS .. i. */
  function Growth(a: Series, i: nat): seq<real>
    requires VOL_DAYS <= i < |a|
  {
    seq(VOL_DAYS, j requires 0 <= j < VOL_DAYS => a[i - VOL_DAYS + j + 1] as real / a[i - VOL_DAYS + j])
  }

  function Volatility(a: Series, spread: Spread): (r: seq<Option<real>>)
    ensures |r| == |a|
  {
    seq(|a|, i requires 0 <= i < |a| => if i < VOL_DAYS then None else spread(Growth(a, i)))
  }

  function Finite(v: seq<Option<real>>): (n: nat) {
    if v == [] then 0 else Finite(v[..|v| - 1]) + (if v[|v| - 1].Some? then 1 else 0)
  }

  function AtMost(v: seq<Option<real>>, x: real): (n: nat) {
    if v == [] then 0
    else AtMost(v[..|v| - 1], x) + (if v[|v| - 1].Some? && v[|v| - 1].value <= x then 1 else 0)
  }

  function TrailingWindow(v: seq<Option<real>>, i: nat, lookback: Window): seq<Option<real>>
    requires i < |v|
  {
    v[if i + 1 <= lookback then 0 else i + 1 - lookback..i + 1]
  }

  function RankIn(w: seq<Option<real>>, x: Option<real>): Option<real> {
    if Finite(w) < MIN_SAMPLE || x.None? then None
    else Some(AtMost(w, x.value) as real / Finite(w) as real * 100.0)
  }

  /** Where each value sits in its own trailing window, 0 to 100. */
  function Percentiles(v: seq<Option<real>>, lookback: Window): (r: seq<Option<real>>)
    ensures |r| == |v|
  {
    seq(|v|, i requires 0 <= i < |v| => RankIn(TrailingWindow(v, i, lookback), v[i]))
  }

  method ComputeRank(w: seq<Option<real>>, x: Option<real>) returns (r: Option<real>)
    ensures r == RankIn(w, x)
  {
    var finite, below := 0, 0;
    for j := 0 to |w|
      invariant finite == Finite(w[..j])
      invariant x.Some? ==> below == AtMost(w[..j], x.value)
    {
      assert w[..j + 1][..j] == w[..j];
      if w[j].Some? {
        finite := finite + 1;
        if x.Some? && w[j].value <= x.value {
          below := below + 1;
        }
      }
    }
    assert w[..|w|] == w;
    r := if finite < MIN_SAMPLE || x.None? then None else Some(below as real / finite as real * 100.0);
  }

  method ComputePercentiles(v: seq<Option<real>>, lookback: Window) returns (out: seq<Option<real>>)
    ensures out == Percentiles(v, lookback)
  {
    hide RankIn, TrailingWindow;
    out := [];
    for i := 0 to |v|
      invariant out == Percentiles(v, lookback)[..i]
    {
      var rank := ComputeRank(TrailingWindow(v, i, lookback), v[i]);
      out := out + [rank];
    }
  }

  // ---------------------------------------------------------------- breadth and score

  datatype Tally = Tally(above: nat, counted: nat)

  /** How many members of the set are above their own long average, of those that have one. */
  function Breadth(h: History, members: seq<Ticker>, i: nat): (t: Tally)
    requires i < h.days
    ensures t.above <= t.counted
  {
    if members == [] then Tally(0, 0)
    else
      var rest := Breadth(h, members[1..], i);
      if members[0] !in h.px || Sma(h.px[members[0]], MA_DAYS)[i].None? then rest
      else Tally(rest.above + (if AboveLine(h.px[members[0]], MA_DAYS, 1.0)[i] then 1 else 0), rest.counted + 1)
  }

  function Share(t: Tally): Option<real> {
    if t.counted > 0 then Some(t.above as real / t.counted as real) else None
  }

  function ScoreOf(trendUp: bool, breadth: Option<real>, percentile: Option<real>): real {
    (if trendUp then 0.5 else -0.5)
    + (if breadth.Some? then (breadth.value - 0.5) * 0.6 else 0.0)
    + (if percentile.Some? && percentile.value >= 80.0 then -0.4 else 0.0)
    + (if percentile.Some? && percentile.value <= 50.0 then 0.15 else 0.0)
  }

  function MoodOf(known: bool, score: real): Mood {
    if !known then NEUTRAL else if score <= -0.35 then RISK_OFF else if score >= 0.35 then RISK_ON else NEUTRAL
  }

  function ReadingOn(h: History, spread: Spread, i: nat): Reading
    requires PRIMARY in h.px && i < h.days
  {
    var a := h.px[PRIMARY];
    var vol := Volatility(a, spread);
    var trendUp := AboveLine(a, MA_DAYS, 1.0)[i];
    var percentile := Percentiles(vol, VOL_LOOKBACK)[i];
    var breadth := Share(Breadth(h, BREADTH_SET, i));
    var score := ScoreOf(trendUp, breadth, percentile);
    Reading(MoodOf(Sma(a, MA_DAYS)[i].Some?, score), score, trendUp, vol[i], percentile, breadth)
  }

  /** The live entry point: the last day's reading, or None when the index is missing. */
  function Latest(h: History, spread: Spread): Option<Reading> {
    if PRIMARY !in h.px || h.days == 0 then None else Some(ReadingOn(h, spread, h.days - 1))
  }

  /** True on the days the regime permits holding the sleeve. */
  function Gate(h: History, spread: Spread): (r: seq<bool>) {
    if PRIMARY !in h.px then []
    else seq(h.days, i requires 0 <= i < h.days => ReadingOn(h, spread, i).mood != RISK_OFF)
  }

  /** On blocked days, hold what the strategy holds when it is flat.  The shorter list decides the length. */
  function ApplyGate(targets: seq<Target>, allow: seq<bool>, s: Strategy): (r: seq<Target>)
  {
    seq(if |targets| <= |allow| then |targets| else |allow|,
        i requires 0 <= i < |targets| && i < |allow| => if allow[i] then targets[i] else OffTarget(s))
  }

  // ---------------------------------------------------------------- live equals backtest

  /** The history without its first `s` days: what a live feed of recent closes holds. */
  function Recent(h: History, s: nat): History
    requires s <= h.days
  {
    Aligned(h.days - s, map tk | tk in h.px :: h.px[tk][s..])
  }

  lemma {:induction false} CumRecent(a: Series, s: nat, j: nat)
    requires s + j <= |a|
    ensures Cum(a[s..], j) == Cum(a, s + j) - Cum(a, s)
  {
    if j > 0 {
      CumRecent(a, s, j - 1);
    }
  }

  lemma SmaRecent(a: Series, n: nat, s: nat, i: nat)
    requires 0 < n && n - 1 <= i && s + i < |a|
    ensures Sma(a[s..], n)[i] == Sma(a, n)[s + i]
  {
    CumRecent(a, s, i + 1);
    CumRecent(a, s, i + 1 - n);
  }

  lemma VolatilityRecent(a: Series, spread: Spread, s: nat, i: nat)
    requires VOL_DAYS <= i && s + i < |a|
    ensures Volatility(a[s..], spread)[i] == Volatility(a, spread)[s + i]
  {
    assert Growth(a[s..], i) == Growth(a, s + i);
  }

  lemma PercentileRecent(a: Series, spread: Spread, s: nat, i: nat)
    requires VOL_LOOKBACK + VOL_DAYS - 1 <= i && s + i < |a|
    ensures Percentiles(Volatility(a[s..], spread), VOL_LOOKBACK)[i]
        == Percentiles(Volatility(a, spread), VOL_LOOKBACK)[s + i]
  {
    var v, w := Volatility(a[s..], spread), Volatility(a, spread);
    forall j | VOL_DAYS <= j <= i
      ensures v[j] == w[s + j]
    {
      VolatilityRecent(a, spread, s, j);
    }
    assert TrailingWindow(v, i, VOL_LOOKBACK) == TrailingWindow(w, s + i, VOL_LOOKBACK);
  }

  lemma {:induction false} BreadthRecent(h: History, members: seq<Ticker>, s: nat, i: nat)
    requires MA_DAYS - 1 <= i && s + i < h.days
    ensures Breadth(Recent(h, s), members, i) == Breadth(h, members, s + i)
  {
    if members != [] {
      BreadthRecent(h, members[1..], s, i);
      if members[0] in h.px {
        SmaRecent(h.px[members[0]], MA_DAYS, s, i);
      }
    }
  }

  /** Finite memory: a day's reading depends only on that day's close and the 523 before it. */
  lemma ReadingRecent(h: History, spread: Spread, s: nat, i: nat)
    requires PRIMARY in h.px && VOL_LOOKBACK + VOL_DAYS - 1 <= i && s + i < h.days
    ensures ReadingOn(Recent(h, s), spread, i) == ReadingOn(h, spread, s + i)
  {
    var a := h.px[PRIMARY];
    SmaRecent(a, MA_DAYS, s, i);
    VolatilityRecent(a, spread, s, i);
    PercentileRecent(a, spread, s, i);
    BreadthRecent(h, BREADTH_SET, s, i);
  }

  /** The live reading on any feed of at least 524 recent closes is the backtest's reading for that day. */
  lemma LiveIsBacktest(h: History, spread: Spread, s: nat)
    requires s + VOL_LOOKBACK + VOL_DAYS <= h.days
    ensures Latest(Recent(h, s), spread) == Latest(h, spread)
  {
    hide ReadingOn;
    if PRIMARY in h.px {
      ReadingRecent(h, spread, s, h.days - 1 - s);
    }
  }

  /** Until the long average exists the regime is neutral: never a green light, and never a block. */
  lemma WarmUpIsNeutral(h: History, spread: Spread, i: nat)
    requires PRIMARY in h.px && i < h.days && i < MA_DAYS - 1
    ensures ReadingOn(h, spread, i).mood == NEUTRAL && Gate(h, spread)[i]
  {
  }

  // ---------------------------------------------------------------- what decides the mood

  lemma ShareIsAFraction(t: Tally)
    requires t.above <= t.counted
    ensures Share(t).Some? ==> 0.0 <= Share(t).value <= 1.0
  {
    if t.counted > 0 {
      var q := t.above as real / t.counted as real;
      assert q * t.counted as real == t.above as real;
      if q > 1.0 {
        Overfull(q, t.counted as real);
      } else if q < 0.0 {
        Overfull(1.0 - q, t.counted as real);
      }
    }
  }

  lemma Overfull(q: real, n: real)
    requires q > 1.0 && n > 0.0
    ensures q * n > n
  {
    assert (q - 1.0) * n > 0.0;
  }

  /** Trend is the backbone: no mix of breadth and volatility makes a day under the long average a green light, or a day
      over it one the gate blocks. */
  lemma TrendIsTheBackbone(h: History, spread: Spread, i: nat)
    requires PRIMARY in h.px && i < h.days
    ensures var r := ReadingOn(h, spread, i); (r.mood == RISK_ON ==> r.trendUp) && (r.mood == RISK_OFF ==> !r.trendUp)
  {
    hide Volatility, Percentiles, AboveLine, Sma, Breadth, Share;
    ShareIsAFraction(Breadth(h, BREADTH_SET, i));
  }

  /** The score is described as running from -1 to 1.  It never passes 1, but under the average, in stress and with
      fewer than a third of the set above theirs, and only then, it goes below -1. */
  lemma ScoreInRangeIff(h: History, spread: Spread, i: nat)
    requires PRIMARY in h.px && i < h.days
    ensures var r := ReadingOn(h, spread, i);
      && r.score <= 1.0
      && (r.score < -1.0 <==>
            !r.trendUp && r.percentile.Some? && r.percentile.value >= 80.0 && r.breadth.Some? &&
              r.breadth.value * 3.0 < 1.0)
  {
    hide Volatility, Percentiles, AboveLine, Sma, Breadth, Share;
    ShareIsAFraction(Breadth(h, BREADTH_SET, i));
  }
}
