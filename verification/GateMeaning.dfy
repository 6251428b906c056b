/** What the regime gate blocks, said from the closes, and what is held then. */
module GateMeaning {
  import opened Basics
  import opened Simulator
  import opened Indicators
  import opened Overlays
  import opened Regime
  import opened Lookahead
  import opened Signals

  /** How many of these are in the history, and how many of them closed over their 200-day mean. */
  function Counted(h: History, members: seq<Ticker>): nat {
    if members == [] then 0 else (if members[0] in h.px then 1 else 0) + Counted(h, members[1..])
  }

  ghost function Over(h: History, members: seq<Ticker>, i: nat): nat
    requires i < h.days
  {
    if members == [] then 0
    else (if members[0] in h.px && OverMean(h.px[members[0]], 200, 1.0, i) then 1 else 0) + Over(h, members[1..], i)
  }

  lemma {:induction false} BreadthCounts(h: History, members: seq<Ticker>, i: nat)
    requires i < h.days && i >= 199
    ensures Breadth(h, members, i) == Tally(Over(h, members, i), Counted(h, members))
  {
    hide OverMean, AboveLine;
    if members != [] {
      BreadthCounts(h, members[1..], i);
      if members[0] in h.px {
        AboveLineIsOverMean(h.px[members[0]], 200, 1.0, i);
        MeanExists(h.px[members[0]], i);
      }
    }
  }

  lemma MeanExists(a: Series, i: nat)
    requires i < |a|
    ensures Sma(a, MA_DAYS)[i].Some? == (i >= 199)
  {
  }

  lemma {:induction false} CountBounds(h: History, members: seq<Ticker>, i: nat, tk: Ticker)
    requires i < h.days
    ensures Over(h, members, i) <= Counted(h, members) <= |members|
    ensures tk in members && tk in h.px ==>
      && Counted(h, members) >= 1
      && (if OverMean(h.px[tk], 200, 1.0, i) then Over(h, members, i) >= 1
          else Over(h, members, i) < Counted(h, members))
  {
    hide OverMean;
    if members != [] {
      CountBounds(h, members[1..], i, tk);
      assert forall x :: x in members <==> x == members[0] || x in members[1..];
    }
  }

  /** The day's volatility among its own last two years, in percent from below. */
  function VolatilityRank(h: History, spread: Spread, i: nat): Option<real>
    requires PRIMARY in h.px && i < h.days
  {
    Percentiles(Volatility(h.px[PRIMARY], spread), 504)[i]
  }

  ghost predicate Stressed(h: History, spread: Spread, i: nat)
    requires PRIMARY in h.px && i < h.days
  {
    VolatilityRank(h, spread, i).Some? && VolatilityRank(h, spread, i).value >= 80.0
  }

  ghost predicate Calm(h: History, spread: Spread, i: nat)
    requires PRIMARY in h.px && i < h.days
  {
    VolatilityRank(h, spread, i).Some? && VolatilityRank(h, spread, i).value <= 50.0
  }

  lemma ShareOfFew(t: Tally)
    requires t.above <= t.counted <= 3 && 1 <= t.counted
    ensures var b := Share(t).value;
      && Share(t).Some? && (t.above >= 1 ==> b >= 0.3) && (t.above < t.counted ==> b <= 0.7)
      && (t.above == t.counted ==> b == 1.0) && (b > 0.5 <==> 2 * t.above > t.counted) && 0.0 <= b <= 1.0
  {
    var b := t.above as real / t.counted as real;
    assert b * t.counted as real == t.above as real;
    if t.counted == 1 {
      assert b == t.above as real;
    } else if t.counted == 2 {
      assert 2.0 * b == t.above as real;
    } else {
      assert 3.0 * b == t.above as real;
    }
  }

  lemma ScoreDecides(trendUp: bool, b: real, percentile: Option<real>)
    requires 0.0 <= b <= 1.0 && if trendUp then b >= 0.3 else b <= 0.7
    requires trendUp ==> b <= 0.7 || b == 1.0
    ensures MoodOf(true, ScoreOf(trendUp, Some(b), percentile)) ==
      if trendUp then (if percentile.Some? && percentile.value >= 80.0 && b < 1.0 then NEUTRAL else RISK_ON)
      else if percentile.Some? && percentile.value <= 50.0 && b > 0.5 then NEUTRAL else RISK_OFF
  {
  }

  /** The whole of the regime: neutral until the 200-day mean exists; over it a green light, unless volatility is in
      the top fifth of its own two years and some index of the set is not over its mean; under it a red one, unless
      volatility is in the calmer half and more than half of the set is over theirs. */
  lemma MoodIs(h: History, spread: Spread, i: nat)
    requires PRIMARY in h.px && i < h.days
    ensures var over, counted := Over(h, BREADTH_SET, i), Counted(h, BREADTH_SET);
      ReadingOn(h, spread, i).mood ==
        if i < 199 then NEUTRAL
        else if OverMean(h.px[PRIMARY], 200, 1.0, i) then
          if Stressed(h, spread, i) && over < counted then NEUTRAL else RISK_ON
        else if Calm(h, spread, i) && 2 * over > counted then NEUTRAL else RISK_OFF
  {
    hide OverMean, AboveLine, Volatility, Percentiles, Sma, ScoreOf, MoodOf, Share;
    var a := h.px[PRIMARY];
    AboveLineIsOverMean(a, 200, 1.0, i);
    MeanExists(a, i);
    if i < 199 {
      UnknownIsNeutral(ReadingOn(h, spread, i).score);
    } else {
      assert PRIMARY in BREADTH_SET;
      BreadthCounts(h, BREADTH_SET, i);
      CountBounds(h, BREADTH_SET, i, PRIMARY);
      var t := Breadth(h, BREADTH_SET, i);
      ShareOfFew(t);
      ScoreDecides(OverMean(a, 200, 1.0, i), Share(t).value, VolatilityRank(h, spread, i));
    }
  }

  lemma UnknownIsNeutral(score: real)
    ensures MoodOf(false, score) == NEUTRAL
  {
  }

  /** A day is blocked exactly when its 200-day mean exists, the close is not over it, and it is not calm with most of
      the set over theirs. */
  ghost predicate Blocked(h: History, spread: Spread, i: nat)
    requires PRIMARY in h.px && i < h.days
  {
    && i >= 199 && !OverMean(h.px[PRIMARY], 200, 1.0, i)
    && !(Calm(h, spread, i) && 2 * Over(h, BREADTH_SET, i) > Counted(h, BREADTH_SET))
  }

  lemma GateBlocksIff(h: History, spread: Spread, i: nat)
    requires PRIMARY in h.px && i < h.days
    ensures |Gate(h, spread)| == h.days && (!Gate(h, spread)[i] <==> Blocked(h, spread, i))
  {
    hide ReadingOn, OverMean, Calm, Stressed, Over, Counted;
    MoodIs(h, spread, i);
  }

  /** With the gate on, a day holds what its overlay asks for, and on the blocked days what the strategy holds when it
      is flat. */
  lemma GatedPlanHolds(h: History, s: Strategy, num: Numerics, spread: Spread, i: nat)
    requires Ready(h, s, true) && Supplied(h, s) && i < h.days && TargetsFor(h, s, num).Targets?
    ensures PRIMARY in h.px
    ensures var r, asked := Plan(h, s, num, spread, true), TargetsFor(h, s, num).daily;
      && r.Targets? && |r.daily| == |asked| == h.days
      && if Blocked(h, spread, i) then IsFlat(s, r.daily[i]) else r.daily[i] == asked[i]
  {
    hide Gate, TargetsFor, Blocked, OffTarget;
    assert PRIMARY in TickersNeeded(s, true);
    GateBlocksIff(h, spread, i);
    OffIsFlat(s);
  }
}
