/** What the overlays' loops amount to, said without their loops. */
module OverlayMeaning {
  import opened Basics
  import opened Simulator
  import opened Indicators
  import opened Overlays

  // ---------------------------------------------------------------- rules that enter and leave

  /** A position taken on an entry day while out, and given up on an exit day while in. */
  function Latched(entry: seq<bool>, exit: seq<bool>, i: nat): bool
    requires |entry| == |exit| && i <= |entry|
  {
    i > 0 && if Latched(entry, exit, i - 1) then !exit[i - 1] else entry[i - 1]
  }

  /** The latest entry day with no exit day after it. */
  ghost predicate EnteredSince(entry: seq<bool>, exit: seq<bool>, i: nat, j: nat)
    requires |entry| == |exit| && i <= |entry|
  {
    j < i && entry[j] && forall k :: j < k < i ==> !exit[k]
  }

  /** While no day is both, such a rule is in exactly when it has entered and not left since. */
  lemma {:induction false} LatchMeansEntered(entry: seq<bool>, exit: seq<bool>, i: nat)
    requires |entry| == |exit| && i <= |entry| && forall k :: 0 <= k < i ==> !(entry[k] && exit[k])
    ensures Latched(entry, exit, i) <==> exists j :: 0 <= j < i && EnteredSince(entry, exit, i, j)
  {
    if i > 0 {
      var d := i - 1;
      LatchMeansEntered(entry, exit, d);
      if entry[d] {
        assert EnteredSince(entry, exit, i, d);
      }
      forall j | 0 <= j < d
        ensures EnteredSince(entry, exit, i, j) == (EnteredSince(entry, exit, d, j) && !exit[d])
      {
      }
    }
  }

  /** A day that is both an entry and an exit turns the position over, whichever it was. */
  lemma BothTurnsOver(entry: seq<bool>, exit: seq<bool>, i: nat)
    requires |entry| == |exit| && 0 < i <= |entry| && entry[i - 1] && exit[i - 1]
    ensures Latched(entry, exit, i) == !Latched(entry, exit, i - 1)
  {
  }

  // ---------------------------------------------------------------- channel breakout

  lemma {:induction false} HighestIsMost(a: Series, x: real)
    requires a != []
    ensures x >= Highest(a) <==> forall k :: 0 <= k < |a| ==> x >= a[k]
  {
    if |a| > 1 {
      HighestIsMost(a[1..], x);
      assert forall k :: 0 < k < |a| ==> a[k] == a[1..][k - 1];
    }
  }

  lemma {:induction false} LowestIsLeast(a: Series, x: real)
    requires a != []
    ensures x <= Lowest(a) <==> forall k :: 0 <= k < |a| ==> x <= a[k]
  {
    if |a| > 1 {
      LowestIsLeast(a[1..], x);
      assert forall k :: 0 < k < |a| ==> a[k] == a[1..][k - 1];
    }
  }

  /** The close is the highest, or the lowest, of the last n. */
  predicate AtHigh(a: Series, n: Window, i: nat)
    requires i < |a|
  {
    i >= n - 1 && forall k :: i + 1 - n <= k <= i ==> a[i] >= a[k]
  }

  predicate AtLow(a: Series, n: Window, i: nat)
    requires i < |a|
  {
    i >= n - 1 && forall k :: i + 1 - n <= k <= i ==> a[i] <= a[k]
  }

  function BreakoutDays(a: Series, entry: Window, exit: Window): (r: seq<bool>)
    ensures |r| == |a|
  {
    seq(|a|, i requires 0 <= i < |a| => i >= exit - 1 && AtHigh(a, entry, i))
  }

  function BreakdownDays(a: Series, entry: Window, exit: Window): (r: seq<bool>)
    ensures |r| == |a|
  {
    seq(|a|, i requires 0 <= i < |a| => i >= entry - 1 && AtLow(a, exit, i))
  }

  lemma ChannelDay(a: Series, entry: Window, exit: Window, i: nat)
    requires i < |a|
    ensures RollingMax(a, entry)[i].Some? && a[i] >= RollingMax(a, entry)[i].value <==> AtHigh(a, entry, i)
    ensures RollingMin(a, exit)[i].Some? && a[i] <= RollingMin(a, exit)[i].value <==> AtLow(a, exit, i)
  {
    if i >= entry - 1 {
      var w := a[i + 1 - entry..i + 1];
      HighestIsMost(w, a[i]);
      assert forall k :: i + 1 - entry <= k <= i ==> a[k] == w[k - (i + 1 - entry)];
    }
    if i >= exit - 1 {
      var w := a[i + 1 - exit..i + 1];
      LowestIsLeast(w, a[i]);
      assert forall k :: i + 1 - exit <= k <= i ==> a[k] == w[k - (i + 1 - exit)];
    }
  }

  /** The channel rule enters on a close at the high of its entry window and leaves on one at the low of its exit
      window, once both windows are full. */
  lemma {:induction false} ChannelIsALatch(a: Series, entry: Window, exit: Window, i: nat)
    requires i <= |a|
    ensures ChannelHolding(a, entry, exit, i) == Latched(BreakoutDays(a, entry, exit), BreakdownDays(a, entry, exit), i)
  {
    hide RollingMax, RollingMin, AtHigh, AtLow;
    if i > 0 {
      ChannelIsALatch(a, entry, exit, i - 1);
      ChannelDay(a, entry, exit, i - 1);
      WindowsFill(a, entry, exit, i - 1);
    }
  }

  lemma WindowsFill(a: Series, entry: Window, exit: Window, i: nat)
    requires i < |a|
    ensures RollingMax(a, entry)[i].Some? == (i >= entry - 1) && RollingMin(a, exit)[i].Some? == (i >= exit - 1)
    ensures AtHigh(a, entry, i) ==> i >= entry - 1
    ensures AtLow(a, exit, i) ==> i >= exit - 1
  {
  }

  /** The closes of the shorter window are all alike, and today's is the longer window's extreme as well. */
  ghost predicate FlatAtExtreme(a: Series, entry: Window, exit: Window, i: nat)
    requires i < |a|
  {
    && i >= entry - 1 && i >= exit - 1
    && (forall k :: i + 1 - entry <= k <= i && i + 1 - exit <= k ==> a[k] == a[i])
    && (forall k :: i + 1 - entry <= k < i + 1 - exit ==> a[k] <= a[i])
    && (forall k :: i + 1 - exit <= k < i + 1 - entry ==> a[k] >= a[i])
  }

  /** A day is both an entry and an exit exactly when both windows are full, the market has stood still for all of the
      shorter one, and no close of the longer one is beyond where it stood: above it when the entry window is the
      longer, below it when the exit window is. */
  lemma BothDayIff(a: Series, entry: Window, exit: Window, i: nat)
    requires i < |a|
    ensures (BreakoutDays(a, entry, exit)[i] && BreakdownDays(a, entry, exit)[i]) == FlatAtExtreme(a, entry, exit, i)
  {
    if BreakoutDays(a, entry, exit)[i] && BreakdownDays(a, entry, exit)[i] {
      forall k | i + 1 - entry <= k <= i && i + 1 - exit <= k
        ensures a[k] == a[i]
      {
        assert a[i] >= a[k] && a[i] <= a[k];
      }
    }
    if FlatAtExtreme(a, entry, exit, i) {
      forall k | i + 1 - entry <= k <= i
        ensures a[i] >= a[k]
      {
        assert k < i + 1 - exit || a[k] == a[i];
      }
      forall k | i + 1 - exit <= k <= i
        ensures a[i] <= a[k]
      {
        assert k < i + 1 - entry || a[k] == a[i];
      }
    }
  }

  /** So until the market stands still for a whole window at such an extreme, the channel rule is in exactly when it has
      entered and not left since. */
  lemma ChannelMeansEntered(a: Series, entry: Window, exit: Window, i: nat)
    requires i <= |a| && forall k :: 0 <= k < i ==> !FlatAtExtreme(a, entry, exit, k)
    ensures ChannelHolding(a, entry, exit, i)
        <==> exists j :: 0 <= j < i && EnteredSince(BreakoutDays(a, entry, exit), BreakdownDays(a, entry, exit), i, j)
  {
    hide BreakoutDays, BreakdownDays, ChannelHolding, Latched, FlatAtExtreme;
    ChannelIsALatch(a, entry, exit, i);
    forall k | 0 <= k < i
      ensures !(BreakoutDays(a, entry, exit)[k] && BreakdownDays(a, entry, exit)[k])
    {
      BothDayIff(a, entry, exit, k);
    }
    LatchMeansEntered(BreakoutDays(a, entry, exit), BreakdownDays(a, entry, exit), i);
  }

  /** On a day the market has stood still so, the channel rule turns over, whichever way it was. */
  lemma FlatAtExtremeTurnsOver(a: Series, entry: Window, exit: Window, i: nat)
    requires 0 < i <= |a| && FlatAtExtreme(a, entry, exit, i - 1)
    ensures ChannelHolding(a, entry, exit, i) == !ChannelHolding(a, entry, exit, i - 1)
  {
    hide BreakoutDays, BreakdownDays, ChannelHolding, Latched, FlatAtExtreme;
    ChannelIsALatch(a, entry, exit, i);
    ChannelIsALatch(a, entry, exit, i - 1);
    BothDayIff(a, entry, exit, i - 1);
    BothTurnsOver(BreakoutDays(a, entry, exit), BreakdownDays(a, entry, exit), i);
  }

  /** In a market that does not move, every close is both, so once its windows are full the channel rule goes in and
      out on alternate days. */
  lemma FlatMarketAlternates(a: Series, entry: Window, exit: Window, i: nat)
    requires 0 < i <= |a| && i >= entry && i >= exit && forall k :: 0 <= k < |a| ==> a[k] == a[0]
    ensures ChannelHolding(a, entry, exit, i) == !ChannelHolding(a, entry, exit, i - 1)
  {
    hide ChannelHolding;
    FlatAtExtremeTurnsOver(a, entry, exit, i);
  }

  // ---------------------------------------------------------------- drawdown brake

  /** The day the current spell, in or out, began. */
  function SpellStart(a: Series, limit: real, recover: real, i: nat): (s: nat)
    requires 0 < i <= |a|
    ensures s < i
  {
    if i == 1 then 0
    else if BrakeAfter(a, limit, recover, i).holding != BrakeAfter(a, limit, recover, i - 1).holding then i - 1
    else SpellStart(a, limit, recover, i - 1)
  }

  lemma {:induction false} HighestAppend(a: Series, x: Price)
    requires a != []
    ensures Highest(a + [x]) == Max(Highest(a), x) && Lowest(a + [x]) == Min(Lowest(a), x)
  {
    if |a| > 1 {
      HighestAppend(a[1..], x);
      assert (a + [x])[1..] == a[1..] + [x];
    } else {
      assert (a + [x])[1..] == [x];
    }
  }

  /** Through a spell in the market no close is the limit below the spell's highest so far; through a spell out of it
      no close is the recovery above the spell's lowest so far. */
  ghost predicate SpellHolds(a: Series, limit: real, recover: real, holding: bool, s: nat, i: nat)
    requires s < i <= |a|
  {
    forall k :: s < k < i ==>
      if holding then !Stopped(a[k], Highest(a[s..k + 1]), limit) else !Recovered(a[k], Lowest(a[s..k + 1]), recover)
  }

  lemma ExtremesOfOne(x: Price)
    ensures Highest([x]) == x && Lowest([x]) == x
  {
  }

  /** While in, the peak is the spell's highest close and none was the limit below it; while out, the trough is the
      spell's lowest and none was the recovery above it. */
  lemma {:induction false} BrakeFollowsItsSpell(a: Series, limit: real, recover: real, i: nat)
    requires 0 < i <= |a|
    ensures var b, s := BrakeAfter(a, limit, recover, i), SpellStart(a, limit, recover, i);
      && SpellHolds(a, limit, recover, b.holding, s, i)
      && (if b.holding then b.peak == Highest(a[s..i]) else b.trough == Lowest(a[s..i]))
  {
    hide Stopped, Recovered, Highest, Lowest;
    ExtremesOfOne(a[i - 1]);
    assert a[i - 1..i] == [a[i - 1]];
    if i > 1 {
      var s := SpellStart(a, limit, recover, i - 1);
      BrakeFollowsItsSpell(a, limit, recover, i - 1);
      HighestAppend(a[s..i - 1], a[i - 1]);
      assert a[s..i - 1] + [a[i - 1]] == a[s..i];
    }
  }

  // ---------------------------------------------------------------- dip buying

  function DipDays(gate: Series, sig: Series, maDays: int, rsiDays: int, entry: real): (r: seq<bool>)
    requires |gate| == |sig|
    ensures |r| == |sig|
  {
    seq(|sig|, i requires 0 <= i < |sig| =>
      AboveLine(gate, maDays, 1.0)[i] && Rsi(sig, rsiDays)[i].Some? && Rsi(sig, rsiDays)[i].value < entry)
  }

  function RecoveryDays(gate: Series, sig: Series, maDays: int, exitMa: int): (r: seq<bool>)
    requires |gate| == |sig|
    ensures |r| == |sig|
  {
    seq(|sig|, i requires 0 <= i < |sig| => Above(sig[i], Sma(sig, exitMa)[i], 1.0) || !AboveLine(gate, maDays, 1.0)[i])
  }

  /** Dip buying enters on weakness inside the uptrend, leaves on strength or the uptrend's end, and is never in on a
      day outside it. */
  lemma {:induction false} PullbackIsALatch(gate: Series, sig: Series, maDays: int, rsiDays: int, exitMa: int,
                                            entry: real, i: nat)
    requires |gate| == |sig| && i <= |sig|
    ensures PullbackHolding(gate, sig, maDays, rsiDays, exitMa, entry, i)
         == Latched(DipDays(gate, sig, maDays, rsiDays, entry), RecoveryDays(gate, sig, maDays, exitMa), i)
    ensures i > 0 && PullbackHolding(gate, sig, maDays, rsiDays, exitMa, entry, i) ==>
        AboveLine(gate, maDays, 1.0)[i - 1]
  {
    hide AboveLine, Rsi, Sma, Above;
    if i > 0 {
      PullbackIsALatch(gate, sig, maDays, rsiDays, exitMa, entry, i - 1);
    }
  }

  // ---------------------------------------------------------------- momentum

  ghost predicate Descending(rs: seq<Ranked>) { forall i, j :: 0 <= i < j < |rs| ==> rs[i].ret >= rs[j].ret }

  lemma {:induction false} InsertDescends(x: Ranked, rs: seq<Ranked>)
    requires Descending(rs)
    ensures Descending(InsertRanked(x, rs)) && |InsertRanked(x, rs)| == |rs| + 1
    ensures forall r :: r in InsertRanked(x, rs) <==> r == x || r in rs
  {
    if rs != [] && x.ret < rs[0].ret {
      InsertDescends(x, rs[1..]);
      var tail := InsertRanked(x, rs[1..]);
      forall i | 0 <= i < |tail|
        ensures rs[0].ret >= tail[i].ret
      {
        assert tail[i] in tail;
      }
    }
  }

  lemma {:induction false} SortDescends(rs: seq<Ranked>)
    ensures Descending(SortRanked(rs)) && |SortRanked(rs)| == |rs|
    ensures forall r :: r in SortRanked(rs) <==> r in rs
  {
    hide InsertRanked;
    if rs != [] {
      SortDescends(rs[1..]);
      InsertDescends(rs[0], SortRanked(rs[1..]));
    }
  }

  lemma {:induction false} RisersRise(rs: seq<Ranked>)
    ensures forall tk :: tk in Risers(rs) <==> exists r :: r in rs && r.ret > 0.0 && r.ticker == tk
    ensures |Risers(rs)| <= |rs| && ((forall r :: r in rs ==> r.ret > 0.0) ==> |Risers(rs)| == |rs|)
  {
    if rs != [] {
      RisersRise(rs[1..]);
      assert forall r :: r in rs <==> r == rs[0] || r in rs[1..];
    }
  }

  /** A winner rose and nothing that was passed over rose more: a riser is left out only when the places are full of
      names that did at least as well. */
  lemma WinnersAreTheBest(rs: seq<Ranked>, topN: nat, r: Ranked)
    requires r in rs
    ensures |Winners(rs, topN)| <= topN
    ensures forall tk :: tk in Winners(rs, topN) ==> exists q :: q in rs && q.ticker == tk && q.ret > 0.0
    ensures r.ret > 0.0 && r.ticker !in Winners(rs, topN) ==>
      |Winners(rs, topN)| == topN && forall tk :: tk in Winners(rs, topN) ==>
        exists q :: q in rs && q.ticker == tk && q.ret >= r.ret
  {
    hide InsertRanked, SortRanked, Risers;
    SortDescends(rs);
    var sorted := SortRanked(rs);
    var top := if topN <= |sorted| then sorted[..topN] else sorted;
    RisersRise(top);
    var k :| 0 <= k < |sorted| && sorted[k] == r;
    if k >= topN {
      forall q | q in top
        ensures q.ret >= r.ret && q in rs
      {
        var j :| 0 <= j < |top| && top[j] == q;
        assert sorted[j] == q && sorted[j].ret >= sorted[k].ret;
      }
    } else {
      assert top[k] == r;
    }
    assert forall q :: q in top ==> q in sorted;
  }

  /** The leader is the first of the universe that nothing beats. */
  lemma {:induction false} LeaderIsTheBest(rs: seq<Ranked>)
    requires rs != []
    ensures Leader(rs) in rs && forall r :: r in rs ==> r.ret <= Leader(rs).ret
    ensures exists k :: 0 <= k < |rs| && rs[k] == Leader(rs) && forall j :: 0 <= j < k ==> rs[j].ret < Leader(rs).ret
  {
    if |rs| > 1 {
      LeaderIsTheBest(rs[1..]);
      var k :| 0 <= k < |rs| - 1 && rs[1..][k] == Leader(rs[1..]) && forall j :: 0 <= j < k ==>
        rs[1..][j].ret < Leader(rs[1..]).ret;
      if rs[0].ret < Leader(rs[1..]).ret {
        assert rs[k + 1] == Leader(rs) && forall j :: 0 < j < k + 1 ==> rs[j] == rs[1..][j - 1];
      } else {
        assert rs[0] == Leader(rs);
      }
    }
  }
}
