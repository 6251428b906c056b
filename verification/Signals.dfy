/** What each overlay holds on a day, said from the closes: which setup is live, and what is held when it is not. */
module Signals {
  import opened Basics
  import opened Simulator
  import opened Indicators
  import opened Overlays
  import opened OverlayMeaning

  // ---------------------------------------------------------------- vocabulary

  /** The plain mean of the last n closes. */
  function Mean(a: Series, n: nat, i: nat): real
    requires 0 < n <= i + 1 <= |a|
  {
    Total(a[i + 1 - n..i + 1]) / n as real
  }

  /** The close is so many times over the mean of its own trailing window, once that is full. */
  ghost predicate OverMean(a: Series, n: int, factor: real, i: nat)
    requires i < |a|
  {
    0 < n <= i + 1 && a[i] > factor * Mean(a, n, i)
  }

  /** So on each of the last few days, and at least on the last. */
  ghost predicate OverMeanFor(a: Series, n: int, factor: real, days: int, i: nat)
    requires i < |a|
  {
    var d := if days <= 1 then 1 else days;
    i + 1 >= d && forall j :: i + 1 - d <= j <= i ==> OverMean(a, n, factor, j)
  }

  ghost predicate FastOverSlow(a: Series, fast: int, slow: int, longDays: Option<int>, i: nat)
    requires i < |a|
  {
    && 0 < fast <= i + 1 && 0 < slow <= i + 1 && Mean(a, fast, i) > Mean(a, slow, i)
    && (longDays.Some? ==> OverMean(a, longDays.value, 1.0, i))
  }

  ghost predicate FastOverSlowFor(a: Series, fast: int, slow: int, longDays: Option<int>, days: int, i: nat)
    requires i < |a|
  {
    var d := if days <= 1 then 1 else days;
    i + 1 >= d && forall j :: i + 1 - d <= j <= i ==> FastOverSlow(a, fast, slow, longDays, j)
  }

  /** The core holding, else the risk-off fund, else nothing. */
  ghost predicate IsFlat(s: Strategy, target: Target) {
    if s.base != [] then target == s.base
    else if s.riskOff.Some? then target == [Leg(s.riskOff.value, 1.0)]
    else target == []
  }

  /** The basket when the setup is live, and what is held flat when it is not. */
  ghost predicate Holds(s: Strategy, target: Target, live: bool) {
    if live then target == s.weights else IsFlat(s, target)
  }

  lemma OffIsFlat(s: Strategy)
    ensures IsFlat(s, OffTarget(s))
  {
  }

  /** The program answers with targets, one a day, unless the basket is missing or the overlay unknown. */
  lemma AbstainsIff(h: History, s: Strategy, num: Numerics)
    requires Supplied(h, s)
    ensures var r := TargetsFor(h, s, num);
      && (r.Abstain? <==> (s.weights == [] && !s.overlay.DualMomentum?) || s.overlay.Unsupported?)
      && (r.Targets? ==> |r.daily| == h.days)
      && (r.Abstain? ==> r.reason == if s.weights == [] && !s.overlay.DualMomentum? then BAD_SPEC else UNKNOWN_OVERLAY)
  {
  }

  // ---------------------------------------------------------------- moving averages

  lemma AboveLineIsOverMean(a: Series, n: int, factor: real, i: nat)
    requires i < |a|
    ensures AboveLine(a, n, factor)[i] == OverMean(a, n, factor, i)
  {
    hide Total;
    if n > 0 {
      SmaIsWindowMean(a, n, i);
    }
  }

  lemma CrossIsFastOverSlow(a: Series, fast: int, slow: int, longDays: Option<int>, i: nat)
    requires i < |a|
    ensures CrossFlags(a, fast, slow, longDays)[i] == FastOverSlow(a, fast, slow, longDays, i)
  {
    hide Total, AboveLine, OverMean;
    if fast > 0 {
      SmaIsWindowMean(a, fast, i);
    }
    if slow > 0 {
      SmaIsWindowMean(a, slow, i);
    }
    if longDays.Some? {
      AboveLineIsOverMean(a, longDays.value, 1.0, i);
    }
  }

  lemma ConfirmedIff(flag: seq<bool>, days: int, i: nat)
    requires i < |flag|
    ensures Confirm(flag, days)[i] ==
      var d := if days <= 1 then 1 else days; i + 1 >= d && forall j :: i + 1 - d <= j <= i ==> flag[j]
  {
    if days > 1 {
      ConfirmMeansConsecutive(flag, days, i);
    }
  }

  /** The trend filter holds the basket exactly when each of the last `confirm` closes of the gate stood the band above
      the mean of its own window. */
  lemma TrendFilterHolds(h: History, s: Strategy, num: Numerics, i: nat)
    requires Supplied(h, s) && s.weights != [] && s.overlay.TrendFilter? && i < h.days
    ensures var r, o := TargetsFor(h, s, num), s.overlay;
      && r.Targets? && |r.daily| == h.days
      && Holds(s, r.daily[i], OverMeanFor(h.px[o.gateTicker], o.maDays, 1.0 + o.bandPct / 100.0, o.confirmDays, i))
  {
    hide Confirm, AboveLine, OffTarget, OverMean;
    var o := s.overlay;
    var a, factor := h.px[o.gateTicker], 1.0 + o.bandPct / 100.0;
    OffIsFlat(s);
    ConfirmedIff(AboveLine(a, o.maDays, factor), o.confirmDays, i);
    forall j | 0 <= j <= i
      ensures AboveLine(a, o.maDays, factor)[j] == OverMean(a, o.maDays, factor, j)
    {
      AboveLineIsOverMean(a, o.maDays, factor, j);
    }
  }

  /** The moving-average cross holds the basket exactly when on each of the last `confirm` days the fast mean stood over
      the slow one and, if one is asked for, the close over its long mean. */
  lemma MaCrossHolds(h: History, s: Strategy, num: Numerics, i: nat)
    requires Supplied(h, s) && s.weights != [] && s.overlay.MaCross? && i < h.days
    ensures var r, o := TargetsFor(h, s, num), s.overlay;
      && r.Targets? && |r.daily| == h.days
      && Holds(s, r.daily[i],
               FastOverSlowFor(h.px[WatchedTicker(o.gate, s)], o.fast, o.slow, o.longDays, o.confirmDays, i))
  {
    hide Confirm, CrossFlags, OffTarget, FastOverSlow;
    var o := s.overlay;
    var a := h.px[WatchedTicker(o.gate, s)];
    OffIsFlat(s);
    ConfirmedIff(CrossFlags(a, o.fast, o.slow, o.longDays), o.confirmDays, i);
    forall j | 0 <= j <= i
      ensures CrossFlags(a, o.fast, o.slow, o.longDays)[j] == FastOverSlow(a, o.fast, o.slow, o.longDays, j)
    {
      CrossIsFastOverSlow(a, o.fast, o.slow, o.longDays, j);
    }
  }

  // ---------------------------------------------------------------- breakout, dip buying, brake

  lemma {:induction false} HoldingMeansFull(a: Series, entry: Window, exit: Window, i: nat)
    requires i <= |a| && ChannelHolding(a, entry, exit, i)
    ensures i >= entry && i >= exit
  {
    hide RollingMax, RollingMin;
    if i > 0 {
      WindowsFill(a, entry, exit, i - 1);
      if ChannelHolding(a, entry, exit, i - 1) {
        HoldingMeansFull(a, entry, exit, i - 1);
      }
    }
  }

  /** There is an entry day with no exit day since. */
  ghost predicate HasEntered(entry: seq<bool>, exit: seq<bool>, i: nat)
    requires |entry| == |exit| && i <= |entry|
  {
    exists j :: 0 <= j < i && EnteredSince(entry, exit, i, j)
  }

  /** The breakout rule holds the basket exactly while its position, taken at highs and given up at lows, is in; until
      the market stands still at an extreme, exactly when it has entered and not left since. */
  lemma DonchianHolds(h: History, s: Strategy, num: Numerics, i: nat)
    requires Supplied(h, s) && s.weights != [] && s.overlay.Donchian? && i < h.days
    ensures var r, o := TargetsFor(h, s, num), s.overlay;
      var a := h.px[WatchedTicker(o.gate, s)];
      var highs, lows := BreakoutDays(a, o.entryDays, o.exitDays), BreakdownDays(a, o.entryDays, o.exitDays);
      && r.Targets? && |r.daily| == h.days
      && Holds(s, r.daily[i], Latched(highs, lows, i + 1))
      && ((forall k :: 0 <= k <= i ==> !FlatAtExtreme(a, o.entryDays, o.exitDays, k)) ==>
           Holds(s, r.daily[i], HasEntered(highs, lows, i + 1)))
  {
    hide RollingMax, RollingMin, ChannelHolding, Latched, BreakoutDays, BreakdownDays, FlatAtExtreme, OffTarget;
    var o := s.overlay;
    var a := h.px[WatchedTicker(o.gate, s)];
    OffIsFlat(s);
    ChannelIsALatch(a, o.entryDays, o.exitDays, i + 1);
    WindowsFill(a, o.entryDays, o.exitDays, i);
    if ChannelHolding(a, o.entryDays, o.exitDays, i + 1) {
      HoldingMeansFull(a, o.entryDays, o.exitDays, i + 1);
    }
    if forall k :: 0 <= k <= i ==> !FlatAtExtreme(a, o.entryDays, o.exitDays, k) {
      ChannelMeansEntered(a, o.entryDays, o.exitDays, i + 1);
    }
  }

  /** A close under weak strength inside the uptrend, and a close above the exit mean or outside the uptrend. */
  ghost predicate WeakInUptrend(gate: Series, sig: Series, maDays: int, rsiDays: int, entry: real, i: nat)
    requires i < |gate| == |sig|
  {
    OverMean(gate, maDays, 1.0, i) && Rsi(sig, rsiDays)[i].Some? && Rsi(sig, rsiDays)[i].value < entry
  }

  ghost predicate StrongOrOutside(gate: Series, sig: Series, maDays: int, exitMa: int, i: nat)
    requires i < |gate| == |sig|
  {
    OverMean(sig, exitMa, 1.0, i) || !OverMean(gate, maDays, 1.0, i)
  }

  /** In on a day of weakness if out the day before, out on a day of strength if in. */
  ghost predicate BuysDips(gate: Series, sig: Series, maDays: int, rsiDays: int, exitMa: int, entry: real,
                           on: seq<bool>, i: nat)
    requires i < |gate| == |sig| == |on|
  {
    on[i] == if i > 0 && on[i - 1] then !StrongOrOutside(gate, sig, maDays, exitMa, i)
             else WeakInUptrend(gate, sig, maDays, rsiDays, entry, i)
  }

  lemma PullbackDays(gate: Series, sig: Series, maDays: int, rsiDays: int, exitMa: int, entry: real, i: nat)
    requires i < |gate| == |sig|
    ensures DipDays(gate, sig, maDays, rsiDays, entry)[i] == WeakInUptrend(gate, sig, maDays, rsiDays, entry, i)
    ensures RecoveryDays(gate, sig, maDays, exitMa)[i] == StrongOrOutside(gate, sig, maDays, exitMa, i)
  {
    hide Rsi, Sma, OverMean, Above;
    AboveLineIsOverMean(gate, maDays, 1.0, i);
    AboveLineIsOverMean(sig, exitMa, 1.0, i);
    assert AboveLine(sig, exitMa, 1.0)[i] == Above(sig[i], Sma(sig, exitMa)[i], 1.0);
  }

  /** Dip buying holds the basket exactly while a position is in that is taken on weakness inside the uptrend and
      given up on strength or at the uptrend's end, and never outside the uptrend. */
  lemma RsiPullbackHolds(h: History, s: Strategy, num: Numerics) returns (on: seq<bool>)
    requires Supplied(h, s) && s.weights != [] && s.overlay.RsiPullback?
    ensures var r, o := TargetsFor(h, s, num), s.overlay;
      var gate := h.px[WatchedTicker(o.gate, s)];
      var sig := h.px[if o.signal.Some? then o.signal.value else WatchedTicker(o.gate, s)];
      && r.Targets? && |r.daily| == |on| == h.days
      && (forall i :: 0 <= i < h.days ==> Holds(s, r.daily[i], on[i]))
      && (forall i :: 0 <= i < h.days ==> BuysDips(gate, sig, o.maDays, o.rsiDays, o.exitMa, o.entry, on, i))
      && (forall i :: 0 <= i < h.days && on[i] ==> OverMean(gate, o.maDays, 1.0, i))
  {
    hide PullbackHolding, DipDays, RecoveryDays, Latched, WeakInUptrend, StrongOrOutside, OffTarget, AboveLine,
         OverMean;
    var o := s.overlay;
    var gate := h.px[WatchedTicker(o.gate, s)];
    var sig := h.px[if o.signal.Some? then o.signal.value else WatchedTicker(o.gate, s)];
    on := PullbackFlags(gate, sig, o.maDays, o.rsiDays, o.exitMa, o.entry);
    OffIsFlat(s);
    forall i | 0 <= i < h.days
      ensures BuysDips(gate, sig, o.maDays, o.rsiDays, o.exitMa, o.entry, on, i)
      ensures on[i] ==> OverMean(gate, o.maDays, 1.0, i)
    {
      PullbackDays(gate, sig, o.maDays, o.rsiDays, o.exitMa, o.entry, i);
      PullbackIsALatch(gate, sig, o.maDays, o.rsiDays, o.exitMa, o.entry, i);
      PullbackIsALatch(gate, sig, o.maDays, o.rsiDays, o.exitMa, o.entry, i + 1);
      AboveLineIsOverMean(gate, o.maDays, 1.0, i);
      LatchNext(DipDays(gate, sig, o.maDays, o.rsiDays, o.entry), RecoveryDays(gate, sig, o.maDays, o.exitMa), i);
    }
  }

  lemma LatchNext(takes: seq<bool>, leaves: seq<bool>, i: nat)
    requires i < |takes| == |leaves|
    ensures Latched(takes, leaves, i + 1) == if Latched(takes, leaves, i) then !leaves[i] else takes[i]
    ensures i == 0 ==> !Latched(takes, leaves, i)
  {
  }

  /** The day the position as of yesterday was taken or given up. */
  function Since(on: seq<bool>, i: nat): (d: nat)
    requires i < |on|
    ensures d <= i
  {
    if i <= 1 then 0 else if on[i - 1] != on[i - 2] then i - 1 else Since(on, i - 1)
  }

  /** In from the start; out on the close that is the limit under the highest since it came in; in again on the close
      that is the recovery over the lowest since it went out. */
  ghost predicate Brakes(a: Series, limit: real, recover: real, on: seq<bool>, i: nat)
    requires i < |on| == |a|
  {
    var spell := a[Since(on, i)..i + 1];
    on[i] == if i == 0 || on[i - 1] then !(a[i] <= Highest(spell) * (1.0 - limit))
             else a[i] >= Lowest(spell) * (1.0 + recover)
  }

  ghost predicate BrakesDaily(a: Series, limit: real, recover: real, on: seq<bool>)
    requires |on| == |a|
  {
    forall i :: 0 <= i < |a| ==> Brakes(a, limit, recover, on, i)
  }

  lemma {:induction false} SinceIsSpellStart(a: Series, limit: real, recover: real, on: seq<bool>, i: nat)
    requires |a| > 0 && on == BrakeFlags(a, limit, recover) && 0 < i < |a|
    ensures Since(on, i) == SpellStart(a, limit, recover, i)
  {
    hide BrakeAfter;
    if i > 1 {
      SinceIsSpellStart(a, limit, recover, on, i - 1);
    }
  }

  lemma BrakeTurns(b: Brake, spell: Series, x: Price, limit: real, recover: real)
    requires spell != [] && if b.holding then b.peak == Highest(spell) else b.trough == Lowest(spell)
    ensures BrakeStep(b, x, limit, recover).holding
         == if b.holding then !(x <= Highest(spell + [x]) * (1.0 - limit))
           else x >= Lowest(spell + [x]) * (1.0 + recover)
  {
    hide Highest, Lowest;
    HighestAppend(spell, x);
  }

  lemma BrakeStarts(x: Price, limit: real, recover: real)
    ensures BrakeStep(Brake(x, x, true), x, limit, recover).holding == !(x <= Highest([x]) * (1.0 - limit))
  {
    hide Highest, Lowest;
    ExtremesOfOne(x);
  }

  lemma FlagsAre(a: Series, limit: real, recover: real, i: nat)
    requires i < |a|
    ensures BrakeFlags(a, limit, recover)[i]
        == BrakeStep(BrakeAfter(a, limit, recover, i), a[i], limit, recover).holding
    ensures i > 0 ==> BrakeFlags(a, limit, recover)[i - 1] == BrakeAfter(a, limit, recover, i).holding
    ensures BrakeAfter(a, limit, recover, 0) == Brake(a[0], a[0], true)
  {
    hide BrakeStep;
  }

  lemma BrakeDay(a: Series, limit: real, recover: real, on: seq<bool>, i: nat)
    requires |a| > 0 && on == BrakeFlags(a, limit, recover) && i < |a|
    ensures Brakes(a, limit, recover, on, i)
  {
    hide Highest, Lowest, BrakeFlags, BrakeAfter, BrakeStep, SpellStart;
    var d := Since(on, i);
    FlagsAre(a, limit, recover, i);
    if i == 0 {
      assert a[d..i + 1] == [a[i]];
      BrakeStarts(a[i], limit, recover);
    } else {
      SinceIsSpellStart(a, limit, recover, on, i);
      BrakeFollowsItsSpell(a, limit, recover, i);
      assert a[d..i] + [a[i]] == a[d..i + 1];
      BrakeTurns(BrakeAfter(a, limit, recover, i), a[d..i], a[i], limit, recover);
    }
  }

  /** The drawdown brake holds the basket exactly while its position is in. */
  lemma DrawdownBrakeHolds(h: History, s: Strategy, num: Numerics) returns (on: seq<bool>)
    requires Supplied(h, s) && s.weights != [] && s.overlay.DrawdownBrake?
    ensures var r, o := TargetsFor(h, s, num), s.overlay;
      && r.Targets? && |r.daily| == |on| == h.days
      && (forall i :: 0 <= i < h.days ==> Holds(s, r.daily[i], on[i]))
      && BrakesDaily(h.px[WatchedTicker(o.gate, s)], o.limitPct / 100.0, o.reenterPct / 100.0, on)
  {
    hide BrakeFlags, OffTarget, Brakes;
    var o := s.overlay;
    var a, limit, recover := h.px[WatchedTicker(o.gate, s)], o.limitPct / 100.0, o.reenterPct / 100.0;
    on := BrakeFlags(a, limit, recover);
    OffIsFlat(s);
    forall i | 0 <= i < |a|
      ensures Brakes(a, limit, recover, on, i)
    {
      BrakeDay(a, limit, recover, on, i);
    }
  }

  /** Buy and hold holds the basket every day. */
  lemma BuyHoldHolds(h: History, s: Strategy, num: Numerics, i: nat)
    requires Supplied(h, s) && s.weights != [] && s.overlay.BuyHold? && i < h.days
    ensures var r := TargetsFor(h, s, num); r.Targets? && |r.daily| == h.days && r.daily[i] == s.weights
  {
  }
}
