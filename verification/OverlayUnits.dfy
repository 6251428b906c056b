/** Every overlay and the regime read only ratios and comparisons, so the unit of a price never matters. */
module OverlayUnits {
  import opened Basics
  import opened Indicators
  import opened Simulator
  import opened Overlays
  import opened Regime
  import opened Lookahead
  import opened UnitInvariance
  import opened Backtest

  function InNewUnits(h: History, u: Units): History {
    Aligned(h.days, HistoryInUnits(h.px, u))
  }

  function GrowOption(x: Option<real>, c: Price): Option<real> {
    if x.None? then None else Some(Grow(x.value, c))
  }

  // ---------------------------------------------------------------- arithmetic

  lemma GrowIsMonotone(x: real, y: real, c: Price)
    requires x > y
    ensures Grow(x, c) > Grow(y, c)
  {
  }

  lemma OrderInUnits(x: real, y: real, c: Price)
    ensures Grow(x, c) > Grow(y, c) <==> x > y
    ensures Grow(x, c) >= Grow(y, c) <==> x >= y
    ensures Max(Grow(x, c), Grow(y, c)) == Grow(Max(x, y), c)
    ensures Min(Grow(x, c), Grow(y, c)) == Grow(Min(x, y), c)
  {
    hide Grow;
    if x > y {
      GrowIsMonotone(x, y, c);
    } else if y > x {
      GrowIsMonotone(y, x, c);
    }
  }

  lemma SumInUnits(x: real, y: real, c: Price)
    ensures Grow(x, c) + Grow(y, c) == Grow(x + y, c)
    ensures Grow(x, c) - Grow(y, c) == Grow(x - y, c)
    ensures Grow(0.0, c) == 0.0
  {
  }

  lemma ProductInUnits(x: real, y: real, c: Price)
    ensures Grow(x, c) * y == Grow(x * y, c)
    ensures y != 0.0 ==> Grow(x, c) / y == Grow(x / y, c)
  {
  }

  lemma RatioInUnits(x: real, y: real, c: Price)
    requires y != 0.0
    ensures Grow(y, c) != 0.0 && Grow(x, c) / Grow(y, c) == x / y
  {
  }

  lemma AboveInUnits(x: Price, line: Option<real>, factor: real, c: Price)
    ensures Above(Scaled(x, c), GrowOption(line, c), factor) == Above(x, line, factor)
  {
  }

  // ---------------------------------------------------------------- indicators

  lemma {:induction false} CumInUnits(a: Series, c: Price, j: nat)
    requires j <= |a|
    ensures Cum(ScaleSeries(a, c), j) == Grow(Cum(a, j), c)
  {
    hide Grow, Scaled;
    if j > 0 {
      CumInUnits(a, c, j - 1);
      SumInUnits(Cum(a, j - 1), a[j - 1], c);
    } else {
      SumInUnits(0.0, 0.0, c);
    }
  }

  lemma SmaInUnits(a: Series, c: Price, n: int, i: nat)
    requires i < |a|
    ensures Sma(ScaleSeries(a, c), n)[i] == GrowOption(Sma(a, n)[i], c)
  {
    hide Grow, Scaled, Cum;
    if n > 0 && i >= n - 1 {
      CumInUnits(a, c, i + 1);
      CumInUnits(a, c, i + 1 - n);
      SumInUnits(Cum(a, i + 1), Cum(a, i + 1 - n), c);
      ProductInUnits(Cum(a, i + 1) - Cum(a, i + 1 - n), n as real, c);
    }
  }

  lemma AboveLineInUnits(a: Series, c: Price, n: int, factor: real)
    ensures AboveLine(ScaleSeries(a, c), n, factor) == AboveLine(a, n, factor)
  {
    hide Above, Sma, Grow, Scaled;
    forall i | 0 <= i < |a|
      ensures AboveLine(ScaleSeries(a, c), n, factor)[i] == AboveLine(a, n, factor)[i]
    {
      SmaInUnits(a, c, n, i);
      AboveInUnits(a[i], Sma(a, n)[i], factor, c);
    }
  }

  lemma CrossFlagsInUnits(a: Series, c: Price, fast: int, slow: int, longDays: Option<int>)
    ensures CrossFlags(ScaleSeries(a, c), fast, slow, longDays) == CrossFlags(a, fast, slow, longDays)
  {
    hide Sma, Grow, Scaled, AboveLine;
    if longDays.Some? {
      AboveLineInUnits(a, c, longDays.value, 1.0);
    }
    forall i | 0 <= i < |a|
      ensures CrossFlags(ScaleSeries(a, c), fast, slow, longDays)[i] == CrossFlags(a, fast, slow, longDays)[i]
    {
      SmaInUnits(a, c, fast, i);
      SmaInUnits(a, c, slow, i);
      if Sma(a, fast)[i].Some? && Sma(a, slow)[i].Some? {
        OrderInUnits(Sma(a, fast)[i].value, Sma(a, slow)[i].value, c);
      }
    }
  }

  lemma {:induction false} ExtremesInUnits(a: Series, c: Price)
    requires a != []
    ensures Highest(ScaleSeries(a, c)) == Grow(Highest(a), c) && Lowest(ScaleSeries(a, c)) == Grow(Lowest(a), c)
  {
    hide Grow, Scaled, Max, Min;
    if |a| > 1 {
      assert ScaleSeries(a, c)[1..] == ScaleSeries(a[1..], c);
      ExtremesInUnits(a[1..], c);
      OrderInUnits(a[0], Highest(a[1..]), c);
      OrderInUnits(a[0], Lowest(a[1..]), c);
    }
  }

  lemma RollingInUnits(a: Series, c: Price, n: Window, i: nat)
    requires i < |a|
    ensures RollingMax(ScaleSeries(a, c), n)[i] == GrowOption(RollingMax(a, n)[i], c)
    ensures RollingMin(ScaleSeries(a, c), n)[i] == GrowOption(RollingMin(a, n)[i], c)
  {
    hide Grow, Scaled, Highest, Lowest;
    if i >= n - 1 {
      var w := a[i + 1 - n..i + 1];
      assert ScaleSeries(a, c)[i + 1 - n..i + 1] == ScaleSeries(w, c);
      ExtremesInUnits(w, c);
    }
  }

  lemma {:induction false} ChannelInUnits(a: Series, c: Price, entry: Window, exit: Window, i: nat)
    requires i <= |a|
    ensures ChannelHolding(ScaleSeries(a, c), entry, exit, i) == ChannelHolding(a, entry, exit, i)
  {
    hide RollingMax, RollingMin, Grow, Scaled;
    if i > 0 {
      ChannelInUnits(a, c, entry, exit, i - 1);
      RollingInUnits(a, c, entry, i - 1);
      RollingInUnits(a, c, exit, i - 1);
      var hi, lo := RollingMax(a, entry)[i - 1], RollingMin(a, exit)[i - 1];
      if hi.Some? && lo.Some? {
        OrderInUnits(a[i - 1], hi.value, c);
        OrderInUnits(lo.value, a[i - 1], c);
      }
    }
  }

  lemma ChannelFlagsInUnits(a: Series, c: Price, entry: Window, exit: Window)
    ensures ChannelFlags(ScaleSeries(a, c), entry, exit) == ChannelFlags(a, entry, exit)
  {
    hide RollingMax, RollingMin, ChannelHolding, Grow, Scaled;
    forall i | 0 <= i < |a|
      ensures ChannelFlags(ScaleSeries(a, c), entry, exit)[i] == ChannelFlags(a, entry, exit)[i]
    {
      RollingInUnits(a, c, entry, i);
      RollingInUnits(a, c, exit, i);
      ChannelInUnits(a, c, entry, exit, i + 1);
    }
  }

  // ---------------------------------------------------------------- relative strength

  lemma MoveInUnits(x: real, y: real, c: Price)
    ensures Max(Grow(x, c) - Grow(y, c), 0.0) == Grow(Max(x - y, 0.0), c)
  {
  }

  lemma {:induction false} MovesInUnits(a: Series, c: Price, n: nat)
    requires n < |a|
    ensures RiseTotal(ScaleSeries(a, c), n) == Grow(RiseTotal(a, n), c)
    ensures FallTotal(ScaleSeries(a, c), n) == Grow(FallTotal(a, n), c)
  {
    hide Max, Grow, Scaled;
    if n > 0 {
      MovesInUnits(a, c, n - 1);
      MoveInUnits(a[n], a[n - 1], c);
      MoveInUnits(a[n - 1], a[n], c);
      SumInUnits(RiseTotal(a, n - 1), Rise(a, n - 1), c);
      SumInUnits(FallTotal(a, n - 1), Fall(a, n - 1), c);
    } else {
      SumInUnits(0.0, 0.0, c);
    }
  }

  lemma SmoothInUnits(average: real, n: Window, latest: real, c: Price)
    ensures Smooth(Grow(average, c), n, Grow(latest, c)) == Grow(Smooth(average, n, latest), c)
  {
  }

  lemma {:induction false} WilderInUnits(a: Series, c: Price, n: Window, i: nat)
    requires n <= i < |a|
    ensures var w := Wilder(a, n, i); Wilder(ScaleSeries(a, c), n, i) == Averages(Grow(w.gain, c), Grow(w.loss, c))
  {
    hide Smooth, Max, RiseTotal, FallTotal, Grow, Scaled;
    if i == n {
      MovesInUnits(a, c, n);
      ProductInUnits(RiseTotal(a, n), n as real, c);
      ProductInUnits(FallTotal(a, n), n as real, c);
    } else {
      WilderInUnits(a, c, n, i - 1);
      var w := Wilder(a, n, i - 1);
      MoveInUnits(a[i], a[i - 1], c);
      MoveInUnits(a[i - 1], a[i], c);
      SmoothInUnits(w.gain, n, Rise(a, i - 1), c);
      SmoothInUnits(w.loss, n, Fall(a, i - 1), c);
    }
  }

  lemma StrengthInUnits(w: Averages, c: Price)
    requires w.gain >= 0.0 && w.loss >= 0.0
    ensures Grow(w.gain, c) >= 0.0 && Grow(w.loss, c) >= 0.0
    ensures Strength(Averages(Grow(w.gain, c), Grow(w.loss, c))) == Strength(w)
  {
  }

  lemma RsiInUnits(a: Series, c: Price, n: int)
    ensures Rsi(ScaleSeries(a, c), n) == Rsi(a, n)
  {
    hide Strength, Grow, Scaled, Wilder;
    forall i | 0 <= i < |a|
      ensures Rsi(ScaleSeries(a, c), n)[i] == Rsi(a, n)[i]
    {
      if 0 < n <= i {
        WilderInUnits(a, c, n, i);
        StrengthInUnits(Wilder(a, n, i), c);
      }
    }
  }

  lemma {:induction false} PullbackInUnits(gate: Series, sig: Series, c: Price, d: Price, ma: int, rsiDays: int,
                                           exitMa: int, entry: real, i: nat)
    requires |gate| == |sig| && i <= |sig|
    ensures PullbackHolding(ScaleSeries(gate, c), ScaleSeries(sig, d), ma, rsiDays, exitMa, entry, i)
         == PullbackHolding(gate, sig, ma, rsiDays, exitMa, entry, i)
  {
    hide AboveLine, Sma, Rsi, Above, Grow, Scaled;
    if i > 0 {
      PullbackInUnits(gate, sig, c, d, ma, rsiDays, exitMa, entry, i - 1);
      AboveLineInUnits(gate, c, ma, 1.0);
      RsiInUnits(sig, d, rsiDays);
      SmaInUnits(sig, d, exitMa, i - 1);
      AboveInUnits(sig[i - 1], Sma(sig, exitMa)[i - 1], 1.0, d);
    }
  }

  lemma PullbackFlagsInUnits(gate: Series, sig: Series, c: Price, d: Price, ma: int, rsiDays: int, exitMa: int,
                             entry: real)
    requires |gate| == |sig|
    ensures PullbackFlags(ScaleSeries(gate, c), ScaleSeries(sig, d), ma, rsiDays, exitMa, entry)
         == PullbackFlags(gate, sig, ma, rsiDays, exitMa, entry)
  {
    hide PullbackHolding;
    forall i | 0 <= i < |sig|
      ensures PullbackFlags(ScaleSeries(gate, c), ScaleSeries(sig, d), ma, rsiDays, exitMa, entry)[i]
           == PullbackFlags(gate, sig, ma, rsiDays, exitMa, entry)[i]
    {
      PullbackInUnits(gate, sig, c, d, ma, rsiDays, exitMa, entry, i + 1);
    }
  }

  // ---------------------------------------------------------------- the brake

  function BrakeInUnits(b: Brake, c: Price): Brake {
    Brake(Grow(b.peak, c), Grow(b.trough, c), b.holding)
  }

  lemma BrakeStepInUnits(b: Brake, x: Price, limit: real, recover: real, c: Price)
    ensures BrakeStep(BrakeInUnits(b, c), Scaled(x, c), limit, recover)
        == BrakeInUnits(BrakeStep(b, x, limit, recover), c)
  {
    hide Stopped, Recovered, Grow, Scaled, Max, Min;
    OrderInUnits(b.peak, x, c);
    OrderInUnits(b.trough, x, c);
    StopsInUnits(x, Max(b.peak, x), limit, c);
    RecoversInUnits(x, Min(b.trough, x), recover, c);
  }

  lemma StopsInUnits(x: Price, peak: real, limit: real, c: Price)
    ensures Stopped(Scaled(x, c), Grow(peak, c), limit) == Stopped(x, peak, limit)
  {
  }

  lemma RecoversInUnits(x: Price, trough: real, recover: real, c: Price)
    ensures Recovered(Scaled(x, c), Grow(trough, c), recover) == Recovered(x, trough, recover)
  {
  }

  lemma {:induction false} BrakeAfterInUnits(a: Series, c: Price, limit: real, recover: real, i: nat)
    requires |a| > 0 && i <= |a|
    ensures BrakeAfter(ScaleSeries(a, c), limit, recover, i) == BrakeInUnits(BrakeAfter(a, limit, recover, i), c)
  {
    hide BrakeStep, Grow, Scaled;
    if i > 0 {
      BrakeAfterInUnits(a, c, limit, recover, i - 1);
      BrakeStepInUnits(BrakeAfter(a, limit, recover, i - 1), a[i - 1], limit, recover, c);
    }
  }

  lemma BrakeFlagsInUnits(a: Series, c: Price, limit: real, recover: real)
    requires |a| > 0
    ensures BrakeFlags(ScaleSeries(a, c), limit, recover) == BrakeFlags(a, limit, recover)
  {
    hide BrakeAfter;
    forall i | 0 <= i < |a|
      ensures BrakeFlags(ScaleSeries(a, c), limit, recover)[i] == BrakeFlags(a, limit, recover)[i]
    {
      BrakeAfterInUnits(a, c, limit, recover, i + 1);
    }
  }

  // ---------------------------------------------------------------- weight rules

  lemma {:induction false} ReturnsInUnits(h: History, u: Units, universe: seq<Ticker>, look: nat, i: nat)
    requires look <= i < h.days
    ensures ReturnsOn(InNewUnits(h, u), universe, look, i) == ReturnsOn(h, universe, look, i)
  {
    hide Grow, Scaled;
    if universe != [] {
      ReturnsInUnits(h, u, universe[1..], look, i);
      if universe[0] in h.px {
        var a := h.px[universe[0]];
        RatioInUnits(a[i], a[i - look], u(universe[0]));
      }
    }
  }

  lemma {:induction false} SectorInUnits(h: History, u: Units, look: nat, topN: nat, universe: seq<Ticker>,
                                         base: Target, hold: Window, i: nat)
    requires i < h.days
    ensures SectorHolding(InNewUnits(h, u), look, topN, universe, base, hold, i)
         == SectorHolding(h, look, topN, universe, base, hold, i)
  {
    hide SectorTarget, Scaled;
    if i >= look && i % hold == 0 {
      ReturnsInUnits(h, u, universe, look, i);
    } else if i > 0 {
      SectorInUnits(h, u, look, topN, universe, base, hold, i - 1);
    }
  }

  lemma WindowReturnsInUnits(a: Series, c: Price, look: nat, i: nat)
    requires look <= i < |a|
    ensures WindowReturns(ScaleSeries(a, c), look, i) == WindowReturns(a, look, i)
  {
    hide Grow, Scaled;
    forall j | 0 <= j < look
      ensures WindowReturns(ScaleSeries(a, c), look, i)[j] == WindowReturns(a, look, i)[j]
    {
      var x, y := a[i - look + j + 1] as real, a[i - look + j] as real;
      SumInUnits(x, y, c);
      RatioInUnits(x - y, y, c);
    }
  }

  lemma {:induction false} VolHeldInUnits(a: Series, c: Price, look: nat, target: real, cap: real, floor: real,
                                          band: real, num: Numerics, i: nat)
    requires i <= |a|
    ensures VolHeld(ScaleSeries(a, c), look, target, cap, floor, band, num, i)
         == VolHeld(a, look, target, cap, floor, band, num, i)
  {
    hide RawWeight, Scaled;
    if i > 0 && i - 1 >= look {
      VolHeldInUnits(a, c, look, target, cap, floor, band, num, i - 1);
      WindowReturnsInUnits(a, c, look, i - 1);
    }
  }

  // ---------------------------------------------------------------- overlays and the gate

  lemma SeriesInUnits(h: History, u: Units)
    ensures HistoryInUnits(h.px, u).Keys == h.px.Keys
    ensures forall tk :: tk in h.px ==> HistoryInUnits(h.px, u)[tk] == ScaleSeries(h.px[tk], u(tk))
  {
  }

  lemma LiveDaysInUnits(h: History, u: Units, s: Strategy)
    requires Supplied(h, s) && s.weights != []
    ensures Supplied(InNewUnits(h, u), s) && LiveDays(InNewUnits(h, u), s) == LiveDays(h, s)
  {
    hide AboveLine, CrossFlags, ChannelFlags, Confirm, PullbackFlags, BrakeFlags, Scaled, Grow, ScaleSeries,
         HistoryInUnits;
    SeriesInUnits(h, u);
    match s.overlay
    case TrendFilter(gate, ma, band, confirm) =>
      AboveLineInUnits(h.px[gate], u(gate), ma, 1.0 + band / 100.0);
    case MaCross(gate, fast, slow, longDays, confirm) =>
      var g := WatchedTicker(gate, s);
      CrossFlagsInUnits(h.px[g], u(g), fast, slow, longDays);
    case Donchian(gate, entry, exit) =>
      var g := WatchedTicker(gate, s);
      ChannelFlagsInUnits(h.px[g], u(g), entry, exit);
    case RsiPullback(gate, signal, ma, rsiDays, exitMa, entry) =>
      var g := WatchedTicker(gate, s);
      var d := if signal.Some? then signal.value else g;
      PullbackFlagsInUnits(h.px[g], h.px[d], u(g), u(d), ma, rsiDays, exitMa, entry);
    case DrawdownBrake(gate, limit, reenter) =>
      var g := WatchedTicker(gate, s);
      BrakeFlagsInUnits(h.px[g], u(g), limit / 100.0, reenter / 100.0);
    case _ =>
  }

  lemma DualMomentumInUnits(h: History, u: Units, look: nat, universe: seq<Ticker>, safe: Option<Ticker>)
    ensures DualMomentumDays(InNewUnits(h, u), look, universe, safe) == DualMomentumDays(h, look, universe, safe)
  {
    hide ReturnsOn, DualTarget, HistoryInUnits;
    forall i | 0 <= i < h.days
      ensures DualMomentumDays(InNewUnits(h, u), look, universe, safe)[i]
          == DualMomentumDays(h, look, universe, safe)[i]
    {
      if i >= look {
        ReturnsInUnits(h, u, universe, look, i);
      }
    }
  }

  lemma SectorDaysInUnits(h: History, u: Units, look: nat, topN: nat, universe: seq<Ticker>, base: Target, hold: Window)
    ensures SectorDays(InNewUnits(h, u), look, topN, universe, base, hold)
        == SectorDays(h, look, topN, universe, base, hold)
  {
    hide SectorHolding, HistoryInUnits;
    forall i | 0 <= i < h.days
      ensures SectorDays(InNewUnits(h, u), look, topN, universe, base, hold)[i]
           == SectorDays(h, look, topN, universe, base, hold)[i]
    {
      SectorInUnits(h, u, look, topN, universe, base, hold, i);
    }
  }

  lemma VolDaysInUnits(a: Series, c: Price, tk: Ticker, look: nat, target: real, cap: real, floor: real, band: real,
                       base: Target, num: Numerics)
    ensures VolDays(ScaleSeries(a, c), tk, look, target, cap, floor, band, base, num)
         == VolDays(a, tk, look, target, cap, floor, band, base, num)
  {
    hide VolHeld, VolTargetOf;
    forall i | 0 <= i < |a|
      ensures VolDays(ScaleSeries(a, c), tk, look, target, cap, floor, band, base, num)[i]
           == VolDays(a, tk, look, target, cap, floor, band, base, num)[i]
    {
      VolHeldInUnits(a, c, look, target, cap, floor, band, num, i + 1);
    }
  }

  lemma TargetsInUnits(h: History, u: Units, s: Strategy, num: Numerics)
    requires Supplied(h, s)
    ensures Supplied(InNewUnits(h, u), s) && TargetsFor(InNewUnits(h, u), s, num) == TargetsFor(h, s, num)
  {
    hide LiveDays, VolDays, SectorDays, DualMomentumDays, ScaleSeries, HistoryInUnits;
    SeriesInUnits(h, u);
    if s.weights != [] || s.overlay.DualMomentum? {
      match s.overlay
      case BuyHold =>
      case DualMomentum(look, universe, safe) =>
        DualMomentumInUnits(h, u, look, if universe != [] then universe else Names(s.weights),
                            if safe.Some? then safe else s.riskOff);
      case SectorMomentum(look, topN, universe, safe, hold) =>
        SectorDaysInUnits(h, u, look, topN, universe,
                          if s.base != [] then s.base else OnlyHolding(if safe.Some? then safe else s.riskOff), hold);
      case VolTarget(gate, look, target, cap, floor, band) =>
        var w := WatchedTicker(gate, s);
        VolDaysInUnits(h.px[w], u(w), s.weights[0].ticker, look, target, cap, floor, band, OffTarget(s), num);
      case Unsupported =>
      case _ => LiveDaysInUnits(h, u, s);
    }
  }

  lemma VolatilityInUnits(a: Series, c: Price, spread: Spread)
    ensures Volatility(ScaleSeries(a, c), spread) == Volatility(a, spread)
  {
    hide Grow, Scaled, Growth;
    forall i | 0 <= i < |a|
      ensures Volatility(ScaleSeries(a, c), spread)[i] == Volatility(a, spread)[i]
    {
      if i >= VOL_DAYS {
        GrowthInUnits(a, c, i);
      }
    }
  }

  lemma GrowthInUnits(a: Series, c: Price, i: nat)
    requires VOL_DAYS <= i < |a|
    ensures Growth(ScaleSeries(a, c), i) == Growth(a, i)
  {
    hide Grow, Scaled;
    forall j | 0 <= j < VOL_DAYS
      ensures Growth(ScaleSeries(a, c), i)[j] == Growth(a, i)[j]
    {
      RatioInUnits(a[i - VOL_DAYS + j + 1], a[i - VOL_DAYS + j], c);
    }
  }

  lemma {:induction false} BreadthInUnits(h: History, u: Units, members: seq<Ticker>, i: nat)
    requires i < h.days
    ensures Breadth(InNewUnits(h, u), members, i) == Breadth(h, members, i)
  {
    hide AboveLine, Sma, Scaled;
    if members != [] {
      BreadthInUnits(h, u, members[1..], i);
      if members[0] in h.px {
        SmaInUnits(h.px[members[0]], u(members[0]), MA_DAYS, i);
        AboveLineInUnits(h.px[members[0]], u(members[0]), MA_DAYS, 1.0);
      }
    }
  }

  /** The regime's state, score and components are the same in every unit. */
  lemma ReadingInUnits(h: History, u: Units, spread: Spread, i: nat)
    requires PRIMARY in h.px && i < h.days
    ensures ReadingOn(InNewUnits(h, u), spread, i) == ReadingOn(h, spread, i)
  {
    hide AboveLine, Sma, Percentiles, Volatility, Breadth, ScoreOf, MoodOf, Scaled;
    var a := h.px[PRIMARY];
    SmaInUnits(a, u(PRIMARY), MA_DAYS, i);
    AboveLineInUnits(a, u(PRIMARY), MA_DAYS, 1.0);
    VolatilityInUnits(a, u(PRIMARY), spread);
    BreadthInUnits(h, u, BREADTH_SET, i);
  }

  lemma PlanInUnits(h: History, u: Units, s: Strategy, num: Numerics, spread: Spread, gated: bool)
    requires Supplied(h, s)
    ensures Supplied(InNewUnits(h, u), s) &&
        Plan(InNewUnits(h, u), s, num, spread, gated) == Plan(h, s, num, spread, gated)
  {
    hide TargetsFor, ReadingOn, Scaled;
    TargetsInUnits(h, u, s, num);
    if PRIMARY in h.px {
      forall i | 0 <= i < h.days
        ensures Gate(InNewUnits(h, u), spread)[i] == Gate(h, spread)[i]
      {
        ReadingInUnits(h, u, spread, i);
      }
      assert Gate(InNewUnits(h, u), spread) == Gate(h, spread);
    }
  }

  /** Rescaling every close of any tickers, each by its own positive factor, changes no target, no daily
      value, no tax, no trade count and no round-trip result of a backtest. */
  lemma BacktestInUnits(h: History, u: Units, s: Strategy, num: Numerics, spread: Spread, gated: bool, t: Terms)
    requires Ready(h, s, gated)
    ensures Supplied(h, s) && Supplied(InNewUnits(h, u), s)
    ensures var g, p := InNewUnits(h, u), Plan(h, s, num, spread, gated);
      && Plan(g, s, num, spread, gated) == p
      && (p.Targets? ==>
            && |p.daily| == h.days && Covers(h.px, p.daily) && Covers(g.px, p.daily)
            && (forall n: nat :: n <= h.days ==>
                After(g.px, p.daily, t, n) == StateInUnits(After(h.px, p.daily, t, n), u))
            && forall day: nat :: day < h.days ==> ValueOn(g.px, p.daily, t, day) == ValueOn(h.px, p.daily, t, day))
  {
    hide Plan, Covers, After, ValueOn, HistoryInUnits, StateInUnits;
    ReadyIsSupplied(h, s, gated);
    PlanInUnits(h, u, s, num, spread, gated);
    PlanIsCovered(h, s, num, spread, gated);
    var p := Plan(h, s, num, spread, gated);
    if p.Targets? {
      CoversInUnits(h.px, p.daily, u);
      forall n: nat | n <= h.days
        ensures After(HistoryInUnits(h.px, u), p.daily, t, n) == StateInUnits(After(h.px, p.daily, t, n), u)
      {
        RunInUnits(h.px, p.daily, t, n, u);
      }
      forall day: nat | day < h.days
        ensures ValueOn(HistoryInUnits(h.px, u), p.daily, t, day) == ValueOn(h.px, p.daily, t, day)
      {
        ValuesInUnits(h.px, p.daily, t, day, u);
      }
    }
  }
}
