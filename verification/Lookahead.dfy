/** No overlay looks ahead: cutting a history short cuts its targets short and changes nothing else. */
module Lookahead {
  import opened Basics
  import opened Indicators
  import opened Simulator
  import opened Overlays
  import opened Regime
  import opened Causality

  /** The first k days of a history. */
  function Cut(h: History, k: nat): History
    requires k <= h.days
  {
    Aligned(k, map tk | tk in h.px :: h.px[tk][..k])
  }

  function CutOutcome(r: Outcome, k: nat): Outcome
    requires r.Targets? ==> k <= |r.daily|
  {
    match r
    case Targets(daily) => Targets(daily[..k])
    case Abstain(reason) => r
  }

  // ---------------------------------------------------------------- indicators

  lemma {:induction false} CumCut(a: Series, k: nat, j: nat)
    requires j <= k <= |a|
    ensures Cum(a[..k], j) == Cum(a, j)
  {
    if j > 0 {
      CumCut(a, k, j - 1);
    }
  }

  lemma SmaCut(a: Series, k: nat, n: int)
    requires k <= |a|
    ensures Sma(a[..k], n) == Sma(a, n)[..k]
  {
    hide Cum;
    forall i | 0 <= i < k
      ensures Sma(a[..k], n)[i] == Sma(a, n)[i]
    {
      if n > 0 && i >= n - 1 {
        CumCut(a, k, i + 1);
        CumCut(a, k, i + 1 - n);
      }
    }
  }

  lemma SliceOfCut(a: Series, k: nat, lo: nat, hi: nat)
    requires lo <= hi <= k <= |a|
    ensures a[..k][lo..hi] == a[lo..hi]
  {
  }

  lemma RollingCutAt(a: Series, k: nat, n: Window, i: nat)
    requires i < k <= |a|
    ensures RollingMax(a[..k], n)[i] == RollingMax(a, n)[i] && RollingMin(a[..k], n)[i] == RollingMin(a, n)[i]
  {
    hide Highest, Lowest;
    if i >= n - 1 {
      SliceOfCut(a, k, i + 1 - n, i + 1);
    }
  }

  lemma {:induction false} MovesCut(a: Series, k: nat, n: nat)
    requires n < k <= |a|
    ensures RiseTotal(a[..k], n) == RiseTotal(a, n) && FallTotal(a[..k], n) == FallTotal(a, n)
  {
    if n > 0 {
      MovesCut(a, k, n - 1);
    }
  }

  lemma {:induction false} WilderCut(a: Series, k: nat, n: Window, i: nat)
    requires n <= i < k <= |a|
    ensures Wilder(a[..k], n, i) == Wilder(a, n, i)
  {
    if i == n {
      MovesCut(a, k, n);
    } else {
      WilderCut(a, k, n, i - 1);
    }
  }

  lemma RsiCut(a: Series, k: nat, n: int)
    requires k <= |a|
    ensures Rsi(a[..k], n) == Rsi(a, n)[..k]
  {
    forall i | 0 <= i < k && 0 < n <= i
      ensures Wilder(a[..k], n, i) == Wilder(a, n, i)
    {
      WilderCut(a, k, n, i);
    }
  }

  lemma {:induction false} RunLengthCut(flag: seq<bool>, k: nat, i: nat)
    requires i <= k <= |flag|
    ensures RunLength(flag[..k], i) == RunLength(flag, i)
  {
    if i > 0 {
      RunLengthCut(flag, k, i - 1);
    }
  }

  lemma ConfirmCut(flag: seq<bool>, k: nat, days: int)
    requires k <= |flag|
    ensures Confirm(flag[..k], days) == Confirm(flag, days)[..k]
  {
    forall i | 0 <= i < k
      ensures Confirm(flag[..k], days)[i] == Confirm(flag, days)[i]
    {
      RunLengthCut(flag, k, i + 1);
    }
  }

  lemma AboveLineCut(a: Series, k: nat, n: int, factor: real)
    requires k <= |a|
    ensures AboveLine(a[..k], n, factor) == AboveLine(a, n, factor)[..k]
  {
    SmaCut(a, k, n);
    forall i | 0 <= i < k
      ensures AboveLine(a[..k], n, factor)[i] == AboveLine(a, n, factor)[i]
    {
      assert Sma(a, n)[..k][i] == Sma(a, n)[i];
    }
  }

  // ---------------------------------------------------------------- on/off rules

  lemma CrossFlagsCut(a: Series, k: nat, fast: int, slow: int, longDays: Option<int>)
    requires k <= |a|
    ensures CrossFlags(a[..k], fast, slow, longDays) == CrossFlags(a, fast, slow, longDays)[..k]
  {
    SmaCut(a, k, fast);
    SmaCut(a, k, slow);
    if longDays.Some? {
      AboveLineCut(a, k, longDays.value, 1.0);
    }
    forall i | 0 <= i < k
      ensures CrossFlags(a[..k], fast, slow, longDays)[i] == CrossFlags(a, fast, slow, longDays)[i]
    {
      assert Sma(a, fast)[..k][i] == Sma(a, fast)[i] && Sma(a, slow)[..k][i] == Sma(a, slow)[i];
      if longDays.Some? {
        assert AboveLine(a, longDays.value, 1.0)[..k][i] == AboveLine(a, longDays.value, 1.0)[i];
      }
    }
  }

  lemma {:induction false} ChannelHoldingCut(a: Series, entry: Window, exit: Window, k: nat, i: nat)
    requires i <= k <= |a|
    ensures ChannelHolding(a[..k], entry, exit, i) == ChannelHolding(a, entry, exit, i)
  {
    hide RollingMax, RollingMin;
    if i > 0 {
      ChannelHoldingCut(a, entry, exit, k, i - 1);
      RollingCutAt(a, k, entry, i - 1);
      RollingCutAt(a, k, exit, i - 1);
      assert a[..k][i - 1] == a[i - 1];
    }
  }

  lemma ChannelFlagsCut(a: Series, entry: Window, exit: Window, k: nat)
    requires k <= |a|
    ensures ChannelFlags(a[..k], entry, exit) == ChannelFlags(a, entry, exit)[..k]
  {
    hide RollingMax, RollingMin, ChannelHolding;
    forall i | 0 <= i < k
      ensures ChannelFlags(a[..k], entry, exit)[i] == ChannelFlags(a, entry, exit)[i]
    {
      ChannelHoldingCut(a, entry, exit, k, i + 1);
      RollingCutAt(a, k, entry, i);
      RollingCutAt(a, k, exit, i);
    }
  }

  lemma {:induction false} PullbackHoldingCut(gate: Series, sig: Series, ma: int, rsiDays: int, exitMa: int,
                                              entry: real, k: nat, i: nat)
    requires |gate| == |sig| && i <= k <= |sig|
    ensures PullbackHolding(gate[..k], sig[..k], ma, rsiDays, exitMa, entry, i)
         == PullbackHolding(gate, sig, ma, rsiDays, exitMa, entry, i)
  {
    hide AboveLine, Rsi, Sma, Above;
    if i > 0 {
      PullbackHoldingCut(gate, sig, ma, rsiDays, exitMa, entry, k, i - 1);
      AboveLineCut(gate, k, ma, 1.0);
      RsiCut(sig, k, rsiDays);
      SmaCut(sig, k, exitMa);
      assert AboveLine(gate, ma, 1.0)[..k][i - 1] == AboveLine(gate, ma, 1.0)[i - 1];
      assert Rsi(sig, rsiDays)[..k][i - 1] == Rsi(sig, rsiDays)[i - 1];
      assert Sma(sig, exitMa)[..k][i - 1] == Sma(sig, exitMa)[i - 1];
    }
  }

  lemma {:induction false} BrakeCut(a: Series, limit: real, recover: real, k: nat, i: nat)
    requires i <= k <= |a| && 0 < k
    ensures BrakeAfter(a[..k], limit, recover, i) == BrakeAfter(a, limit, recover, i)
  {
    hide BrakeStep;
    if i > 0 {
      BrakeCut(a, limit, recover, k, i - 1);
    }
  }

  lemma PullbackFlagsCut(gate: Series, sig: Series, ma: int, rsiDays: int, exitMa: int, entry: real, k: nat)
    requires |gate| == |sig| && k <= |sig|
    ensures PullbackFlags(gate[..k], sig[..k], ma, rsiDays, exitMa, entry)
         == PullbackFlags(gate, sig, ma, rsiDays, exitMa, entry)[..k]
  {
    forall i | 0 <= i < k
      ensures PullbackFlags(gate[..k], sig[..k], ma, rsiDays, exitMa, entry)[i]
           == PullbackFlags(gate, sig, ma, rsiDays, exitMa, entry)[i]
    {
      PullbackHoldingCut(gate, sig, ma, rsiDays, exitMa, entry, k, i + 1);
    }
  }

  lemma BrakeFlagsCut(a: Series, limit: real, recover: real, k: nat)
    requires 0 < k <= |a|
    ensures BrakeFlags(a[..k], limit, recover) == BrakeFlags(a, limit, recover)[..k]
  {
    forall i | 0 <= i < k
      ensures BrakeFlags(a[..k], limit, recover)[i] == BrakeFlags(a, limit, recover)[i]
    {
      BrakeCut(a, limit, recover, k, i + 1);
    }
  }

  lemma LiveDaysCut(h: History, s: Strategy, k: nat)
    requires Supplied(h, s) && s.weights != [] && 0 < k <= h.days
    ensures Supplied(Cut(h, k), s) && LiveDays(Cut(h, k), s) == LiveDays(h, s)[..k]
  {
    hide Confirm, AboveLine, CrossFlags, ChannelFlags, PullbackFlags, BrakeFlags;
    match s.overlay
    case TrendFilter(gate, ma, band, confirm) =>
      AboveLineCut(h.px[gate], k, ma, 1.0 + band / 100.0);
      ConfirmCut(AboveLine(h.px[gate], ma, 1.0 + band / 100.0), k, confirm);
    case MaCross(gate, fast, slow, longDays, confirm) =>
      var a := h.px[WatchedTicker(gate, s)];
      CrossFlagsCut(a, k, fast, slow, longDays);
      ConfirmCut(CrossFlags(a, fast, slow, longDays), k, confirm);
    case Donchian(gate, entry, exit) =>
      ChannelFlagsCut(h.px[WatchedTicker(gate, s)], entry, exit, k);
    case RsiPullback(gate, signal, ma, rsiDays, exitMa, entry) =>
      var g := WatchedTicker(gate, s);
      PullbackFlagsCut(h.px[g], h.px[if signal.Some? then signal.value else g], ma, rsiDays, exitMa, entry, k);
    case DrawdownBrake(gate, limit, reenter) =>
      BrakeFlagsCut(h.px[WatchedTicker(gate, s)], limit / 100.0, reenter / 100.0, k);
    case _ =>
  }

  // ---------------------------------------------------------------- weight rules

  lemma {:induction false} ReturnsCut(h: History, universe: seq<Ticker>, look: nat, k: nat, i: nat)
    requires look <= i < k <= h.days
    ensures ReturnsOn(Cut(h, k), universe, look, i) == ReturnsOn(h, universe, look, i)
  {
    if universe != [] {
      ReturnsCut(h, universe[1..], look, k, i);
    }
  }

  lemma DualMomentumCut(h: History, look: nat, universe: seq<Ticker>, safe: Option<Ticker>, k: nat)
    requires k <= h.days
    ensures DualMomentumDays(Cut(h, k), look, universe, safe) == DualMomentumDays(h, look, universe, safe)[..k]
  {
    forall i | look <= i < k
      ensures ReturnsOn(Cut(h, k), universe, look, i) == ReturnsOn(h, universe, look, i)
    {
      ReturnsCut(h, universe, look, k, i);
    }
  }

  lemma {:induction false} SectorHoldingCut(h: History, look: nat, topN: nat, universe: seq<Ticker>, base: Target,
                                            hold: Window, k: nat, i: nat)
    requires i < k <= h.days
    ensures SectorHolding(Cut(h, k), look, topN, universe, base, hold, i)
        == SectorHolding(h, look, topN, universe, base, hold, i)
  {
    hide SectorTarget;
    if i >= look && i % hold == 0 {
      ReturnsCut(h, universe, look, k, i);
    } else if i > 0 {
      SectorHoldingCut(h, look, topN, universe, base, hold, k, i - 1);
    }
  }

  lemma {:induction false} VolHeldCut(a: Series, look: nat, target: real, cap: real, floor: real, band: real,
                                      num: Numerics, k: nat, i: nat)
    requires i <= k <= |a|
    ensures VolHeld(a[..k], look, target, cap, floor, band, num, i)
        == VolHeld(a, look, target, cap, floor, band, num, i)
  {
    hide RawWeight;
    if i > 0 && i - 1 >= look {
      VolHeldCut(a, look, target, cap, floor, band, num, k, i - 1);
      assert WindowReturns(a[..k], look, i - 1) == WindowReturns(a, look, i - 1);
    }
  }

  lemma VolDaysCut(a: Series, tk: Ticker, look: nat, target: real, cap: real, floor: real, band: real, base: Target,
                   num: Numerics, k: nat)
    requires k <= |a|
    ensures VolDays(a[..k], tk, look, target, cap, floor, band, base, num)
         == VolDays(a, tk, look, target, cap, floor, band, base, num)[..k]
  {
    hide VolHeld, VolTargetOf;
    forall i | 0 <= i < k
      ensures VolDays(a[..k], tk, look, target, cap, floor, band, base, num)[i]
           == VolDays(a, tk, look, target, cap, floor, band, base, num)[i]
    {
      VolHeldCut(a, look, target, cap, floor, band, num, k, i + 1);
    }
  }

  /** Every overlay, on a history cut short, gives its targets cut short. */
  lemma TargetsCut(h: History, s: Strategy, num: Numerics, k: nat)
    requires Supplied(h, s) && 0 < k <= h.days
    ensures Supplied(Cut(h, k), s)
    ensures TargetsFor(Cut(h, k), s, num) == CutOutcome(TargetsFor(h, s, num), k)
  {
    hide LiveDays, VolDays, SectorHolding, DualTarget;
    if s.weights != [] || s.overlay.DualMomentum? {
      match s.overlay
      case BuyHold =>
      case DualMomentum(look, universe, safe) =>
        DualMomentumCut(h, look, if universe != [] then universe else Names(s.weights), if safe.Some? then safe
                        else s.riskOff, k);
      case SectorMomentum(look, topN, universe, safe, hold) =>
        var base := if s.base != [] then s.base else OnlyHolding(if safe.Some? then safe else s.riskOff);
        forall i | 0 <= i < k
          ensures SectorHolding(Cut(h, k), look, topN, universe, base, hold, i)
               == SectorHolding(h, look, topN, universe, base, hold, i)
        {
          SectorHoldingCut(h, look, topN, universe, base, hold, k, i);
        }
      case VolTarget(gate, look, target, cap, floor, band) =>
        VolDaysCut(h.px[WatchedTicker(gate, s)], s.weights[0].ticker, look, target, cap, floor, band, OffTarget(s),
                   num, k);
      case Unsupported =>
      case _ => LiveDaysCut(h, s, k);
    }
  }

  // ---------------------------------------------------------------- the regime gate

  lemma VolatilityCut(a: Series, spread: Spread, k: nat)
    requires k <= |a|
    ensures Volatility(a[..k], spread) == Volatility(a, spread)[..k]
  {
    forall i | 0 <= i < k
      ensures Volatility(a[..k], spread)[i] == Volatility(a, spread)[i]
    {
      if i >= VOL_DAYS {
        assert Growth(a[..k], i) == Growth(a, i);
      }
    }
  }

  lemma PercentilesCut(v: seq<Option<real>>, lookback: Window, k: nat)
    requires k <= |v|
    ensures Percentiles(v[..k], lookback) == Percentiles(v, lookback)[..k]
  {
    forall i | 0 <= i < k
      ensures Percentiles(v[..k], lookback)[i] == Percentiles(v, lookback)[i]
    {
      assert TrailingWindow(v[..k], i, lookback) == TrailingWindow(v, i, lookback);
    }
  }

  lemma {:induction false} BreadthCut(h: History, members: seq<Ticker>, k: nat, i: nat)
    requires i < k <= h.days
    ensures Breadth(Cut(h, k), members, i) == Breadth(h, members, i)
  {
    hide AboveLine, Sma;
    if members != [] {
      BreadthCut(h, members[1..], k, i);
      if members[0] in h.px {
        var a := h.px[members[0]];
        SmaCut(a, k, MA_DAYS);
        AboveLineCut(a, k, MA_DAYS, 1.0);
        assert Sma(a, MA_DAYS)[..k][i] == Sma(a, MA_DAYS)[i];
        assert AboveLine(a, MA_DAYS, 1.0)[..k][i] == AboveLine(a, MA_DAYS, 1.0)[i];
      }
    }
  }

  lemma ReadingCut(h: History, spread: Spread, k: nat, i: nat)
    requires PRIMARY in h.px && i < k <= h.days
    ensures ReadingOn(Cut(h, k), spread, i) == ReadingOn(h, spread, i)
  {
    hide AboveLine, Sma, Percentiles, Volatility, Breadth, ScoreOf, MoodOf;
    var a := h.px[PRIMARY];
    SmaCut(a, k, MA_DAYS);
    AboveLineCut(a, k, MA_DAYS, 1.0);
    VolatilityCut(a, spread, k);
    PercentilesCut(Volatility(a, spread), VOL_LOOKBACK, k);
    BreadthCut(h, BREADTH_SET, k, i);
    assert Sma(a, MA_DAYS)[..k][i] == Sma(a, MA_DAYS)[i];
    assert AboveLine(a, MA_DAYS, 1.0)[..k][i] == AboveLine(a, MA_DAYS, 1.0)[i];
    assert Volatility(a, spread)[..k][i] == Volatility(a, spread)[i];
    assert Percentiles(Volatility(a, spread), VOL_LOOKBACK)[..k][i]
      == Percentiles(Volatility(a, spread), VOL_LOOKBACK)[i];
  }

  lemma GateCut(h: History, spread: Spread, k: nat)
    requires k <= h.days
    ensures Gate(Cut(h, k), spread) == if PRIMARY in h.px then Gate(h, spread)[..k] else []
  {
    hide ReadingOn;
    if PRIMARY in h.px {
      forall i | 0 <= i < k
        ensures Gate(Cut(h, k), spread)[i] == Gate(h, spread)[i]
      {
        ReadingCut(h, spread, k, i);
      }
    }
  }

  // ---------------------------------------------------------------- the whole backtest

  /** Everything the strategy may read or hold, and the regime's indexes when it is gated. */
  function TickersNeeded(s: Strategy, gated: bool): set<Ticker> {
    (set leg | leg in s.weights :: leg.ticker) + (set leg | leg in s.base :: leg.ticker)
    + Just(s.riskOff) + OverlayTickers(s.overlay) + (if gated then {"SPY", "QQQ", "IWM"} else {})
  }

  function Just(tk: Option<Ticker>): set<Ticker> {
    if tk.Some? then {tk.value} else {}
  }

  function OverlayTickers(o: Overlay): set<Ticker> {
    match o
    case BuyHold => {}
    case TrendFilter(gate, _, _, _) => {gate}
    case MaCross(gate, _, _, _, _) => Just(gate)
    case Donchian(gate, _, _) => Just(gate)
    case RsiPullback(gate, signal, _, _, _, _) => Just(gate) + Just(signal)
    case DualMomentum(_, universe, safe) => (set tk | tk in universe) + Just(safe)
    case VolTarget(gate, _, _, _, _, _) => Just(gate)
    case DrawdownBrake(gate, _, _) => Just(gate)
    case SectorMomentum(_, _, universe, safe, _) => (set tk | tk in universe) + Just(safe)
    case Unsupported => {}
  }

  /** What a run checks before it starts. */
  ghost predicate Ready(h: History, s: Strategy, gated: bool) {
    h.days > 0 && TickersNeeded(s, gated) <= h.px.Keys
  }

  lemma ReadyIsSupplied(h: History, s: Strategy, gated: bool)
    requires Ready(h, s, gated)
    ensures Supplied(h, s)
  {
  }

  /** The targets a run trades on: the overlay's, gated by the regime when asked. */
  function Plan(h: History, s: Strategy, num: Numerics, spread: Spread, gated: bool): (r: Outcome)
    requires Supplied(h, s)
  {
    var r := TargetsFor(h, s, num);
    if gated && r.Targets? then Targets(ApplyGate(r.daily, Gate(h, spread), s)) else r
  }

  lemma PlanCut(h: History, s: Strategy, num: Numerics, spread: Spread, gated: bool, k: nat)
    requires Ready(h, s, gated) && 0 < k <= h.days
    ensures Supplied(h, s) && Supplied(Cut(h, k), s)
    ensures var r := Plan(h, s, num, spread, gated);
      && (r.Targets? ==> |r.daily| == h.days)
      && Plan(Cut(h, k), s, num, spread, gated) == CutOutcome(r, k)
  {
    hide TargetsFor, Gate, OffTarget;
    ReadyIsSupplied(h, s, gated);
    TargetsCut(h, s, num, k);
    if gated {
      assert "SPY" in TickersNeeded(s, true);
      GateCut(h, spread, k);
      GateLength(h, spread);
    }
  }

  lemma GateLength(h: History, spread: Spread)
    requires PRIMARY in h.px
    ensures |Gate(h, spread)| == h.days
  {
  }
}
