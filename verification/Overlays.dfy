/** Overlays: rules that turn a price history into one target dictionary per day. */
module Overlays {
  import opened Basics
  import opened Indicators
  import opened Simulator

  // ---------------------------------------------------------------- histories and strategies

  datatype Aligned = Aligned(days: nat, px: Closes)

  /** Closes of several tickers on one shared calendar. */
  type History = h: Aligned | forall tk :: tk in h.px ==> |h.px[tk]| == h.days witness Aligned(0, map[])

  /** Numerical kernels the rules use but do not define: annualised volatility of a window of simple
      returns (None when it is not a number) and rounding to two decimals. */
  datatype Numerics = Numerics(vol: seq<real> -> Option<real>, round2: real -> real)

  datatype Overlay =
    | BuyHold
    | TrendFilter(gateTicker: Ticker, maDays: int, bandPct: real, confirmDays: int)
    | MaCross(gate: Option<Ticker>, fast: int, slow: int, longDays: Option<int>, confirmDays: int)
    | Donchian(gate: Option<Ticker>, entryDays: Window, exitDays: Window)
    | RsiPullback(gate: Option<Ticker>, signal: Option<Ticker>, maDays: int, rsiDays: int, exitMa: int, entry: real)
    | DualMomentum(lookback: nat, universe: seq<Ticker>, safe: Option<Ticker>)
    | VolTarget(gate: Option<Ticker>, volDays: nat, targetPct: real, maxWeight: real, minWeight: real, band: real)
    | DrawdownBrake(gate: Option<Ticker>, limitPct: real, reenterPct: real)
    | SectorMomentum(lookback: nat, topN: nat, universe: seq<Ticker>, safe: Option<Ticker>, holdDays: Window)
    | Unsupported

  datatype Strategy = Strategy(weights: Target, base: Target, riskOff: Option<Ticker>, overlay: Overlay)

  datatype Reason = BAD_SPEC | UNKNOWN_OVERLAY
  datatype Outcome = Targets(daily: seq<Target>) | Abstain(reason: Reason)

  /** The ticker a rule watches when its settings do not name one: the first of its own basket. */
  function WatchedTicker(named: Option<Ticker>, s: Strategy): Ticker
    requires named.None? ==> s.weights != []
  {
    if named.Some? then named.value else s.weights[0].ticker
  }

  /** Every single ticker the rule reads is in the history, and there is at least one day. */
  predicate Supplied(h: History, s: Strategy) {
    h.days > 0 &&
    (s.weights != [] ==>
       match s.overlay
       case TrendFilter(gate, _, _, _) => gate in h.px
       case MaCross(gate, _, _, _, _) => WatchedTicker(gate, s) in h.px
       case Donchian(gate, _, _) => WatchedTicker(gate, s) in h.px
       case RsiPullback(gate, signal, _, _, _, _) =>
         WatchedTicker(gate, s) in h.px && (signal.Some? ==> signal.value in h.px)
       case VolTarget(gate, _, _, _, _, _) => WatchedTicker(gate, s) in h.px
       case DrawdownBrake(gate, _, _) => WatchedTicker(gate, s) in h.px
       case _ => true)
  }

  // ---------------------------------------------------------------- dictionaries

  function Put(t: Target, tk: Ticker, w: real): Target {
    if t == [] then [Leg(tk, w)]
    else if t[0].ticker == tk then [Leg(tk, w)] + t[1..]
    else [t[0]] + Put(t[1..], tk, w)
  }

  function OnlyHolding(tk: Option<Ticker>): Target {
    if tk.Some? then [Leg(tk.value, 1.0)] else []
  }

  /** What is held when a rule's setup is not live: the base, else the risk-off fund, else nothing. */
  function OffTarget(s: Strategy): Target {
    if s.base != [] then s.base else OnlyHolding(s.riskOff)
  }

  function WeightsOrOff(on: seq<bool>, s: Strategy): (r: seq<Target>)
    ensures |r| == |on|
  {
    seq(|on|, i requires 0 <= i < |on| => if on[i] then s.weights else OffTarget(s))
  }

  // ---------------------------------------------------------------- trend rules

  /** NaN compares false, as it does in the program. */
  predicate Above(x: real, line: Option<real>, factor: real) {
    line.Some? && x > line.value * factor
  }

  function AboveLine(a: Series, n: int, factor: real): (r: seq<bool>)
    ensures |r| == |a|
  {
    seq(|a|, i requires 0 <= i < |a| => Above(a[i], Sma(a, n)[i], factor))
  }

  predicate Crossed(fast: Option<real>, slow: Option<real>) {
    fast.Some? && slow.Some? && fast.value > slow.value
  }

  function CrossFlags(a: Series, fast: int, slow: int, longDays: Option<int>): (r: seq<bool>)
    ensures |r| == |a|
  {
    seq(|a|, i requires 0 <= i < |a| =>
      Crossed(Sma(a, fast)[i], Sma(a, slow)[i])
      && (longDays.Some? ==> AboveLine(a, longDays.value, 1.0)[i]))
  }

  // ---------------------------------------------------------------- channel breakout

  /** Whether the channel rule is holding once days 0..i-1 have been seen. */
  function ChannelHolding(a: Series, entry: Window, exit: Window, i: nat): bool
    requires i <= |a|
  {
    if i == 0 then false
    else
      var was, hi, lo := ChannelHolding(a, entry, exit, i - 1), RollingMax(a, entry)[i - 1], RollingMin(a, exit)[i - 1];
      if hi.None? || lo.None? then was
      else if !was && a[i - 1] >= hi.value then true
      else if was && a[i - 1] <= lo.value then false
      else was
  }

  function ChannelFlags(a: Series, entry: Window, exit: Window): (r: seq<bool>)
    ensures |r| == |a|
  {
    seq(|a|, i requires 0 <= i < |a| =>
      RollingMax(a, entry)[i].Some? && RollingMin(a, exit)[i].Some? && ChannelHolding(a, entry, exit, i + 1))
  }

  method ComputeChannel(a: Series, entry: Window, exit: Window) returns (on: seq<bool>)
    ensures on == ChannelFlags(a, entry, exit)
  {
    hide RollingMax, RollingMin;
    var hi, lo := RollingMax(a, entry), RollingMin(a, exit);
    on := seq(|a|, i => false);
    var holding := false;
    for i := 0 to |a|
      invariant |on| == |a| && holding == ChannelHolding(a, entry, exit, i)
      invariant forall j :: 0 <= j < |a| ==> on[j] == (j < i && ChannelFlags(a, entry, exit)[j])
    {
      if hi[i].None? || lo[i].None? {
        continue;
      }
      if !holding && a[i] >= hi[i].value {
        holding := true;
      } else if holding && a[i] <= lo[i].value {
        holding := false;
      }
      on := on[i := holding];
    }
  }

  // ---------------------------------------------------------------- dip buying

  predicate PullbackStep(was: bool, uptrend: bool, strength: Option<real>, exitLine: Option<real>, price: real,
                         entry: real) {
    if was then !(Above(price, exitLine, 1.0) || !uptrend)
    else uptrend && strength.Some? && strength.value < entry
  }

  function PullbackHolding(gate: Series, sig: Series, maDays: int, rsiDays: int, exitMa: int, entry: real, i: nat): bool
    requires |gate| == |sig| && i <= |sig|
  {
    i > 0 &&
    PullbackStep(PullbackHolding(gate, sig, maDays, rsiDays, exitMa, entry, i - 1),
                 AboveLine(gate, maDays, 1.0)[i - 1], Rsi(sig, rsiDays)[i - 1], Sma(sig, exitMa)[i - 1], sig[i - 1],
                 entry)
  }

  function PullbackFlags(gate: Series, sig: Series, maDays: int, rsiDays: int, exitMa: int, entry: real): (r: seq<bool>)
    requires |gate| == |sig|
    ensures |r| == |sig|
  {
    seq(|sig|, i requires 0 <= i < |sig| => PullbackHolding(gate, sig, maDays, rsiDays, exitMa, entry, i + 1))
  }

  method ComputePullback(gate: Series, sig: Series, maDays: int, rsiDays: int, exitMa: int, entry: real)
    returns (on: seq<bool>)
    requires |gate| == |sig|
    ensures on == PullbackFlags(gate, sig, maDays, rsiDays, exitMa, entry)
  {
    hide AboveLine, Rsi, Sma, Above;
    var uptrend, exitLine := AboveLine(gate, maDays, 1.0), Sma(sig, exitMa);
    var r := ComputeRsi(sig, rsiDays);
    on := [];
    var holding := false;
    for i := 0 to |sig|
      invariant holding == PullbackHolding(gate, sig, maDays, rsiDays, exitMa, entry, i)
      invariant |on| == i && forall j :: 0 <= j < i ==>
          on[j] == PullbackFlags(gate, sig, maDays, rsiDays, exitMa, entry)[j]
    {
      if holding {
        if Above(sig[i], exitLine[i], 1.0) || !uptrend[i] {
          holding := false;
        }
      } else if uptrend[i] && r[i].Some? && r[i].value < entry {
        holding := true;
      }
      on := on + [holding];
    }
  }

  // ---------------------------------------------------------------- drawdown brake

  datatype Brake = Brake(peak: real, trough: real, holding: bool)

  predicate Stopped(x: real, peak: real, limit: real) { x <= peak * (1.0 - limit) }
  predicate Recovered(x: real, trough: real, recover: real) { x >= trough * (1.0 + recover) }

  function BrakeStep(b: Brake, x: real, limit: real, recover: real): Brake {
    var peak := Max(b.peak, x);
    if b.holding then
      if Stopped(x, peak, limit) then Brake(peak, x, false) else Brake(peak, b.trough, true)
    else
      var trough := Min(b.trough, x);
      if Recovered(x, trough, recover) then Brake(x, trough, true) else Brake(peak, trough, false)
  }

  function BrakeAfter(a: Series, limit: real, recover: real, i: nat): Brake
    requires |a| > 0 && i <= |a|
  {
    if i == 0 then Brake(a[0], a[0], true)
    else BrakeStep(BrakeAfter(a, limit, recover, i - 1), a[i - 1], limit, recover)
  }

  function BrakeFlags(a: Series, limit: real, recover: real): (r: seq<bool>)
    requires |a| > 0
    ensures |r| == |a|
  {
    seq(|a|, i requires 0 <= i < |a| => BrakeAfter(a, limit, recover, i + 1).holding)
  }

  method ComputeBrake(a: Series, limit: real, recover: real) returns (on: seq<bool>)
    requires |a| > 0
    ensures on == BrakeFlags(a, limit, recover)
  {
    hide Stopped, Recovered;
    on := [];
    var peak: real, trough: real, holding := a[0], a[0], true;
    for i := 0 to |a|
      invariant Brake(peak, trough, holding) == BrakeAfter(a, limit, recover, i)
      invariant on == BrakeFlags(a, limit, recover)[..i]
    {
      var x := a[i];
      peak := Max(peak, x);
      if holding {
        if Stopped(x, peak, limit) {
          holding, trough := false, x;
        }
      } else {
        trough := Min(trough, x);
        if Recovered(x, trough, recover) {
          holding, peak := true, x;
        }
      }
      on := on + [holding];
    }
  }

  // ---------------------------------------------------------------- momentum

  datatype Ranked = Ranked(ticker: Ticker, ret: real)

  function TrailingReturn(a: Series, look: nat, i: nat): real
    requires look <= i < |a|
  {
    var now: real, before: real := a[i], a[i - look];
    now / before - 1.0
  }

  /** Trailing returns of those universe members the history holds, in universe order. */
  function ReturnsOn(h: History, universe: seq<Ticker>, look: nat, i: nat): seq<Ranked>
    requires look <= i < h.days
  {
    if universe == [] then []
    else
      var rest := ReturnsOn(h, universe[1..], look, i);
      if universe[0] in h.px then [Ranked(universe[0], TrailingReturn(h.px[universe[0]], look, i))] + rest else rest
  }

  /** The first entry no later one beats. */
  function Leader(rs: seq<Ranked>): Ranked
    requires rs != []
  {
    if |rs| == 1 then rs[0]
    else
      var rest := Leader(rs[1..]);
      if rs[0].ret >= rest.ret then rs[0] else rest
  }

  function DualTarget(rs: seq<Ranked>, safe: Option<Ticker>): Target {
    if rs == [] || Leader(rs).ret <= 0.0 then OnlyHolding(safe) else [Leg(Leader(rs).ticker, 1.0)]
  }

  function DualMomentumDays(h: History, look: nat, universe: seq<Ticker>, safe: Option<Ticker>): (r: seq<Target>)
    ensures |r| == h.days
  {
    seq(h.days, i requires 0 <= i < h.days =>
      if i < look then OnlyHolding(safe) else DualTarget(ReturnsOn(h, universe, look, i), safe))
  }

  /** Stable insertion, largest return first. */
  function InsertRanked(x: Ranked, rs: seq<Ranked>): seq<Ranked> {
    if rs == [] || x.ret >= rs[0].ret then [x] + rs else [rs[0]] + InsertRanked(x, rs[1..])
  }

  function SortRanked(rs: seq<Ranked>): seq<Ranked> {
    if rs == [] then [] else InsertRanked(rs[0], SortRanked(rs[1..]))
  }

  function Risers(rs: seq<Ranked>): seq<Ticker> {
    if rs == [] then []
    else if rs[0].ret > 0.0 then [rs[0].ticker] + Risers(rs[1..])
    else Risers(rs[1..])
  }

  function Winners(rs: seq<Ranked>, topN: nat): seq<Ticker> {
    var sorted := SortRanked(rs);
    Risers(if topN <= |sorted| then sorted[..topN] else sorted)
  }

  function EqualWeights(tks: seq<Ticker>): Target {
    seq(|tks|, i requires 0 <= i < |tks| => Leg(tks[i], 1.0 / |tks| as real))
  }

  function SectorTarget(rs: seq<Ranked>, topN: nat, base: Target): Target {
    if Winners(rs, topN) != [] then EqualWeights(Winners(rs, topN)) else base
  }

  /** What the sector rule holds on day i: last rebalance day's winners, or the base before the first. */
  function SectorHolding(h: History, look: nat, topN: nat, universe: seq<Ticker>, base: Target, hold: Window,
                         i: nat): Target
    requires i < h.days
  {
    if i >= look && i % hold == 0 then SectorTarget(ReturnsOn(h, universe, look, i), topN, base)
    else if i == 0 then base
    else SectorHolding(h, look, topN, universe, base, hold, i - 1)
  }

  function SectorDays(h: History, look: nat, topN: nat, universe: seq<Ticker>, base: Target,
                      hold: Window): (r: seq<Target>)
    ensures |r| == h.days
  {
    seq(h.days, i requires 0 <= i < h.days => SectorHolding(h, look, topN, universe, base, hold, i))
  }

  method ComputeSector(h: History, look: nat, topN: nat, universe: seq<Ticker>, base: Target, hold: Window)
    returns (out: seq<Target>)
    ensures out == SectorDays(h, look, topN, universe, base, hold)
  {
    out := [];
    var current := base;
    for i := 0 to h.days
      invariant current == if i == 0 then base else SectorHolding(h, look, topN, universe, base, hold, i - 1)
      invariant |out| == i && forall j :: 0 <= j < i ==> out[j] == SectorDays(h, look, topN, universe, base, hold)[j]
    {
      if i >= look && i % hold == 0 {
        var winners := Winners(ReturnsOn(h, universe, look, i), topN);
        current := if winners != [] then EqualWeights(winners) else base;
      }
      out := out + [current];
    }
  }

  // ---------------------------------------------------------------- constant volatility

  /** Simple returns of the closes i - look .. i. */
  function WindowReturns(a: Series, look: nat, i: nat): seq<real>
    requires look <= i < |a|
  {
    seq(look, j requires 0 <= j < look => (a[i - look + j + 1] as real - a[i - look + j] as real) / a[i - look + j])
  }

  /** The exposure a volatility reading asks for; an undefined reading falls to the floor weight. */
  function RawWeight(rv: Option<real>, target: real, cap: real, floor: real): real {
    if rv.None? then Min(cap, floor)
    else if rv.value <= 0.0 then cap
    else Min(cap, Max(floor, target / rv.value))
  }

  /** Yesterday's exposure is kept while the newly asked one stays inside the band. */
  function VolHeld(a: Series, look: nat, target: real, cap: real, floor: real, band: real, num: Numerics,
                   i: nat): Option<real>
    requires i <= |a|
  {
    if i == 0 || i - 1 < look then None
    else
      var held := VolHeld(a, look, target, cap, floor, band, num, i - 1);
      var w := num.round2(RawWeight(num.vol(WindowReturns(a, look, i - 1)), target, cap, floor));
      Some(if held.Some? && Abs(w - held.value) < band then held.value else w)
  }

  function AddBase(t: Target, base: Target, share: real): Target
    decreases |base|
  {
    if base == [] then t
    else AddBase(Put(t, base[0].ticker, Weight(t, base[0].ticker) + base[0].weight * share), base[1..], share)
  }

  function Kept(t: Target): Target {
    if t == [] then []
    else if t[0].weight > 0.005 then [t[0]] + Kept(t[1..])
    else Kept(t[1..])
  }

  function VolTargetOf(tk: Ticker, held: Option<real>, base: Target): Target {
    if held.None? then base else Kept(AddBase([Leg(tk, held.value)], base, 1.0 - held.value))
  }

  function VolDays(a: Series, tk: Ticker, look: nat, target: real, cap: real, floor: real, band: real, base: Target,
                   num: Numerics): (r: seq<Target>)
    ensures |r| == |a|
  {
    seq(|a|, i requires 0 <= i < |a| => VolTargetOf(tk, VolHeld(a, look, target, cap, floor, band, num, i + 1), base))
  }

  method ComputeVol(a: Series, tk: Ticker, look: nat, target: real, cap: real, floor: real, band: real, base: Target,
                    num: Numerics) returns (out: seq<Target>)
    ensures out == VolDays(a, tk, look, target, cap, floor, band, base, num)
  {
    hide RawWeight, WindowReturns, AddBase, Kept;
    out := [];
    var held: Option<real> := None;
    for i := 0 to |a|
      invariant held == VolHeld(a, look, target, cap, floor, band, num, i)
      invariant |out| == i && forall j :: 0 <= j < i ==>
          out[j] == VolDays(a, tk, look, target, cap, floor, band, base, num)[j]
    {
      if i < look {
        out := out + [base];
        continue;
      }
      var rv := num.vol(WindowReturns(a, look, i));
      var w := num.round2(RawWeight(rv, target, cap, floor));
      if held.Some? && Abs(w - held.value) < band {
        w := held.value;
      }
      held := Some(w);
      out := out + [Kept(AddBase([Leg(tk, w)], base, 1.0 - w))];
    }
  }

  // ---------------------------------------------------------------- dispatch

  /** Target weights per day, or an abstention when the specification is unusable. */
  function TargetsFor(h: History, s: Strategy, num: Numerics): (r: Outcome)
    requires Supplied(h, s)
    ensures r.Targets? ==> |r.daily| == h.days
  {
    if s.weights == [] && !s.overlay.DualMomentum? then Abstain(BAD_SPEC)
    else
      match s.overlay
      case BuyHold => Targets(seq(h.days, i => s.weights))
      case DualMomentum(look, universe, safe) =>
        Targets(DualMomentumDays(h, look, if universe != [] then universe else Names(s.weights),
                                 if safe.Some? then safe else s.riskOff))
      case SectorMomentum(look, topN, universe, safe, hold) =>
        Targets(SectorDays(h, look, topN, universe,
                           if s.base != [] then s.base else OnlyHolding(if safe.Some? then safe else s.riskOff), hold))
      case VolTarget(gate, look, target, cap, floor, band) =>
        Targets(VolDays(h.px[WatchedTicker(gate, s)], s.weights[0].ticker, look, target, cap, floor, band,
                        OffTarget(s), num))
      case Unsupported => Abstain(UNKNOWN_OVERLAY)
      case _ => Targets(WeightsOrOff(LiveDays(h, s), s))
  }

  /** The days on which an on/off rule's setup is live. */
  function LiveDays(h: History, s: Strategy): (r: seq<bool>)
    requires Supplied(h, s) && s.weights != []
    ensures |r| == h.days
  {
    match s.overlay
    case TrendFilter(gate, ma, band, confirm) => Confirm(AboveLine(h.px[gate], ma, 1.0 + band / 100.0), confirm)
    case MaCross(gate, fast, slow, longDays, confirm) =>
      Confirm(CrossFlags(h.px[WatchedTicker(gate, s)], fast, slow, longDays), confirm)
    case Donchian(gate, entry, exit) => ChannelFlags(h.px[WatchedTicker(gate, s)], entry, exit)
    case RsiPullback(gate, signal, ma, rsiDays, exitMa, entry) =>
      var g := WatchedTicker(gate, s);
      PullbackFlags(h.px[g], h.px[if signal.Some? then signal.value else g], ma, rsiDays, exitMa, entry)
    case DrawdownBrake(gate, limit, reenter) =>
      BrakeFlags(h.px[WatchedTicker(gate, s)], limit / 100.0, reenter / 100.0)
    case _ => seq(h.days, i => true)
  }
}
