/** One trading rule over time: when it fires, when it re-arms, and what that costs the reader in alerts. */
module TradingRules {
  import opened Basics

  datatype RuleType = StopLoss | TakeProfit | TrailingStop | PriceAbove
                    | PriceBelow | BuyDip | MaxWeight | StrategySignal
  datatype Mode = Pct | AtPrice | Entry | Exit

  datatype Rule = Rule(
    ticker: Ticker, kind: RuleType, mode: Mode, level: real, strategy: Option<string>,
    peak: Option<real>, active: bool, triggered: bool)

  /** What a rule is shown of the holding it watches. */
  datatype Sight = Sight(price: real, cost: real, weight: real)

  /** A strategy's recorded flip: what it holds now and what it held before. */
  datatype Flip = Flip(target: map<Ticker, real>, previous: map<Ticker, real>)

  const ALLOCATED := 0.005

  // ---------------------------------------------------------------- thresholds

  /** How far a standing condition must move back before it may fire again. */
  function Band(level: real): real { Max(0.5, Abs(level) * 0.025) }

  function RearmThreshold(level: real): real { Abs(level) - Band(level) }

  /** False by a margin, not merely false. */
  predicate ClearsWithMargin(r: Rule, s: Sight) {
    match r.kind
    case MaxWeight => s.weight <= RearmThreshold(r.level)
    case PriceAbove => s.price <= RearmThreshold(r.level)
    case PriceBelow => s.price >= Abs(r.level) + Band(r.level)
    case _ => true
  }

  predicate Standing(kind: RuleType) { kind.PriceAbove? || kind.PriceBelow? || kind.MaxWeight? }
  predicate OneShot(kind: RuleType) { kind.StopLoss? || kind.TakeProfit? || kind.TrailingStop? || kind.BuyDip? }

  /** A level given as a price, or as a percentage of the cost. */
  function TargetPrice(r: Rule, s: Sight, sign: real): real {
    if r.mode.AtPrice? then r.level else if s.cost != 0.0 then s.cost * (1.0 + sign * Abs(r.level) / 100.0) else 0.0
  }

  /** A stored peak of zero counts as none. */
  function PeakOr(r: Rule, price: real): real { if r.peak.Some? && r.peak.value != 0.0 then r.peak.value else price }

  function TrailTarget(peak: real, level: real): real { peak * (1.0 - Abs(level) / 100.0) }

  predicate Hit(r: Rule, s: Sight) {
    s.price > 0.0 &&
    match r.kind
    case StopLoss => s.price <= TargetPrice(r, s, -1.0)
    case TakeProfit => s.price >= TargetPrice(r, s, 1.0) > 0.0
    case TrailingStop => s.price <= TrailTarget(PeakOr(r, s.price), r.level)
    case PriceAbove => s.price >= r.level
    case PriceBelow => s.price <= r.level
    case BuyDip => s.price <= TargetPrice(r, s, -1.0) && TargetPrice(r, s, -1.0) > 0.0
    case MaxWeight => s.weight >= r.level
    case StrategySignal => false
  }

  /** Which way a flip turned the ticker, if it did. */
  function SideOf(f: Flip, tk: Ticker): Option<Mode> {
    var now := tk in f.target && f.target[tk] > ALLOCATED;
    var was := tk in f.previous && f.previous[tk] > ALLOCATED;
    if now && !was then Some(Entry) else if was && !now then Some(Exit) else None
  }

  // ---------------------------------------------------------------- one evaluation

  function TrackPeak(r: Rule, s: Sight): Rule {
    if r.kind.TrailingStop? && s.price > 0.0 then r.(peak := Some(Max(PeakOr(r, s.price), s.price))) else r
  }

  /** The evaluator on a rule whose holding is there. */
  function Watch(r: Rule, s: Sight): Rule {
    var t := TrackPeak(r, s);
    if Hit(t, s) then t.(triggered := true)
    else if t.triggered && Standing(t.kind) && ClearsWithMargin(t, s) then t.(triggered := false)
    else t
  }

  predicate Fires(r: Rule, s: Sight) { Hit(TrackPeak(r, s), s) && !r.triggered }

  /** The screen on a fired rule: it re-arms one whose condition has clearly passed, and never fires any. */
  function Render(r: Rule, s: Sight): Rule {
    if r.active && r.triggered && !Hit(r, s) && Standing(r.kind) && ClearsWithMargin(r, s) then r.(triggered := false)
    else r
  }

  // ---------------------------------------------------------------- a rule's life

  /** What can happen to one rule. */
  datatype Event = Job(sight: Sight) | Screen(sight: Sight) | Resolve | Toggle | Relevel(level: real, mode: Mode)

  function After(r: Rule, e: Event): Rule {
    match e
    case Job(s) => if r.active then Watch(r, s) else r
    case Screen(s) => Render(r, s)
    case Resolve => r.(triggered := false, active := r.active && !OneShot(r.kind))
    case Toggle => if r.active then r.(active := false) else r.(active := true, triggered := false)
    case Relevel(level, mode) => if r.active then r.(level := level, mode := mode, triggered := false) else r
  }

  predicate FiresOn(r: Rule, e: Event) { e.Job? && r.active && Fires(r, e.sight) }

  function AfterAll(r: Rule, es: seq<Event>): Rule {
    if es == [] then r else After(AfterAll(r, es[..|es| - 1]), es[|es| - 1])
  }

  function Firings(r: Rule, es: seq<Event>): nat {
    if es == [] then 0
    else Firings(r, es[..|es| - 1]) + (if FiresOn(AfterAll(r, es[..|es| - 1]), es[|es| - 1]) then 1 else 0)
  }

  // ---------------------------------------------------------------- one alert an arming

  predicate Armed(r: Rule) { r.active && !r.triggered }

  function Count(b: bool): nat { if b then 1 else 0 }

  /** How often an event of a run turns a rule that could not fire into one that can. */
  function Armings(r: Rule, es: seq<Event>): nat {
    if es == [] then 0
    else
      var m := AfterAll(r, es[..|es| - 1]);
      Armings(r, es[..|es| - 1]) + Count(!Armed(m) && Armed(After(m, es[|es| - 1])))
  }

  /** Whatever happens to it, a rule fires at most once for each time it is armed. */
  lemma {:induction false} FiresOncePerArming(r: Rule, es: seq<Event>)
    ensures Firings(r, es) + Count(Armed(AfterAll(r, es))) <= Armings(r, es) + Count(Armed(r))
  {
    hide Hit, ClearsWithMargin;
    if es != [] {
      FiresOncePerArming(r, es[..|es| - 1]);
    }
  }

  lemma {:induction false} KindStays(r: Rule, es: seq<Event>)
    ensures AfterAll(r, es).kind == r.kind
  {
    hide Hit, ClearsWithMargin;
    if es != [] {
      KindStays(r, es[..|es| - 1]);
    }
  }

  /** The user's own acts: switching a rule over, and setting its level again. */
  function ByHand(es: seq<Event>): nat {
    if es == [] then 0 else ByHand(es[..|es| - 1]) + Count(es[|es| - 1].Toggle? || es[|es| - 1].Relevel?)
  }

  /** A one-shot rule is never re-armed by the market, the screen or being dealt with: it fires at most once, and once
      more for each time the user switches it over or sets it again. */
  lemma {:induction false} OneShotFiresOnce(r: Rule, es: seq<Event>)
    requires OneShot(r.kind)
    ensures Firings(r, es) <= ByHand(es) + Count(Armed(r))
  {
    ArmedByHand(r, es);
    FiresOncePerArming(r, es);
  }

  lemma {:induction false} ArmedByHand(r: Rule, es: seq<Event>)
    requires OneShot(r.kind)
    ensures Armings(r, es) <= ByHand(es)
  {
    hide Hit, ClearsWithMargin;
    if es != [] {
      ArmedByHand(r, es[..|es| - 1]);
      KindStays(r, es[..|es| - 1]);
    }
  }

  // ---------------------------------------------------------------- hysteresis

  ghost predicate Plausible(e: Event) { (e.Job? || e.Screen?) && e.sight.price >= 0.0 && e.sight.weight >= 0.0 }

  /** A stretch in which the rule is only looked at, at prices and weights that are not negative. */
  ghost predicate OnlyLooks(es: seq<Event>) { forall i :: 0 <= i < |es| ==> Plausible(es[i]) }

  /** What a standing rule watches, oriented so that it fires when this is high. */
  function Watched(kind: RuleType, e: Event): real
    requires e.Job? || e.Screen?
  {
    match kind
    case MaxWeight => e.sight.weight
    case PriceBelow => -e.sight.price
    case _ => e.sight.price
  }

  /** Total movement of the watched value over a stretch. */
  function Movement(kind: RuleType, es: seq<Event>): real
    requires OnlyLooks(es)
  {
    if |es| < 2 then 0.0
    else
      assert Plausible(es[|es| - 1]) && Plausible(es[|es| - 2]);
      Movement(kind, es[..|es| - 1]) + Abs(Watched(kind, es[|es| - 1]) - Watched(kind, es[|es| - 2]))
  }

  function Limit(r: Rule): real { if r.kind.PriceBelow? then -Abs(r.level) else r.level }

  /** What k firings have cost by the time the watched value stands at y: two bands for each after the first, and the
      way back down since the last; once re-armed, a band more, and the way back up. */
  ghost predicate Paid(r: Rule, k: nat, moved: real, y: real) {
    var twice := 2.0 * Times(k - 1, Band(r.level));
    && moved >= 0.0
    && (k > 0 ==> moved >= twice)
    && (k > 0 && r.triggered ==> moved >= twice + Limit(r) - y)
    && (k > 0 && !r.triggered ==>
        moved >= twice + Band(r.level) && moved >= twice + y - (Limit(r) - 2.0 * Band(r.level)))
  }

  lemma LookMeans(r: Rule, e: Event)
    requires Standing(r.kind) && (e.Job? || e.Screen?) && r.active
    ensures var a := After(r, e);
      && a.(triggered := false) == r.(triggered := false)
      && (FiresOn(r, e) ==> !r.triggered && a.triggered && Watched(r.kind, e) >= Limit(r))
      && (!FiresOn(r, e) && a.triggered ==> r.triggered)
      && (r.triggered && !a.triggered ==> ClearsWithMargin(r, e.sight))
  {
  }

  lemma ClearingMeans(r: Rule, e: Event)
    requires Standing(r.kind) && (e.Job? || e.Screen?) && ClearsWithMargin(r, e.sight) &&
        (r.kind.PriceBelow? || r.level >= 0.0)
    ensures Watched(r.kind, e) <= Limit(r) - Band(r.level)
  {
  }

  lemma OneLookPays(r: Rule, e: Event, k: nat, moved: real, y: real)
    requires Standing(r.kind) && r.active && Plausible(e) && (r.kind.PriceBelow? || r.level >= 0.0)
    requires Paid(r, k, moved, y)
    ensures var x := Watched(r.kind, e); Paid(After(r, e), k + Count(FiresOn(r, e)), moved + Abs(x - y), x)
  {
    hide After, FiresOn, Watched, ClearsWithMargin, Limit, Band, Times;
    LookMeans(r, e);
    if r.triggered && !After(r, e).triggered {
      ClearingMeans(r, e);
    }
    TimesStep(k - 1, Band(r.level));
    BandPositive(r.level);
    SameLimit(r, After(r, e));
  }

  lemma SameLimit(r: Rule, a: Rule)
    requires a.(triggered := false) == r.(triggered := false)
    ensures Limit(a) == Limit(r) && a.level == r.level
  {
  }

  lemma BandPositive(level: real)
    ensures Band(level) >= 0.5
  {
  }

  lemma {:induction false} LooksPay(r: Rule, es: seq<Event>)
    requires Standing(r.kind) && r.active && OnlyLooks(es) && es != [] && (r.kind.PriceBelow? || r.level >= 0.0)
    ensures var a := AfterAll(r, es);
      && Plausible(es[|es| - 1]) && a.(triggered := false) == r.(triggered := false)
      && Paid(a, Firings(r, es), Movement(r.kind, es), Watched(r.kind, es[|es| - 1]))
  {
    hide After, FiresOn, Watched, Paid;
    var n := |es| - 1;
    var e := es[n];
    assert Plausible(e);
    if n == 0 {
      assert es[..0] == [];
      NothingPaid(r, Watched(r.kind, e));
      LookMeans(r, e);
      OneLookPays(r, e, 0, 0.0, Watched(r.kind, e));
    } else {
      LooksPay(r, es[..n]);
      var m := AfterAll(r, es[..n]);
      LookMeans(m, e);
      OneLookPays(m, e, Firings(r, es[..n]), Movement(r.kind, es[..n]), Watched(r.kind, es[n - 1]));
      assert es[..n][n - 1] == es[n - 1];
    }
  }

  lemma NothingPaid(r: Rule, y: real)
    ensures Paid(r, 0, 0.0, y)
  {
  }

  /** The band's promise for a rule that fired k times in a stretch: the watched value moved 2(k - 1) bands at least. */
  ghost predicate AlertsCostMovement(r: Rule, es: seq<Event>)
    requires OnlyLooks(es)
  {
    Movement(r.kind, es) >= 2.0 * Times(Firings(r, es) - 1, Band(r.level))
  }

  lemma HysteresisHolds(r: Rule, es: seq<Event>)
    requires Standing(r.kind) && r.active && OnlyLooks(es) && (r.kind.PriceBelow? || r.level >= 0.0)
    ensures AlertsCostMovement(r, es)
  {
    hide Firings, AfterAll, Band, Times, Limit;
    BandPositive(r.level);
    if es == [] {
      NoFirings(r);
      TimesStep(-1, Band(r.level));
    } else {
      LooksPay(r, es);
      if Firings(r, es) == 0 {
        TimesStep(-1, Band(r.level));
      }
    }
  }

  lemma NoFirings(r: Rule)
    ensures Firings(r, []) == 0
  {
  }

  /** Too low a level to be cleared at all: such a rule fires once and stays latched. */
  lemma {:induction false} NeverCleared(r: Rule, es: seq<Event>)
    requires (r.kind.PriceAbove? || r.kind.MaxWeight?) && r.active && OnlyLooks(es) && RearmThreshold(r.level) < 0.0
    ensures AfterAll(r, es).(triggered := false) == r.(triggered := false)
    ensures Firings(r, es) + Count(!AfterAll(r, es).triggered) <= 1 && Movement(r.kind, es) >= 0.0
  {
    hide After, FiresOn, RearmThreshold;
    if es != [] {
      var n := |es| - 1;
      assert Plausible(es[n]);
      NeverCleared(r, es[..n]);
      LookMeans(AfterAll(r, es[..n]), es[n]);
      assert ClearsWithMargin(AfterAll(r, es[..n]), es[n].sight) ==> RearmThreshold(r.level) >= 0.0;
    }
  }

  lemma OneMore(r: Rule, es: seq<Event>, e: Event)
    ensures AfterAll(r, es + [e]) == After(AfterAll(r, es), e)
    ensures Firings(r, es + [e]) == Firings(r, es) + Count(FiresOn(AfterAll(r, es), e))
    ensures OnlyLooks(es) && Plausible(e) ==> OnlyLooks(es + [e])
    ensures OnlyLooks(es) && Plausible(e) && es != [] ==>
      Plausible(es[|es| - 1])
      && Movement(r.kind, es + [e]) == Movement(r.kind, es) + Abs(Watched(r.kind, e) - Watched(r.kind, es[|es| - 1]))
  {
  }

  /** Down to nothing, up a little, and again: what a level below zero is crossed by. */
  function Flicker(): seq<Event> { [Down()] + [Up()] + [Down()] + [Up()] }

  function Down(): Event { Screen(Sight(0.0, 0.0, 0.0)) }
  function Up(): Event { Job(Sight(0.1, 0.0, 0.0)) }

  lemma FlickerStep(r: Rule)
    requires (r.kind.PriceAbove? || r.kind.MaxWeight?) && r.active && r.level < 0.0 && RearmThreshold(r.level) >= 0.0
    ensures After(r, Down()) == r.(triggered := false) && !FiresOn(r, Down())
    ensures After(r, Up()) == r.(triggered := true) && FiresOn(r, Up()) == !r.triggered
    ensures Abs(Watched(r.kind, Up()) - Watched(r.kind, Down())) <= 0.1 &&
        Abs(Watched(r.kind, Down()) - Watched(r.kind, Up())) <= 0.1
  {
  }

  lemma FlickerFiresTwice(r: Rule)
    requires (r.kind.PriceAbove? || r.kind.MaxWeight?) && r.active && r.level < 0.0 && RearmThreshold(r.level) >= 0.0
    ensures OnlyLooks(Flicker()) && Firings(r, Flicker()) == 2 && Movement(r.kind, Flicker()) < 1.0
  {
    var a, b := [Down()], [Down()] + [Up()];
    var off, on := r.(triggered := false), r.(triggered := true);
    assert Plausible(Down()) && Plausible(Up());
    FlickerStep(r);
    FlickerStep(off);
    FlickerStep(on);
    hide After, FiresOn, Watched, RearmThreshold, Down, Up;
    OneMore(r, [], Down());
    assert [] + [Down()] == a;
    OneMore(r, a, Up());
    OneMore(r, b, Down());
    OneMore(r, b + [Down()], Up());
    assert Movement(r.kind, a) == 0.0;
  }

  /** The band does what it is for exactly when the limit is one the value can be clearly under: for any price alert
      from below, and otherwise for a level that is not negative or too close to zero to ever be cleared.  A negative
      level is measured by its absolute value when re-arming but not when firing, so it chatters. */
  lemma HysteresisIff(r: Rule)
    requires Standing(r.kind) && r.active
    ensures (forall es | OnlyLooks(es) :: AlertsCostMovement(r, es))
        == (r.kind.PriceBelow? || r.level >= 0.0 || RearmThreshold(r.level) < 0.0)
  {
    hide AlertsCostMovement, Firings, Movement, RearmThreshold;
    if r.kind.PriceBelow? || r.level >= 0.0 {
      forall es | OnlyLooks(es)
        ensures AlertsCostMovement(r, es)
      {
        HysteresisHolds(r, es);
      }
    } else if RearmThreshold(r.level) < 0.0 {
      forall es | OnlyLooks(es)
        ensures AlertsCostMovement(r, es)
      {
        NeverCleared(r, es);
        OneAlertIsFree(r, es);
      }
    } else {
      FlickerFiresTwice(r);
      TwoAlertsCost(r, Flicker());
    }
  }

  lemma OneAlertIsFree(r: Rule, es: seq<Event>)
    requires OnlyLooks(es) && Firings(r, es) <= 1 && Movement(r.kind, es) >= 0.0
    ensures AlertsCostMovement(r, es)
  {
    hide Firings, Movement;
    BandPositive(r.level);
    TimesStep(Firings(r, es) - 1, Band(r.level));
  }

  lemma TwoAlertsCost(r: Rule, es: seq<Event>)
    requires OnlyLooks(es) && Firings(r, es) == 2 && Movement(r.kind, es) < 1.0
    ensures !AlertsCostMovement(r, es)
  {
  }

  // ---------------------------------------------------------------- a trailing stop is a drawdown alarm

  function Jobs(ss: seq<Sight>): seq<Event> { seq(|ss|, i requires 0 <= i < |ss| => Job(ss[i])) }

  function Peak(ss: seq<Sight>): real
    requires ss != []
  {
    if |ss| == 1 then ss[0].price else Max(Peak(ss[..|ss| - 1]), ss[|ss| - 1].price)
  }

  /** Down from the highest price so far by the trail. */
  ghost predicate Fallen(ss: seq<Sight>, level: real, i: int) {
    0 <= i < |ss| && ss[i].price <= TrailTarget(Peak(ss[..i + 1]), level)
  }

  lemma TrailStep(m: Rule, s: Sight)
    requires m.kind.TrailingStop? && m.active && s.price > 0.0 && (m.peak.Some? ==> m.peak.value > 0.0)
    ensures var peak := if m.peak.Some? then Max(m.peak.value, s.price) else s.price;
      After(m, Job(s)) == m.(peak := Some(peak), triggered := m.triggered || s.price <= TrailTarget(peak, m.level))
  {
  }

  /** A newly set trailing stop has fired exactly when some price stood that far below the highest price up to it. */
  lemma {:induction false} TrailingStopWatchesDrawdown(r: Rule, ss: seq<Sight>)
    requires r.kind.TrailingStop? && Armed(r) && r.peak.None?
    requires forall i :: 0 <= i < |ss| ==> ss[i].price > 0.0
    ensures var a := AfterAll(r, Jobs(ss));
      && a.(peak := None, triggered := false) == r
      && (if ss == [] then a.peak == None else a.peak == Some(Peak(ss)) && Peak(ss) > 0.0)
      && (a.triggered == exists i :: 0 <= i < |ss| && Fallen(ss, r.level, i))
  {
    hide TrailTarget, After, Fallen;
    if ss != [] {
      var n := |ss| - 1;
      TrailingStopWatchesDrawdown(r, ss[..n]);
      assert Jobs(ss)[..n] == Jobs(ss[..n]);
      TrailStep(AfterAll(r, Jobs(ss[..n])), ss[n]);
      FallenByNow(ss, n, r.level);
      assert (exists i :: 0 <= i < n && Fallen(ss[..n], r.level, i)) ==>
        exists i :: 0 <= i < |ss| && Fallen(ss, r.level, i);
    }
  }

  lemma FallenByNow(ss: seq<Sight>, n: nat, level: real)
    requires |ss| == n + 1
    ensures Fallen(ss, level, n) == (ss[n].price <= TrailTarget(Peak(ss), level))
    ensures forall i :: 0 <= i < n ==> (Fallen(ss, level, i) == Fallen(ss[..n], level, i))
  {
    hide TrailTarget, Peak;
    assert ss[..|ss|] == ss;
    forall i | 0 <= i < n
      ensures Fallen(ss, level, i) == Fallen(ss[..n], level, i)
    {
      assert ss[..n][..i + 1] == ss[..i + 1];
    }
  }
}
