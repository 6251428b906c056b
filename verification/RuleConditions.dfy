/** At which prices and weights each rule fires, in numbers, over every run of evaluations. */
module RuleConditions {
  import opened Basics
  import opened TradingRules
  import opened RuleBook

  // ---------------------------------------------------------------- one-shot orders

  predicate Order(kind: RuleType) { kind.StopLoss? || kind.TakeProfit? || kind.BuyDip? }

  /** The price is at the order's level: down to a stop or a dip level, up to a positive profit level.  A level that
      is a percentage is measured from the cost, and without a cost there is none. */
  ghost predicate Reached(kind: RuleType, mode: Mode, level: real, s: Sight) {
    && s.price > 0.0
    && match kind
       case StopLoss =>
         if mode.AtPrice? then s.price <= level
         else s.cost != 0.0 && 100.0 * s.price <= (100.0 - Abs(level)) * s.cost
       case TakeProfit =>
         if mode.AtPrice? then level > 0.0 && s.price >= level
         else s.cost > 0.0 && 100.0 * s.price >= (100.0 + Abs(level)) * s.cost
       case BuyDip =>
         if mode.AtPrice? then s.price <= level
         else s.cost != 0.0 && 100.0 * s.price <= (100.0 - Abs(level)) * s.cost
       case _ => false
  }

  lemma PercentOf(cost: real, level: real, sign: real)
    ensures 100.0 * (cost * (1.0 + sign * level / 100.0)) == (100.0 + sign * level) * cost
  {
  }

  lemma UpIsPositive(cost: real, level: real)
    requires level >= 0.0
    ensures (100.0 + level) * cost > 0.0 <==> cost > 0.0
  {
  }

  lemma HitIsReached(r: Rule, s: Sight)
    requires Order(r.kind)
    ensures Hit(r, s) == Reached(r.kind, r.mode, r.level, s)
  {
    PercentOf(s.cost, Abs(r.level), -1.0);
    PercentOf(s.cost, Abs(r.level), 1.0);
    UpIsPositive(s.cost, Abs(r.level));
  }

  lemma OrderStep(m: Rule, s: Sight)
    requires Order(m.kind) && m.active
    ensures After(m, Job(s)) == m.(triggered := m.triggered || Reached(m.kind, m.mode, m.level, s))
    ensures FiresOn(m, Job(s)) == (!m.triggered && Reached(m.kind, m.mode, m.level, s))
  {
    hide Hit, Reached, ClearsWithMargin;
    HitIsReached(m, s);
  }

  /** A newly set stop, profit or dip order has triggered exactly when the price was at its level at some evaluation,
      and then has fired once; nothing else about it has changed. */
  lemma {:induction false} OrderTriggersIff(r: Rule, ss: seq<Sight>)
    requires Order(r.kind) && Armed(r)
    ensures var hit := exists i :: 0 <= i < |ss| && Reached(r.kind, r.mode, r.level, ss[i]);
      && AfterAll(r, Jobs(ss)) == r.(triggered := hit)
      && Firings(r, Jobs(ss)) == Count(hit)
  {
    hide After, FiresOn, Reached;
    if ss != [] {
      var n := |ss| - 1;
      OrderTriggersIff(r, ss[..n]);
      assert Jobs(ss)[..n] == Jobs(ss[..n]) && Jobs(ss)[n] == Job(ss[n]);
      OrderStep(AfterAll(r, Jobs(ss[..n])), ss[n]);
      assert forall i :: 0 <= i < n ==> ss[..n][i] == ss[i];
      if i :| 0 <= i < |ss[..n]| && Reached(r.kind, r.mode, r.level, ss[..n][i]) {
        assert Reached(r.kind, r.mode, r.level, ss[i]);
      }
    }
  }

  // ---------------------------------------------------------------- trailing stops

  /** One price stands a trail below another. */
  ghost predicate Fell(level: real, from: real, to: real) { 100.0 * to <= (100.0 - Abs(level)) * from }

  lemma TrailIsPercent(peak: real, price: real, level: real)
    ensures price <= TrailTarget(peak, level) <==> Fell(level, peak, price)
  {
    PercentOf(peak, Abs(level), -1.0);
  }

  lemma FellFromHigher(level: real, low: real, high: real, to: real)
    requires 0.0 < low <= high && to > 0.0 && Fell(level, low, to)
    ensures Fell(level, high, to)
  {
    var factor := 100.0 - Abs(level);
    hide Abs;
    if factor <= 0.0 {
      NoTrail(factor, low);
    } else {
      assert factor * low <= factor * high;
    }
  }

  lemma NoTrail(factor: real, price: real)
    requires factor <= 0.0 && price > 0.0
    ensures factor * price <= 0.0
  {
  }

  /** The peak is one of the prices, and no price is over it. */
  lemma {:induction false} PeakIs(ss: seq<Sight>)
    requires ss != []
    ensures exists j :: 0 <= j < |ss| && ss[j].price == Peak(ss)
    ensures forall j :: 0 <= j < |ss| ==> ss[j].price <= Peak(ss)
  {
    if |ss| == 1 {
      assert ss[0].price == Peak(ss);
    } else {
      var n := |ss| - 1;
      assert ss[n].price <= Peak(ss);
      PeakIs(ss[..n]);
      var j :| 0 <= j < n && ss[..n][j].price == Peak(ss[..n]);
      assert ss[j].price == Peak(ss[..n]);
      assert forall j :: 0 <= j < n ==> ss[j] == ss[..n][j];
    }
  }

  /** A newly set trailing stop has triggered exactly when some price stood a trail below the same or an earlier one. */
  lemma TrailingTriggersIff(r: Rule, ss: seq<Sight>)
    requires r.kind.TrailingStop? && Armed(r) && r.peak.None?
    requires forall i :: 0 <= i < |ss| ==> ss[i].price > 0.0
    ensures AfterAll(r, Jobs(ss)).triggered <==>
      exists j, i :: 0 <= j <= i < |ss| && Fell(r.level, ss[j].price, ss[i].price)
  {
    hide AfterAll, Fell, TrailTarget, Peak;
    TrailingStopWatchesDrawdown(r, ss);
    forall i | 0 <= i < |ss|
      ensures Fallen(ss, r.level, i) <==> exists j :: 0 <= j <= i && Fell(r.level, ss[j].price, ss[i].price)
    {
      var seen := ss[..i + 1];
      PeakIs(seen);
      TrailIsPercent(Peak(seen), ss[i].price, r.level);
      if j :| 0 <= j <= i && Fell(r.level, ss[j].price, ss[i].price) {
        FellFromHigher(r.level, seen[j].price, Peak(seen), ss[i].price);
      }
      if Fallen(ss, r.level, i) {
        var j :| 0 <= j < |seen| && seen[j].price == Peak(seen);
        assert Fell(r.level, ss[j].price, ss[i].price);
      }
    }
  }

  // ---------------------------------------------------------------- standing conditions

  /** Price alerts and weight caps. */
  predicate Alert(kind: RuleType) { kind.PriceAbove? || kind.PriceBelow? || kind.MaxWeight? }

  /** An alert's price, or a cap's weight, is at its level. */
  ghost predicate Stands(kind: RuleType, level: real, s: Sight) {
    && s.price > 0.0
    && match kind
       case PriceAbove => s.price >= level
       case PriceBelow => s.price <= level
       case MaxWeight => s.weight >= level
       case _ => false
  }

  /** It is not, and stands clear of it by the larger of half a point and 2.5% of it. */
  ghost predicate StandsClear(kind: RuleType, level: real, s: Sight) {
    var size := Abs(level);
    var margin := if size * 0.025 >= 0.5 then size * 0.025 else 0.5;
    && !Stands(kind, level, s)
    && match kind
       case PriceAbove => s.price <= size - margin
       case PriceBelow => s.price >= size + margin
       case MaxWeight => s.weight <= size - margin
       case _ => false
  }

  lemma StandingStep(m: Rule, s: Sight)
    requires Alert(m.kind) && m.active
    ensures After(m, Job(s)) ==
      m.(triggered := Stands(m.kind, m.level, s) || (m.triggered && !StandsClear(m.kind, m.level, s)))
    ensures FiresOn(m, Job(s)) == (!m.triggered && Stands(m.kind, m.level, s))
  {
  }

  /** At some evaluation it stood, and it has not stood clear since. */
  ghost predicate StoodSince(kind: RuleType, level: real, ss: seq<Sight>, i: nat)
    requires i < |ss|
  {
    Stands(kind, level, ss[i]) && forall j :: i < j < |ss| ==> !StandsClear(kind, level, ss[j])
  }

  /** An alert or a cap is on exactly while its value has been at its level and has not stood clear since, so it fires
      on each evaluation that finds it there having been clear, and on no other. */
  lemma {:induction false} StandingIsOnIff(r: Rule, ss: seq<Sight>)
    requires Alert(r.kind) && Armed(r)
    ensures AfterAll(r, Jobs(ss)) == r.(triggered := exists i :: 0 <= i < |ss| && StoodSince(r.kind, r.level, ss, i))
  {
    hide After, Stands, StandsClear;
    if ss != [] {
      var n := |ss| - 1;
      StandingIsOnIff(r, ss[..n]);
      assert Jobs(ss)[..n] == Jobs(ss[..n]) && Jobs(ss)[n] == Job(ss[n]);
      StandingStep(AfterAll(r, Jobs(ss[..n])), ss[n]);
      StoodNext(r.kind, r.level, ss);
    }
  }

  lemma StoodNext(kind: RuleType, level: real, ss: seq<Sight>)
    requires ss != []
    ensures var n := |ss| - 1;
      (exists i :: 0 <= i < |ss| && StoodSince(kind, level, ss, i)) <==>
        || Stands(kind, level, ss[n])
        || ((exists i :: 0 <= i < n && StoodSince(kind, level, ss[..n], i)) && !StandsClear(kind, level, ss[n]))
  {
    hide Stands, StandsClear;
    var n := |ss| - 1;
    assert StoodSince(kind, level, ss, n) <==> Stands(kind, level, ss[n]);
    forall i | 0 <= i < n
      ensures StoodSince(kind, level, ss, i) <==>
          StoodSince(kind, level, ss[..n], i) && !StandsClear(kind, level, ss[n])
    {
      assert forall j :: 0 <= j < n ==> ss[..n][j] == ss[j];
      if StoodSince(kind, level, ss, i) {
        assert forall j :: i < j < n ==> !StandsClear(kind, level, ss[j]);
      }
    }
  }

  /** Whatever has happened to it, a standing rule fires on an evaluation exactly when it is armed and its value is at
      its level then. */
  lemma StandingFiresIff(r: Rule, es: seq<Event>, s: Sight)
    requires Alert(r.kind)
    ensures var m := AfterAll(r, es); FiresOn(m, Job(s)) == (Armed(m) && Stands(r.kind, m.level, s))
  {
    hide After, AfterAll, FiresOn, Stands;
    KindStays(r, es);
    if AfterAll(r, es).active {
      StandingStep(AfterAll(r, es), s);
    } else {
      InactiveIsSilent(AfterAll(r, es), s);
    }
  }

  /** A rule that is off neither fires, nor latches, nor follows the price. */
  lemma InactiveIsSilent(m: Rule, s: Sight)
    requires !m.active
    ensures !FiresOn(m, Job(s)) && After(m, Job(s)) == m
  {
  }

  /** Showing a rule changes nothing but this: one that is on, has fired, and stands clear of its level is armed
      again. */
  lemma ScreenRearmsIff(m: Rule, s: Sight)
    ensures After(m, Screen(s)) ==
      m.(triggered := m.triggered && !(m.active && Alert(m.kind) && StandsClear(m.kind, m.level, s)))
    ensures !FiresOn(m, Screen(s))
  {
  }

  /** A rule given a new level while it is on is armed at that level: an order then triggers on the prices at the new
      level and on no other. */
  lemma RelevelledTriggersIff(r: Rule, level: real, mode: Mode, ss: seq<Sight>)
    requires r.active && Order(r.kind)
    ensures AfterAll(After(r, Relevel(level, mode)), Jobs(ss)) ==
      r.(level := level, mode := mode, triggered := exists i :: 0 <= i < |ss| && Reached(r.kind, mode, level, ss[i]))
  {
    hide Reached, Hit;
    OrderTriggersIff(After(r, Relevel(level, mode)), ss);
  }

  // ---------------------------------------------------------------- a subscription to a strategy

  /** A ticker's share of what a strategy holds. */
  function Allotted(held: map<Ticker, real>, tk: Ticker): real { if tk in held then held[tk] else 0.0 }

  /** The strategy just turned a ticker on for an entry, or off for an exit; a share of half a percent counts as
      none. */
  ghost predicate Turned(mode: Mode, f: Flip, tk: Ticker) {
    var now, was := Allotted(f.target, tk), Allotted(f.previous, tk);
    (mode.Entry? && now > 0.005 >= was) || (mode.Exit? && was > 0.005 >= now)
  }

  /** A subscription fires, once, exactly when it is on and the flip recorded for its strategy turned its ticker its
      way; nothing else about it ever changes, whether or not the ticker is held. */
  lemma SignalFiresIff(r: Rule, idx: Index, flips: Flips)
    requires r.kind.StrategySignal?
    ensures FiresIn(r, idx, flips) <==>
      && r.active && !r.triggered && r.strategy.Some? && r.strategy.value != "" && r.strategy.value in flips
      && Turned(r.mode, flips[r.strategy.value], r.ticker)
    ensures Evaluated(r, idx, flips) == r.(triggered := r.triggered || FiresIn(r, idx, flips))
  {
  }

  // ---------------------------------------------------------------- what a request arms

  /** A request arms a rule exactly unless it is a subscription that does not say what it follows and which way.  Alerts
      are read as prices, trails and caps as percentages, an order as a percentage unless it says price. */
  lemma RequestIff(q: Request)
    ensures RuleFor(q).None? <==>
      q.kind.StrategySignal? &&
      (q.strategy.None? || q.strategy.value == "" || (q.mode != Entry && q.mode != Exit))
    ensures RuleFor(q).Some? ==>
      var r := RuleFor(q).value;
      && Armed(r) && r.ticker == q.ticker && r.kind == q.kind && r.strategy == q.strategy && r.peak.None?
      && r.level == (if q.kind.StrategySignal? then 0.0 else q.level)
      && match q.kind
         case StrategySignal => r.mode == q.mode
         case PriceAbove => r.mode == AtPrice
         case PriceBelow => r.mode == AtPrice
         case TrailingStop => r.mode == Pct
         case MaxWeight => r.mode == Pct
         case _ => r.mode == if q.mode == AtPrice then AtPrice else Pct
  {
  }
}
