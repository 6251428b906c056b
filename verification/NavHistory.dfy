/** What the money actually did: returns chained across deposits and withdrawals. */
module NavHistory {
  import opened Basics

  /** Days are numbered; a ledger row may carry no date at all. */
  type Date = int

  datatype Flow = Flow(date: Option<Date>, amount: real)
  datatype Snapshot = Snapshot(date: Date, nav: real)

  predicate Within(f: Flow, after: Date, upto: Date) { f.date.Some? && after < f.date.value <= upto }

  /** External cash moved in the half-open window (after, upto]. */
  function NetFlow(flows: seq<Flow>, after: Date, upto: Date): real {
    if flows == [] then 0.0
    else
      var last := flows[|flows| - 1];
      NetFlow(flows[..|flows| - 1], after, upto) + (if Within(last, after, upto) then last.amount else 0.0)
  }

  method ComputeNetFlow(flows: seq<Flow>, after: Date, upto: Date) returns (total: real)
    ensures total == NetFlow(flows, after, upto)
  {
    total := 0.0;
    for k := 0 to |flows|
      invariant total == NetFlow(flows[..k], after, upto)
    {
      assert flows[..k + 1][..k] == flows[..k];
      var f := flows[k];
      if f.date.None? {
        continue;
      }
      if after < f.date.value && f.date.value <= upto {
        total := total + f.amount;
      }
    }
    assert flows[..|flows|] == flows;
  }

  /** The growth of one period, its flow taken to arrive at the end; a start that is not positive carries the level. */
  function PeriodFactor(v0: real, v1: real, flow: real): real {
    if v0 > 0.0 then 1.0 + ((v1 - flow) / v0 - 1.0) else 1.0
  }

  function FlowInto(ps: seq<Snapshot>, flows: seq<Flow>, i: nat): real
    requires 0 < i < |ps|
  {
    NetFlow(flows, ps[i - 1].date, ps[i].date)
  }

  function FactorAt(ps: seq<Snapshot>, flows: seq<Flow>, i: nat): real
    requires 0 < i < |ps|
  {
    PeriodFactor(ps[i - 1].nav, ps[i].nav, FlowInto(ps, flows, i))
  }

  function Chain(a: real, b: real): real { a * b }

  /** The product of the period factors from the first snapshot to the i-th. */
  function GrowthTo(ps: seq<Snapshot>, flows: seq<Flow>, i: nat): real
    requires i < |ps|
  {
    if i == 0 then 1.0 else Chain(GrowthTo(ps, flows, i - 1), FactorAt(ps, flows, i))
  }

  function FlowTo(ps: seq<Snapshot>, flows: seq<Flow>, i: nat): real
    requires i < |ps|
  {
    if i == 0 then 0.0 else FlowTo(ps, flows, i - 1) + FlowInto(ps, flows, i)
  }

  function Pct(growth: real): real { (growth - 1.0) * 100.0 }

  datatype Returns = Returns(pct: seq<real>, flows: seq<real>, totalPct: real, flowTotal: real)

  function TimeWeighted(ps: seq<Snapshot>, flows: seq<Flow>): Returns {
    if ps == [] then Returns([], [], 0.0, 0.0)
    else
      Returns(seq(|ps|, i requires 0 <= i < |ps| => Pct(GrowthTo(ps, flows, i))),
              seq(|ps|, i requires 0 <= i < |ps| => if i == 0 then 0.0 else FlowInto(ps, flows, i)),
              Pct(GrowthTo(ps, flows, |ps| - 1)), FlowTo(ps, flows, |ps| - 1))
  }

  /** One pass with the running product and the previous snapshot. */
  method ComputeTimeWeighted(ps: seq<Snapshot>, flows: seq<Flow>) returns (r: Returns)
    ensures r == TimeWeighted(ps, flows)
  {
    hide PeriodFactor, Pct, Chain, NetFlow;
    if ps == [] {
      return Returns([], [], 0.0, 0.0);
    }
    var cum, prev, pct, moved, total := 1.0, ps[0], [0.0], [0.0], 0.0;
    PctOfOne();
    for k := 1 to |ps|
      invariant prev == ps[k - 1] && cum == GrowthTo(ps, flows, k - 1) && total == FlowTo(ps, flows, k - 1)
      invariant |pct| == k && forall i :: 0 <= i < k ==> pct[i] == Pct(GrowthTo(ps, flows, i))
      invariant |moved| == k && forall i :: 0 <= i < k ==> moved[i] == if i == 0 then 0.0 else FlowInto(ps, flows, i)
    {
      var p := ps[k];
      var f := ComputeNetFlow(flows, prev.date, p.date);
      cum := Chain(cum, PeriodFactor(prev.nav, p.nav, f));
      pct, moved, total := pct + [Pct(cum)], moved + [f], total + f;
      prev := p;
    }
    r := Returns(pct, moved, pct[|pct| - 1], total);
  }

  lemma PctOfOne()
    ensures Pct(1.0) == 0.0
  {
  }

  /** Endpoint to endpoint, deposits included. */
  function SimpleChange(ps: seq<Snapshot>): real {
    if |ps| < 2 then 0.0 else if ps[0].nav > 0.0 then Pct(ps[|ps| - 1].nav / ps[0].nav) else 0.0
  }

  // ---------------------------------------------------------------- every flow is counted once

  lemma {:induction false} WindowsAdd(flows: seq<Flow>, a: Date, b: Date, c: Date)
    requires a <= b <= c
    ensures NetFlow(flows, a, b) + NetFlow(flows, b, c) == NetFlow(flows, a, c)
  {
    if flows != [] {
      WindowsAdd(flows[..|flows| - 1], a, b, c);
    }
  }

  lemma {:induction false} EmptyWindow(flows: seq<Flow>, a: Date)
    ensures NetFlow(flows, a, a) == 0.0
  {
    if flows != [] {
      EmptyWindow(flows[..|flows| - 1], a);
    }
  }

  ghost predicate InOrder(ps: seq<Snapshot>) { forall i, j :: 0 <= i < j < |ps| ==> ps[i].date < ps[j].date }

  /** Over snapshots in date order the windows' flows add up to the flow from the first date to the last, so each
      ledger row in between is counted exactly once and none on the first day is counted at all. */
  lemma {:induction false} FlowsCountedOnce(ps: seq<Snapshot>, flows: seq<Flow>, i: nat)
    requires i < |ps| && InOrder(ps)
    ensures FlowTo(ps, flows, i) == NetFlow(flows, ps[0].date, ps[i].date)
  {
    if i == 0 {
      EmptyWindow(flows, ps[0].date);
    } else {
      FlowsCountedOnce(ps, flows, i - 1);
      WindowsAdd(flows, ps[0].date, ps[i - 1].date, ps[i].date);
    }
  }

  // ---------------------------------------------------------------- deposits are not performance

  /** A market that multiplies what is there by a factor a period, and an owner who moves cash at each period's end. */
  ghost predicate GrownBy(ps: seq<Snapshot>, flows: seq<Flow>, market: seq<real>) {
    |market| == |ps| && forall i :: 0 < i < |ps| ==> GrownAt(ps, flows, market, i)
  }

  ghost predicate GrownAt(ps: seq<Snapshot>, flows: seq<Flow>, market: seq<real>, i: nat)
    requires 0 < i < |ps| && |market| == |ps|
  {
    ps[i - 1].nav > 0.0 && ps[i].nav == Chain(ps[i - 1].nav, market[i]) + FlowInto(ps, flows, i)
  }

  function Compounded(market: seq<real>, i: nat): real
    requires i < |market|
  {
    if i == 0 then 1.0 else Chain(Compounded(market, i - 1), market[i])
  }

  lemma FactorRecovered(v0: real, factor: real, flow: real)
    requires v0 > 0.0
    ensures PeriodFactor(v0, Chain(v0, factor) + flow, flow) == factor
  {
  }

  /** The chained return is the market's alone: whatever was paid in or taken out, and whenever, it is the compound of
      what the market did. */
  lemma {:induction false} ReturnIsTheMarkets(ps: seq<Snapshot>, flows: seq<Flow>, market: seq<real>, i: nat)
    requires i < |ps| && GrownBy(ps, flows, market)
    ensures GrowthTo(ps, flows, i) == Compounded(market, i)
  {
    hide Chain, PeriodFactor;
    if i > 0 {
      ReturnIsTheMarkets(ps, flows, market, i - 1);
      assert GrownAt(ps, flows, market, i);
      FactorRecovered(ps[i - 1].nav, market[i], FlowInto(ps, flows, i));
    }
  }

  /** So two owners in the same market earn the same, whatever either pays in. */
  lemma SameMarketSameReturn(ps: seq<Snapshot>, qs: seq<Snapshot>, a: seq<Flow>, b: seq<Flow>, market: seq<real>)
    requires ps != [] && |qs| == |ps| && GrownBy(ps, a, market) && GrownBy(qs, b, market)
    ensures TimeWeighted(ps, a).totalPct == TimeWeighted(qs, b).totalPct &&
        TimeWeighted(ps, a).pct == TimeWeighted(qs, b).pct
  {
    hide GrowthTo, Compounded, GrownBy, Pct;
    forall i | 0 <= i < |ps|
      ensures GrowthTo(ps, a, i) == GrowthTo(qs, b, i)
    {
      ReturnIsTheMarkets(ps, a, market, i);
      ReturnIsTheMarkets(qs, b, market, i);
    }
  }

  /** In percent, at every snapshot and in total. */
  lemma ReportedIsTheMarkets(ps: seq<Snapshot>, flows: seq<Flow>, market: seq<real>, i: nat)
    requires i < |ps| && GrownBy(ps, flows, market)
    ensures var r := TimeWeighted(ps, flows);
      && |r.pct| == |ps| && r.pct[i] == 100.0 * Compounded(market, i) - 100.0 && r.totalPct == r.pct[|ps| - 1]
  {
    hide GrowthTo, Compounded, GrownBy;
    ReturnIsTheMarkets(ps, flows, market, i);
  }

  /** The endpoint figure is the change in percent of where it started, and nothing without two snapshots or a start. */
  lemma SimpleChangeIs(ps: seq<Snapshot>)
    ensures |ps| < 2 || ps[0].nav <= 0.0 ==> SimpleChange(ps) == 0.0
    ensures |ps| >= 2 && ps[0].nav > 0.0 ==>
      Chain(SimpleChange(ps), ps[0].nav) == 100.0 * (ps[|ps| - 1].nav - ps[0].nav)
  {
    if |ps| >= 2 && ps[0].nav > 0.0 {
      var q := ps[|ps| - 1].nav / ps[0].nav;
      assert q * ps[0].nav == ps[|ps| - 1].nav;
    }
  }

  /** When every change of value is a flow, nothing was earned. */
  lemma {:induction false} PureFlowsEarnNothing(ps: seq<Snapshot>, flows: seq<Flow>, i: nat)
    requires i < |ps| && forall k :: 0 < k < |ps| ==> ps[k].nav == ps[k - 1].nav + FlowInto(ps, flows, k)
    ensures GrowthTo(ps, flows, i) == 1.0
  {
    hide FlowInto;
    if i > 0 {
      PureFlowsEarnNothing(ps, flows, i - 1);
      if ps[i - 1].nav > 0.0 {
        SelfQuotient(ps[i - 1].nav);
      }
    }
  }

  lemma SelfQuotient(x: real)
    requires x > 0.0
    ensures x / x == 1.0
  {
  }

  /** With no flows the chain telescopes to the endpoint change. */
  lemma {:induction false} NoFlowsTelescopes(ps: seq<Snapshot>, flows: seq<Flow>, i: nat)
    requires i < |ps| && forall k :: 0 <= k < |ps| ==> ps[k].nav > 0.0
    requires forall k :: 0 < k < |ps| ==> FlowInto(ps, flows, k) == 0.0
    ensures GrowthTo(ps, flows, i) == ps[i].nav / ps[0].nav
  {
    hide FlowInto, Chain;
    if i == 0 {
      SelfQuotient(ps[0].nav);
    } else {
      NoFlowsTelescopes(ps, flows, i - 1);
      QuotientsChain(ps[0].nav, ps[i - 1].nav, ps[i].nav);
    }
  }

  lemma QuotientsChain(a: real, b: real, c: real)
    requires a > 0.0 && b > 0.0
    ensures Chain(b / a, 1.0 + (c / b - 1.0)) == c / a
  {
  }

  lemma WithoutFlowsBothAgree(ps: seq<Snapshot>, flows: seq<Flow>)
    requires |ps| >= 2 && forall k :: 0 <= k < |ps| ==> ps[k].nav > 0.0
    requires forall k :: 0 < k < |ps| ==> FlowInto(ps, flows, k) == 0.0
    ensures TimeWeighted(ps, flows).totalPct == SimpleChange(ps)
  {
    hide FlowInto, Pct, GrowthTo;
    NoFlowsTelescopes(ps, flows, |ps| - 1);
  }

  // ---------------------------------------------------------------- splitting a series

  lemma {:induction false} TailGrowth(ps: seq<Snapshot>, flows: seq<Flow>, k: nat, i: nat)
    requires k + i < |ps|
    ensures GrowthTo(ps, flows, k + i) == Chain(GrowthTo(ps, flows, k), GrowthTo(ps[k..], flows, i))
    decreases i
  {
    hide PeriodFactor, NetFlow, Chain;
    if i == 0 {
      ChainLaws(GrowthTo(ps, flows, k), 1.0, 1.0);
    } else {
      TailGrowth(ps, flows, k, i - 1);
      ChainLaws(GrowthTo(ps, flows, k), GrowthTo(ps[k..], flows, i - 1), FactorAt(ps, flows, k + i));
      assert ps[k..][i - 1] == ps[k + i - 1] && ps[k..][i] == ps[k + i];
    }
  }

  lemma ChainLaws(a: real, b: real, c: real)
    ensures Chain(Chain(a, b), c) == Chain(a, Chain(b, c)) && Chain(a, 1.0) == a
  {
  }

  lemma {:induction false} PrefixGrowth(ps: seq<Snapshot>, flows: seq<Flow>, k: nat, i: nat)
    requires i <= k < |ps|
    ensures GrowthTo(ps[..k + 1], flows, i) == GrowthTo(ps, flows, i)
  {
    hide PeriodFactor, NetFlow, Chain;
    if i > 0 {
      PrefixGrowth(ps, flows, k, i - 1);
    }
  }

  /** Cut at any shared snapshot, the growth of the two pieces multiplies to the growth of the whole. */
  lemma SplitMultiplies(ps: seq<Snapshot>, flows: seq<Flow>, k: nat)
    requires k < |ps|
    ensures GrowthTo(ps, flows, |ps| - 1)
        == Chain(GrowthTo(ps[..k + 1], flows, k), GrowthTo(ps[k..], flows, |ps| - 1 - k))
  {
    PrefixGrowth(ps, flows, k, k);
    TailGrowth(ps, flows, k, |ps| - 1 - k);
  }

  // ---------------------------------------------------------------- the figure a deposit inflates

  lemma {:induction false} DepositsFlatterTo(ps: seq<Snapshot>, flows: seq<Flow>, market: seq<real>, i: nat)
    requires i < |ps| && GrownBy(ps, flows, market) && ps[0].nav > 0.0
    requires forall k :: 0 < k < |ps| ==> market[k] >= 0.0 && FlowInto(ps, flows, k) >= 0.0
    ensures ps[i].nav >= Chain(ps[0].nav, Compounded(market, i)) && Compounded(market, i) >= 0.0
  {
    hide FlowInto, Chain;
    if i == 0 {
      ChainLaws(ps[0].nav, 1.0, 1.0);
    } else {
      DepositsFlatterTo(ps, flows, market, i - 1);
      assert GrownAt(ps, flows, market, i);
      ChainMonotone(Chain(ps[0].nav, Compounded(market, i - 1)), ps[i - 1].nav, market[i]);
      ChainMonotone(0.0, Compounded(market, i - 1), market[i]);
      ChainLaws(ps[0].nav, Compounded(market, i - 1), market[i]);
    }
  }

  lemma ChainMonotone(a: real, b: real, c: real)
    requires a <= b && c >= 0.0
    ensures Chain(a, c) <= Chain(b, c) && Chain(0.0, c) == 0.0
  {
  }

  /** When only deposits were made, the endpoint figure never reads below the time-weighted one: it errs in the
      flattering direction. */
  lemma DepositsFlatter(ps: seq<Snapshot>, flows: seq<Flow>, market: seq<real>)
    requires |ps| >= 2 && GrownBy(ps, flows, market) && ps[0].nav > 0.0
    requires forall k :: 0 < k < |ps| ==> market[k] >= 0.0 && FlowInto(ps, flows, k) >= 0.0
    ensures SimpleChange(ps) >= TimeWeighted(ps, flows).totalPct
  {
    hide FlowInto, Chain, Compounded, GrowthTo, GrownAt;
    DepositsFlatterTo(ps, flows, market, |ps| - 1);
    ReturnIsTheMarkets(ps, flows, market, |ps| - 1);
    QuotientAtLeast(ps[|ps| - 1].nav, ps[0].nav, Compounded(market, |ps| - 1));
  }

  lemma ScaleReflects(a: real, b: real, y: real)
    requires y > 0.0 && a * y >= b * y
    ensures a >= b
  {
    assert (a - b) * y >= 0.0;
  }

  lemma QuotientAtLeast(x: real, y: real, c: real)
    requires y > 0.0 && x >= Chain(y, c)
    ensures x / y >= c
  {
    var ratio := x / y;
    assert ratio * y == x;
    ScaleReflects(ratio, c, y);
  }
}
