/** A book of several sleeves: one target a day, the weighted sum of the sleeves' own. */
module Blend {
  import opened Basics
  import opened Simulator
  import opened Overlays
  import opened Regime
  import opened Causality
  import opened Lookahead
  import opened Backtest

  datatype Sleeve = Sleeve(spec: Strategy, weight: real)

  function Scaled(w: real, x: real): real { w * x }

  /** One sleeve's target added to a row, its share of the book applied; zero weights are skipped. */
  function AddPart(row: Target, part: Target, w: real): Target
    decreases |part|
  {
    if part == [] then row
    else
      var leg := part[0];
      AddPart(if leg.weight == 0.0 then row
              else Put(row, leg.ticker, Weight(row, leg.ticker) + Scaled(w, leg.weight)), part[1..], w)
  }

  function BlendRow(parts: seq<Target>, ws: seq<real>): Target
    requires |ws| == |parts|
  {
    if parts == [] then []
    else AddPart(BlendRow(parts[..|parts| - 1], ws[..|ws| - 1]), parts[|parts| - 1], ws[|ws| - 1])
  }

  predicate Aligned(components: seq<seq<Target>>, days: nat) {
    forall c :: 0 <= c < |components| ==> |components[c]| == days
  }

  function PartsOn(components: seq<seq<Target>>, days: nat, i: nat): (parts: seq<Target>)
    requires Aligned(components, days) && i < days
    ensures |parts| == |components| && forall c :: 0 <= c < |components| ==> parts[c] == components[c][i]
  {
    seq(|components|, c requires 0 <= c < |components| => components[c][i])
  }

  function BlendTargets(components: seq<seq<Target>>, ws: seq<real>, days: nat): (r: seq<Target>)
    requires |ws| == |components| && Aligned(components, days)
    ensures |r| == (if components == [] then 0 else days)
    ensures forall i :: 0 <= i < |r| ==> r[i] == BlendRow(PartsOn(components, days, i), ws)
  {
    seq(if components == [] then 0 else days, i requires 0 <= i < days => BlendRow(PartsOn(components, days, i), ws))
  }

  /** The three loops: days, sleeves, and the tickers each sleeve holds. */
  method ComputeBlend(components: seq<seq<Target>>, ws: seq<real>, days: nat) returns (out: seq<Target>)
    requires |ws| == |components| && Aligned(components, days)
    ensures out == BlendTargets(components, ws, days)
  {
    hide Put, Weight, Scaled;
    out := [];
    if components == [] {
      return;
    }
    for i := 0 to days
      invariant |out| == i && forall k :: 0 <= k < i ==> out[k] == BlendRow(PartsOn(components, days, k), ws)
    {
      ghost var parts := PartsOn(components, days, i);
      var row: Target := [];
      for c := 0 to |components|
        invariant row == BlendRow(parts[..c], ws[..c])
      {
        assert parts[..c + 1][..c] == parts[..c] && ws[..c + 1][..c] == ws[..c];
        var part, w := components[c][i], ws[c];
        ghost var start := row;
        for k := 0 to |part|
          invariant AddPart(start, part, w) == AddPart(row, part[k..], w)
        {
          var leg := part[k];
          assert part[k..][1..] == part[k + 1..];
          if leg.weight != 0.0 {
            row := Put(row, leg.ticker, Weight(row, leg.ticker) + Scaled(w, leg.weight));
          }
        }
        assert part[|part|..] == [];
      }
      assert parts[..|components|] == parts && ws[..|components|] == ws;
      out := out + [row];
    }
  }

  // ---------------------------------------------------------------- sleeves wanting one ticker share one position

  /** All of a target's weight on one ticker. */
  function Claim(t: Target, tk: Ticker): real {
    if t == [] then 0.0 else (if t[0].ticker == tk then t[0].weight else 0.0) + Claim(t[1..], tk)
  }

  function SumOfClaims(parts: seq<Target>, ws: seq<real>, tk: Ticker): real
    requires |ws| == |parts|
  {
    if parts == [] then 0.0
    else SumOfClaims(parts[..|parts| - 1], ws[..|ws| - 1], tk) + Scaled(ws[|ws| - 1], Claim(parts[|parts| - 1], tk))
  }

  lemma {:induction false} WeightAfterPut(t: Target, at: Ticker, w: real, tk: Ticker)
    ensures Weight(Put(t, at, w), tk) == if tk == at then w else Weight(t, tk)
  {
    if t != [] && t[0].ticker != at {
      WeightAfterPut(t[1..], at, w, tk);
    }
  }

  lemma ScaledSums(w: real, x: real, y: real)
    ensures Scaled(w, x + y) == Scaled(w, x) + Scaled(w, y) && Scaled(w, 0.0) == 0.0
  {
  }

  lemma {:induction false} PartAdds(row: Target, part: Target, w: real, tk: Ticker)
    ensures Weight(AddPart(row, part, w), tk) == Weight(row, tk) + Scaled(w, Claim(part, tk))
    decreases |part|
  {
    hide Put, Weight, Scaled;
    ScaledSums(w, 0.0, 0.0);
    if part != [] {
      var leg := part[0];
      var next := Put(row, leg.ticker, Weight(row, leg.ticker) + Scaled(w, leg.weight));
      WeightAfterPut(row, leg.ticker, Weight(row, leg.ticker) + Scaled(w, leg.weight), tk);
      PartAdds(if leg.weight == 0.0 then row else next, part[1..], w, tk);
      ScaledSums(w, if leg.ticker == tk then leg.weight else 0.0, Claim(part[1..], tk));
    }
  }

  /** A ticker's weight in the blend is the sum of what every sleeve puts on it, each scaled by its share. */
  lemma {:induction false} BlendAddsClaims(parts: seq<Target>, ws: seq<real>, tk: Ticker)
    requires |ws| == |parts|
    ensures Weight(BlendRow(parts, ws), tk) == SumOfClaims(parts, ws, tk)
  {
    hide Scaled, Claim;
    if parts != [] {
      BlendAddsClaims(parts[..|parts| - 1], ws[..|ws| - 1], tk);
      PartAdds(BlendRow(parts[..|parts| - 1], ws[..|ws| - 1]), parts[|parts| - 1], ws[|ws| - 1], tk);
    }
  }

  // ---------------------------------------------------------------- what no sleeve claims stays in cash

  function Allocated(t: Target): real { if t == [] then 0.0 else t[0].weight + Allocated(t[1..]) }

  function Sum(ws: seq<real>): real { if ws == [] then 0.0 else Sum(ws[..|ws| - 1]) + ws[|ws| - 1] }

  lemma {:induction false} PutAllocates(t: Target, at: Ticker, x: real)
    ensures Allocated(Put(t, at, Weight(t, at) + x)) == Allocated(t) + x
  {
    if t != [] && t[0].ticker != at {
      PutAllocates(t[1..], at, x);
    }
  }

  lemma {:induction false} PartAllocates(row: Target, part: Target, w: real)
    ensures Allocated(AddPart(row, part, w)) == Allocated(row) + Scaled(w, Allocated(part))
    decreases |part|
  {
    hide Put, Weight, Scaled;
    ScaledSums(w, 0.0, 0.0);
    if part != [] {
      var leg := part[0];
      PutAllocates(row, leg.ticker, Scaled(w, leg.weight));
      PartAllocates(if leg.weight == 0.0 then row
                    else Put(row, leg.ticker, Weight(row, leg.ticker) + Scaled(w, leg.weight)), part[1..], w);
      ScaledSums(w, leg.weight, Allocated(part[1..]));
    }
  }

  lemma ScaledAtMost(w: real, x: real)
    requires w >= 0.0 && x <= 1.0
    ensures Scaled(w, x) <= w
  {
  }

  /** Sleeves that never ask for more than their own money never ask for more than their shares together: the blend
      cannot lever the book, and what they leave is cash. */
  lemma {:induction false} BlendStaysInside(parts: seq<Target>, ws: seq<real>)
    requires |ws| == |parts| && forall c :: 0 <= c < |parts| ==> ws[c] >= 0.0 && Allocated(parts[c]) <= 1.0
    ensures Allocated(BlendRow(parts, ws)) <= Sum(ws)
  {
    hide Scaled, Allocated;
    if parts == [] {
      NothingAllocated();
    } else {
      var n := |parts| - 1;
      BlendStaysInside(parts[..n], ws[..n]);
      PartAllocates(BlendRow(parts[..n], ws[..n]), parts[n], ws[n]);
      ScaledAtMost(ws[n], Allocated(parts[n]));
    }
  }

  lemma NothingAllocated()
    ensures Allocated([]) == 0.0
  {
  }

  // ---------------------------------------------------------------- a blended book does not look ahead either

  ghost predicate AllReady(h: History, sleeves: seq<Sleeve>) {
    h.days > 0 && forall c :: 0 <= c < |sleeves| ==> Ready(h, sleeves[c].spec, false)
  }

  lemma ReadySupplies(h: History, sleeves: seq<Sleeve>)
    requires AllReady(h, sleeves)
    ensures forall c :: 0 <= c < |sleeves| ==> Supplied(h, sleeves[c].spec)
  {
  }

  /** Each sleeve's own targets, or nothing when one of them abstains. */
  function Components(h: History, sleeves: seq<Sleeve>, num: Numerics): Option<seq<seq<Target>>>
    requires forall c :: 0 <= c < |sleeves| ==> Supplied(h, sleeves[c].spec)
  {
    if sleeves == [] then Some([])
    else
      var rest := Components(h, sleeves[..|sleeves| - 1], num);
      var last := TargetsFor(h, sleeves[|sleeves| - 1].spec, num);
      if rest.None? || last.Abstain? then None else Some(rest.value + [last.daily])
  }

  function Shares(sleeves: seq<Sleeve>): (ws: seq<real>)
    ensures |ws| == |sleeves| && forall c :: 0 <= c < |sleeves| ==> ws[c] == sleeves[c].weight
  {
    seq(|sleeves|, c requires 0 <= c < |sleeves| => sleeves[c].weight)
  }

  /** Two lists of sleeve targets that agree, day by day, up to and including day k. */
  ghost predicate SameStart(a: seq<seq<Target>>, b: seq<seq<Target>>, k: nat) {
    |a| == |b| && forall c :: 0 <= c < |a| ==> |a[c]| > k && |b[c]| > k && a[c][..k + 1] == b[c][..k + 1]
  }

  lemma OneComponent(a: History, b: History, s: Strategy, num: Numerics, spread: Spread, t: Terms, k: nat)
    requires Ready(a, s, false) && Ready(b, s, false) && k < a.days && k < b.days && SameDays(a, b, k + 1)
    ensures Supplied(a, s) && Supplied(b, s)
    ensures var p, q := TargetsFor(a, s, num), TargetsFor(b, s, num);
      && p.Abstain? == q.Abstain?
      && (p.Targets? ==> |p.daily| == a.days && |q.daily| == b.days && p.daily[..k + 1] == q.daily[..k + 1]
                         && Covers(a.px, p.daily) && Covers(b.px, q.daily))
  {
    hide TargetsFor, Covers, After, ValueOn;
    NoLookahead(a, b, s, num, spread, false, t, k);
  }

  /** The sleeves' targets agree through day k and name only tickers with a close on every day. */
  ghost predicate Twins(a: History, b: History, p: seq<seq<Target>>, q: seq<seq<Target>>, k: nat) {
    && Aligned(p, a.days) && Aligned(q, b.days) && SameStart(p, q, k)
    && forall c :: 0 <= c < |p| ==> Covers(a.px, p[c]) && Covers(b.px, q[c])
  }

  lemma TwinsAppend(a: History, b: History, p: seq<seq<Target>>, q: seq<seq<Target>>, x: seq<Target>, y: seq<Target>,
                    k: nat)
    requires Twins(a, b, p, q, k) && |x| == a.days && |y| == b.days && k < |x| && k < |y| && x[..k + 1] == y[..k + 1]
    requires Covers(a.px, x) && Covers(b.px, y)
    ensures Twins(a, b, p + [x], q + [y], k)
  {
  }

  lemma {:induction false} ComponentsSameStart(a: History, b: History, sleeves: seq<Sleeve>, num: Numerics,
                                               spread: Spread, t: Terms, k: nat)
    requires AllReady(a, sleeves) && AllReady(b, sleeves) && k < a.days && k < b.days && SameDays(a, b, k + 1)
    ensures (forall c :: 0 <= c < |sleeves| ==> Supplied(a, sleeves[c].spec) && Supplied(b, sleeves[c].spec))
    ensures var p, q := Components(a, sleeves, num), Components(b, sleeves, num);
      p.Some? == q.Some? && (p.Some? ==> |p.value| == |sleeves| && Twins(a, b, p.value, q.value, k))
  {
    hide TargetsFor, SameDays, Ready, Supplied, Twins;
    ReadySupplies(a, sleeves);
    ReadySupplies(b, sleeves);
    if sleeves == [] {
      NoTwins(a, b, k);
    } else {
      var n := |sleeves| - 1;
      ComponentsSameStart(a, b, sleeves[..n], num, spread, t, k);
      OneComponent(a, b, sleeves[n].spec, num, spread, t, k);
      var p, q := Components(a, sleeves[..n], num), Components(b, sleeves[..n], num);
      var x, y := TargetsFor(a, sleeves[n].spec, num), TargetsFor(b, sleeves[n].spec, num);
      if p.Some? && x.Targets? {
        TwinsAppend(a, b, p.value, q.value, x.daily, y.daily, k);
      }
    }
  }

  lemma NoTwins(a: History, b: History, k: nat)
    ensures Twins(a, b, [], [], k)
  {
  }

  lemma {:induction false} PartWithin(row: Target, part: Target, w: real, tks: set<Ticker>)
    requires Within(row, tks) && Within(part, tks)
    ensures Within(AddPart(row, part, w), tks)
    decreases |part|
  {
    if part != [] {
      var leg := part[0];
      assert leg in part;
      PutWithin(row, leg.ticker, Weight(row, leg.ticker) + Scaled(w, leg.weight), tks);
      PartWithin(if leg.weight == 0.0 then row
                 else Put(row, leg.ticker, Weight(row, leg.ticker) + Scaled(w, leg.weight)), part[1..], w, tks);
    }
  }

  lemma {:induction false} RowWithin(parts: seq<Target>, ws: seq<real>, tks: set<Ticker>)
    requires |ws| == |parts| && forall c :: 0 <= c < |parts| ==> Within(parts[c], tks)
    ensures Within(BlendRow(parts, ws), tks)
  {
    hide Within, AddPart;
    if parts == [] {
      NothingWithin(tks);
    } else {
      RowWithin(parts[..|parts| - 1], ws[..|ws| - 1], tks);
      PartWithin(BlendRow(parts[..|parts| - 1], ws[..|ws| - 1]), parts[|parts| - 1], ws[|ws| - 1], tks);
    }
  }

  lemma NothingWithin(tks: set<Ticker>)
    ensures Within([], tks)
  {
  }

  lemma BlendIsCovered(h: History, components: seq<seq<Target>>, ws: seq<real>)
    requires |ws| == |components| && Aligned(components, h.days) && forall c :: 0 <= c < |components| ==>
        Covers(h.px, components[c])
    ensures Covers(h.px, BlendTargets(components, ws, h.days))
  {
    hide BlendRow, BlendTargets;
    var r := BlendTargets(components, ws, h.days);
    forall i | 0 <= i < |r|
      ensures Within(r[i], h.px.Keys)
    {
      var parts := PartsOn(components, h.days, i);
      forall c | 0 <= c < |parts|
        ensures Within(parts[c], h.px.Keys)
      {
        assert parts[c] in components[c];
      }
      RowWithin(parts, ws, h.px.Keys);
    }
    forall target | target in r
      ensures Within(target, h.px.Keys)
    {
    }
  }

  lemma BlendSameStart(a: seq<seq<Target>>, b: seq<seq<Target>>, ws: seq<real>, m: nat, n: nat, k: nat)
    requires |ws| == |a| && Aligned(a, m) && Aligned(b, n) && k < m && k < n && SameStart(a, b, k) && a != []
    ensures BlendTargets(a, ws, m)[..k + 1] == BlendTargets(b, ws, n)[..k + 1]
  {
    hide BlendRow, BlendTargets;
    forall i | 0 <= i <= k
      ensures BlendTargets(a, ws, m)[i] == BlendTargets(b, ws, n)[i]
    {
      forall c | 0 <= c < |a|
        ensures a[c][i] == b[c][i]
      {
        assert a[c][..k + 1][i] == b[c][..k + 1][i];
      }
      assert PartsOn(a, m, i) == PartsOn(b, n, i);
    }
  }

  /** Blending sleeves adds no foresight: two histories that agree through day k abstain together or give the blended
      book the same targets and the same value on every day through k. */
  lemma BlendNoLookahead(a: History, b: History, sleeves: seq<Sleeve>, num: Numerics, spread: Spread, t: Terms, k: nat)
    requires sleeves != [] && AllReady(a, sleeves) && AllReady(b, sleeves) && k < a.days && k < b.days &&
        SameDays(a, b, k + 1)
    ensures forall c :: 0 <= c < |sleeves| ==> Supplied(a, sleeves[c].spec) && Supplied(b, sleeves[c].spec)
    ensures var p, q := Components(a, sleeves, num), Components(b, sleeves, num);
      && p.Some? == q.Some?
      && (p.Some? ==>
            && |p.value| == |sleeves| == |q.value| && Aligned(p.value, a.days) && Aligned(q.value, b.days)
            && var x, y := BlendTargets(p.value, Shares(sleeves), a.days),
                 BlendTargets(q.value, Shares(sleeves), b.days);
               && x[..k + 1] == y[..k + 1] && Covers(a.px, x) && Covers(b.px, y)
               && forall day: nat :: day <= k ==> ValueOn(a.px, x, t, day) == ValueOn(b.px, y, t, day))
  {
    hide Components, Covers, ValueOn, BlendTargets, SameDays, Ready, Supplied;
    ComponentsSameStart(a, b, sleeves, num, spread, t, k);
    var p, q, ws := Components(a, sleeves, num), Components(b, sleeves, num), Shares(sleeves);
    if p.Some? {
      BlendIsCovered(a, p.value, ws);
      BlendIsCovered(b, q.value, ws);
      BlendSameStart(p.value, q.value, ws, a.days, b.days, k);
      ValuesAgree(a, b, BlendTargets(p.value, ws, a.days), BlendTargets(q.value, ws, b.days), t, k);
    }
  }

  lemma ValuesAgree(a: History, b: History, x: seq<Target>, y: seq<Target>, t: Terms, k: nat)
    requires SameDays(a, b, k + 1) && Covers(a.px, x) && Covers(b.px, y) && |x| == a.days && |y| == b.days
    requires k < |x| && k < |y| && x[..k + 1] == y[..k + 1]
    ensures forall day: nat :: day <= k ==> ValueOn(a.px, x, t, day) == ValueOn(b.px, y, t, day)
  {
    hide ValueOn, Covers;
    SameDaysSameQuotes(a, b, k + 1);
    forall day: nat | day <= k
      ensures ValueOn(a.px, x, t, day) == ValueOn(b.px, y, t, day)
    {
      var n := if day == 0 then 0 else day - 1;
      assert x[..n] == x[..k + 1][..n] && y[..n] == y[..k + 1][..n];
      ValueIsCausal(a.px, b.px, x, y, t, day);
    }
  }
}
