/** Accepting a solved set of sizes: an ordered write plan, its execution against the book, and its undo. */
module TargetApply {
  import opened Basics
  import opened SleeveBook

  datatype Resize = Resize(id: Id, from: int, to: int)

  datatype PlanRefusal = NO_ID | NEGATIVE | NOTHING | TWICE | OVER_CEILING | NO_ORDER
  datatype Plan = Refused(why: PlanRefusal) | Accepted(steps: seq<Resize>, totals: seq<int>, finalTotal: int)

  // ---------------------------------------------------------------- planning

  function FirstFault(rs: seq<Resize>): (r: Option<PlanRefusal>)
    ensures r.Some? ==> r.value == NO_ID || r.value == NEGATIVE
  {
    if rs == [] then None
    else if rs[0].id == "" then Some(NO_ID)
    else if rs[0].to < 0 then Some(NEGATIVE)
    else FirstFault(rs[1..])
  }

  predicate Repeats(rs: seq<Resize>) {
    exists i, j :: 0 <= i < j < |rs| && rs[i].id == rs[j].id
  }

  function SumFrom(rs: seq<Resize>): int {
    if rs == [] then 0 else rs[0].from + SumFrom(rs[1..])
  }

  function SumTo(rs: seq<Resize>): int {
    if rs == [] then 0 else rs[0].to + SumTo(rs[1..])
  }

  function Downs(rs: seq<Resize>): seq<Resize> {
    if rs == [] then [] else if rs[0].to < rs[0].from then [rs[0]] + Downs(rs[1..]) else Downs(rs[1..])
  }

  function Ups(rs: seq<Resize>): seq<Resize> {
    if rs == [] then [] else if rs[0].to > rs[0].from then [rs[0]] + Ups(rs[1..]) else Ups(rs[1..])
  }

  function InsertByTo(x: Resize, rs: seq<Resize>): seq<Resize> {
    if rs == [] || x.to <= rs[0].to then [x] + rs else [rs[0]] + InsertByTo(x, rs[1..])
  }

  /** Smallest target first; equal targets keep their order. */
  function SortByTo(rs: seq<Resize>): seq<Resize> {
    if rs == [] then [] else InsertByTo(rs[0], SortByTo(rs[1..]))
  }

  /** Decreases and removals first, then increases; unchanged sleeves take no step. */
  function Ordered(rs: seq<Resize>): seq<Resize> {
    SortByTo(Downs(rs)) + SortByTo(Ups(rs))
  }

  /** The book's total after each step, from a starting total. */
  function Totals(start: int, steps: seq<Resize>): (r: seq<int>)
    ensures |r| == |steps|
    decreases |steps|
  {
    if steps == [] then []
    else [start - steps[0].from + steps[0].to] + Totals(start - steps[0].from + steps[0].to, steps[1..])
  }

  predicate AllAtMost(ts: seq<int>, limit: int) {
    forall t :: t in ts ==> t <= limit
  }

  /** What may be invested beside a cash floor; a floor below nothing is none. */
  function Limit(floor: int): (limit: int)
    ensures limit <= 10005 && limit <= 10005 - floor && (limit == 10005 || limit == 10005 - floor)
  {
    BOOK - (if floor > 0 then floor else 0) + EPSILON
  }

  function PlanApply(rs: seq<Resize>, floor: int): Plan {
    if FirstFault(rs).Some? then Refused(FirstFault(rs).value)
    else if rs == [] then Refused(NOTHING)
    else if Repeats(rs) then Refused(TWICE)
    else if SumTo(rs) > Limit(floor) then Refused(OVER_CEILING)
    else
      var steps := Ordered(rs);
      var totals := Totals(SumFrom(rs), steps);
      if AllAtMost(totals, Limit(floor)) then Accepted(steps, totals, SumTo(rs)) else Refused(NO_ORDER)
  }

  method FindRepeat(rs: seq<Resize>) returns (found: bool)
    ensures found == Repeats(rs)
  {
    var seen: set<Id> := {};
    for i := 0 to |rs|
      invariant forall id :: id in seen <==> exists j :: 0 <= j < i && rs[j].id == id
      invariant forall j, k :: 0 <= j < k < i ==> rs[j].id != rs[k].id
    {
      if rs[i].id in seen {
        return true;
      }
      seen := seen + {rs[i].id};
    }
    return false;
  }

  /** Walk the ordered steps with a running total; stop at the first one above the limit. */
  method Walk(start: int, steps: seq<Resize>, limit: int) returns (ok: bool, totals: seq<int>)
    ensures ok == AllAtMost(Totals(start, steps), limit)
    ensures ok ==> totals == Totals(start, steps)
  {
    var running := start;
    totals := [];
    for k := 0 to |steps|
      invariant totals + Totals(running, steps[k..]) == Totals(start, steps)
      invariant AllAtMost(totals, limit)
    {
      ghost var rest := Totals(running, steps[k..]);
      running := running - steps[k].from + steps[k].to;
      assert steps[k..][1..] == steps[k + 1..];
      assert totals + rest == (totals + [running]) + Totals(running, steps[k + 1..]);
      totals := totals + [running];
      if running > limit {
        assert running in Totals(start, steps);
        return false, totals;
      }
    }
    return true, totals;
  }

  /** The planner: validate, look for repeats, check the final total, order the steps and walk them. */
  method MakePlan(rs: seq<Resize>, floor: int) returns (plan: Plan)
    ensures plan == PlanApply(rs, floor)
  {
    for i := 0 to |rs|
      invariant FirstFault(rs) == FirstFault(rs[i..])
    {
      if rs[i].id == "" {
        return Refused(NO_ID);
      }
      if rs[i].to < 0 {
        return Refused(NEGATIVE);
      }
    }
    if rs == [] {
      return Refused(NOTHING);
    }
    var twice := FindRepeat(rs);
    if twice {
      return Refused(TWICE);
    }
    if SumTo(rs) > Limit(floor) {
      return Refused(OVER_CEILING);
    }
    var steps := Ordered(rs);
    var ok, totals := Walk(SumFrom(rs), steps, Limit(floor));
    return if ok then Accepted(steps, totals, SumTo(rs)) else Refused(NO_ORDER);
  }

  // ---------------------------------------------------------------- why the order is right

  lemma {:induction false} InsertKeeps(x: Resize, rs: seq<Resize>)
    ensures multiset(InsertByTo(x, rs)) == multiset{x} + multiset(rs)
  {
    if rs != [] && x.to > rs[0].to {
      InsertKeeps(x, rs[1..]);
      assert rs == [rs[0]] + rs[1..];
    }
  }

  lemma {:induction false} SortKeeps(rs: seq<Resize>)
    ensures multiset(SortByTo(rs)) == multiset(rs)
  {
    if rs != [] {
      SortKeeps(rs[1..]);
      InsertKeeps(rs[0], SortByTo(rs[1..]));
      assert rs == [rs[0]] + rs[1..];
    }
  }

  ghost predicate Falling(rs: seq<Resize>) { forall r :: r in rs ==> r.to < r.from }
  ghost predicate Rising(rs: seq<Resize>) { forall r :: r in rs ==> r.to > r.from }

  lemma {:induction false} DownsFall(rs: seq<Resize>)
    ensures forall r :: r in Downs(rs) <==> r in rs && r.to < r.from
    ensures forall r :: r in Ups(rs) <==> r in rs && r.to > r.from
    ensures SumTo(Downs(rs)) - SumFrom(Downs(rs)) + SumTo(Ups(rs)) - SumFrom(Ups(rs)) == SumTo(rs) - SumFrom(rs)
  {
    if rs != [] {
      DownsFall(rs[1..]);
    }
  }

  lemma {:induction false} InsertSums(x: Resize, rs: seq<Resize>)
    ensures SumTo(InsertByTo(x, rs)) == x.to + SumTo(rs) && SumFrom(InsertByTo(x, rs)) == x.from + SumFrom(rs)
  {
    if rs != [] && x.to > rs[0].to {
      InsertSums(x, rs[1..]);
    }
  }

  lemma {:induction false} SortSums(rs: seq<Resize>)
    ensures SumTo(SortByTo(rs)) == SumTo(rs) && SumFrom(SortByTo(rs)) == SumFrom(rs)
  {
    if rs != [] {
      SortSums(rs[1..]);
      InsertSums(rs[0], SortByTo(rs[1..]));
    }
  }

  lemma MembersOfSort(rs: seq<Resize>)
    ensures forall r :: r in SortByTo(rs) <==> r in rs
  {
    SortKeeps(rs);
    assert forall r :: r in SortByTo(rs) <==> r in multiset(SortByTo(rs));
    assert forall r :: r in rs <==> r in multiset(rs);
  }

  lemma OrderedShape(rs: seq<Resize>)
    ensures var d, u := SortByTo(Downs(rs)), SortByTo(Ups(rs));
      && Falling(d) && Rising(u)
      && (forall r :: r in d <==> r in rs && r.to < r.from) && (forall r :: r in u <==> r in rs && r.to > r.from)
      && SumTo(d) - SumFrom(d) + SumTo(u) - SumFrom(u) == SumTo(rs) - SumFrom(rs)
  {
    DownsFall(rs);
    MembersOfSort(Downs(rs));
    MembersOfSort(Ups(rs));
    SortSums(Downs(rs));
    SortSums(Ups(rs));
  }

  lemma TotalsHead(start: int, steps: seq<Resize>, limit: int)
    requires steps != []
    ensures var t := start - steps[0].from + steps[0].to;
      AllAtMost(Totals(start, steps), limit) == (t <= limit && AllAtMost(Totals(t, steps[1..]), limit))
  {
    var t := start - steps[0].from + steps[0].to;
    var rest := Totals(t, steps[1..]);
    assert Totals(start, steps) == [t] + rest;
    if AllAtMost([t] + rest, limit) {
      assert t in [t] + rest;
      assert forall x :: x in rest ==> x in [t] + rest;
    }
  }

  lemma {:induction false} RisingSum(up: seq<Resize>)
    requires Rising(up)
    ensures SumTo(up) >= SumFrom(up)
  {
    if up != [] {
      assert up[0] in up && forall r :: r in up[1..] ==> r in up;
      RisingSum(up[1..]);
    }
  }

  lemma {:induction false} RisesPeak(start: int, up: seq<Resize>, limit: int)
    requires Rising(up)
    ensures AllAtMost(Totals(start, up), limit) == (up != [] ==> start + SumTo(up) - SumFrom(up) <= limit)
    decreases |up|
  {
    hide AllAtMost, Totals;
    if up == [] {
      NoTotals(start, limit);
    } else {
      assert up[0] in up && forall r :: r in up[1..] ==> r in up;
      TotalsHead(start, up, limit);
      RisesPeak(start - up[0].from + up[0].to, up[1..], limit);
      RisingSum(up[1..]);
    }
  }

  lemma NoTotals(start: int, limit: int)
    ensures AllAtMost(Totals(start, []), limit)
  {
  }

  /** Decreases never go above their first total, increases never above their last. */
  lemma {:induction false} TotalsPeak(start: int, down: seq<Resize>, up: seq<Resize>, limit: int)
    requires Falling(down) && Rising(up)
    ensures var end := start + SumTo(down) - SumFrom(down) + SumTo(up) - SumFrom(up);
      AllAtMost(Totals(start, down + up), limit) ==
        ((down != [] ==> start - down[0].from + down[0].to <= limit) && (down + up != [] ==> end <= limit))
    decreases |down|
  {
    hide AllAtMost, Totals;
    if down == [] {
      assert down + up == up;
      RisesPeak(start, up, limit);
    } else {
      assert (down + up)[0] == down[0] && (down + up)[1..] == down[1..] + up;
      assert forall r :: r in down[1..] ==> r in down;
      TotalsHead(start, down + up, limit);
      TotalsPeak(start - down[0].from + down[0].to, down[1..], up, limit);
      if down[1..] != [] {
        assert down[1] in down;
      }
    }
  }

  /** No intermediate book is larger than the larger of the book before and the book after. */
  lemma PeakIsAnEndpoint(rs: seq<Resize>, k: nat)
    requires k < |Ordered(rs)|
    ensures Totals(SumFrom(rs), Ordered(rs))[k] <= if SumFrom(rs) >= SumTo(rs) then SumFrom(rs) else SumTo(rs)
  {
    OrderedShape(rs);
    var d, u := SortByTo(Downs(rs)), SortByTo(Ups(rs));
    var peak := if SumFrom(rs) >= SumTo(rs) then SumFrom(rs) else SumTo(rs);
    if d != [] {
      assert d[0] in d;
    }
    TotalsPeak(SumFrom(rs), d, u, peak);
    assert Totals(SumFrom(rs), Ordered(rs))[k] in Totals(SumFrom(rs), Ordered(rs));
  }

  ghost predicate WellFormed(rs: seq<Resize>) {
    FirstFault(rs).None? && rs != [] && !Repeats(rs)
  }

  /** Exactly when a plan is accepted: its final total fits, and so does the book after the first decrease. */
  lemma AcceptedIff(rs: seq<Resize>, floor: int)
    requires WellFormed(rs)
    ensures var d := SortByTo(Downs(rs));
      PlanApply(rs, floor).Accepted? ==
        (SumTo(rs) <= Limit(floor) && (d != [] ==> SumFrom(rs) - d[0].from + d[0].to <= Limit(floor)))
  {
    OrderedShape(rs);
    TotalsPeak(SumFrom(rs), SortByTo(Downs(rs)), SortByTo(Ups(rs)), Limit(floor));
  }

  /** From a book within the ceiling, a well-formed plan is accepted whenever its final total fits. */
  lemma FittingPlanIsAccepted(rs: seq<Resize>, floor: int)
    requires WellFormed(rs) && SumFrom(rs) <= Limit(floor)
    ensures PlanApply(rs, floor).Accepted? <==> SumTo(rs) <= Limit(floor)
  {
    AcceptedIff(rs, floor);
    OrderedShape(rs);
    var d := SortByTo(Downs(rs));
    if d != [] {
      assert d[0] in d;
    }
  }

  // ---------------------------------------------------------------- "no order of these changes fits"

  /** Some order of the changing sleeves keeps every total within the limit. */
  ghost predicate SomeOrderFits(rs: seq<Resize>, limit: int) {
    exists order: seq<Resize> ::
      multiset(order) == multiset(Downs(rs) + Ups(rs)) && AllAtMost(Totals(SumFrom(rs), order), limit)
  }

  lemma {:induction false} SumsTakeOut(b: seq<Resize>, i: nat)
    requires i < |b|
    ensures SumTo(b) == b[i].to + SumTo(b[..i] + b[i + 1..]) && SumFrom(b) == b[i].from + SumFrom(b[..i] + b[i + 1..])
  {
    if i > 0 {
      SumsTakeOut(b[1..], i - 1);
      assert (b[..i] + b[i + 1..])[1..] == b[1..][..i - 1] + b[1..][i..];
    } else {
      assert b[..0] + b[1..] == b[1..];
    }
  }

  /** The same decreases with the i-th one moved to the front. */
  function Fronted(downs: seq<Resize>, i: nat): seq<Resize>
    requires i < |downs|
  {
    [downs[i]] + (downs[..i] + downs[i + 1..])
  }

  lemma FrontedMembers(downs: seq<Resize>, i: nat)
    requires i < |downs|
    ensures multiset(Fronted(downs, i)) == multiset(downs)
  {
    assert downs == downs[..i] + [downs[i]] + downs[i + 1..];
  }

  lemma FrontedFacts(downs: seq<Resize>, i: nat)
    requires i < |downs| && Falling(downs)
    ensures Falling(Fronted(downs, i))
    ensures SumTo(Fronted(downs, i)) == SumTo(downs) && SumFrom(Fronted(downs, i)) == SumFrom(downs)
  {
    var rest := downs[..i] + downs[i + 1..];
    assert Fronted(downs, i)[1..] == rest;
    SumsTakeOut(downs, i);
    assert downs[i] in downs && forall r :: r in rest ==> r in downs;
  }

  /** The planner refuses with "no order of these changes fits the book" when its own order does not fit.
      Given that refusal, some other order does fit exactly when some decrease, not the one to the smallest
      target, brings the book within the ceiling on its own. */
  lemma NoOrderRefusalIsWrongIff(rs: seq<Resize>, floor: int)
    requires PlanApply(rs, floor) == Refused(NO_ORDER)
    ensures SomeOrderFits(rs, Limit(floor)) ==
      (exists d :: d in rs && d.to < d.from && SumFrom(rs) - d.from + d.to <= Limit(floor))
  {
    AcceptedIff(rs, floor);
    DownsFall(rs);
    MembersOfSort(Downs(rs));
    assert SortByTo(Downs(rs))[0] in SortByTo(Downs(rs));
    if SomeOrderFits(rs, Limit(floor)) {
      FirstStepOfFittingOrder(rs, Limit(floor));
    }
    if d :| d in rs && d.to < d.from && SumFrom(rs) - d.from + d.to <= Limit(floor) {
      OrderStartingWith(rs, d, Limit(floor));
    }
  }

  lemma FirstStepOfFittingOrder(rs: seq<Resize>, limit: int)
    requires SomeOrderFits(rs, limit) && SumFrom(rs) > limit && Downs(rs) != []
    ensures exists d :: d in rs && d.to < d.from && SumFrom(rs) - d.from + d.to <= limit
  {
    DownsFall(rs);
    var order: seq<Resize> :|
      multiset(order) == multiset(Downs(rs) + Ups(rs)) && AllAtMost(Totals(SumFrom(rs), order), limit);
    assert Downs(rs)[0] in multiset(Downs(rs) + Ups(rs));
    TotalsHead(SumFrom(rs), order, limit);
    var d := order[0];
    assert d in multiset(order) && d in Downs(rs) + Ups(rs);
  }

  lemma OrderStartingWith(rs: seq<Resize>, d: Resize, limit: int)
    requires d in rs && d.to < d.from && SumFrom(rs) - d.from + d.to <= limit && SumTo(rs) <= limit
    ensures SomeOrderFits(rs, limit)
  {
    DownsFall(rs);
    var downs, ups := Downs(rs), Ups(rs);
    var i :| 0 <= i < |downs| && downs[i] == d;
    FrontedMembers(downs, i);
    FrontedFacts(downs, i);
    TotalsPeak(SumFrom(rs), Fronted(downs, i), ups, limit);
    assert multiset(Fronted(downs, i) + ups) == multiset(downs + ups);
  }

  /** A book at 95% under an 80% ceiling: the planner starts with the removal and gives up, though starting
      with the larger decrease would keep every total within the ceiling. */
  lemma NoOrderRefusalCanBeWrong()
    ensures exists rs :: PlanApply(rs, 2000) == Refused(NO_ORDER) && SomeOrderFits(rs, Limit(2000))
  {
    var a, b := Resize("a", 500, 0), Resize("b", 9000, 2000);
    PairOfDowns(a, b);
    AcceptedIff([a, b], 2000);
    OrderStartingWith([a, b], b, Limit(2000));
  }

  lemma PairOfDowns(a: Resize, b: Resize)
    requires a.id != "" && b.id != "" && a.id != b.id && 0 <= a.to < a.from && a.to <= b.to < b.from
    ensures var rs := [a, b];
      && WellFormed(rs) && SortByTo(Downs(rs)) == rs
      && SumTo(rs) == a.to + b.to && SumFrom(rs) == a.from + b.from
  {
    var rs, last := [a, b], [b];
    assert rs[1..] == last && last[1..] == [];
    assert Downs(last) == last && SortByTo(last) == last && FirstFault(last).None?;
    assert SumTo(last) == b.to && SumFrom(last) == b.from;
    assert Downs(rs) == rs;
  }
}
