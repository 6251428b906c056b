/** Writing an accepted plan to the book, when every step goes through, and taking it back. */
module ApplyUndo {
  import opened Basics
  import opened SleeveBook
  import opened TargetApply

  // ---------------------------------------------------------------- execution

  datatype Execution = Execution(rows: seq<Sleeve>, refusedAt: Option<Id>)

  /** Send each step to the book's own write path: removals by removal, sizes by resize; stop at a refusal. */
  function Execute(rows: seq<Sleeve>, steps: seq<Resize>): Execution
    decreases |steps|
  {
    if steps == [] then Execution(rows, None)
    else
      var s := steps[0];
      if s.to <= 0 then
        if Runs(rows, s.id) then Execute(Drop(rows, s.id), steps[1..]) else Execution(rows, Some(s.id))
      else if Validate(rows, s.id, s.to, true).None? then Execute(Put(rows, s.id, s.to), steps[1..])
      else Execution(rows, Some(s.id))
  }

  /** Each step starts from the size the book really has. */
  ghost predicate Exact(rows: seq<Sleeve>, rs: seq<Resize>) {
    forall r :: r in rs ==> PctOf(rows, r.id) == r.from
  }

  /** Named, distinct, never negative. */
  ghost predicate CleanSteps(rs: seq<Resize>) {
    !Repeats(rs) && forall r :: r in rs ==> r.id != "" && r.to >= 0
  }

  /** The same steps, each taken from the size the book really has. */
  function Live(rows: seq<Sleeve>, steps: seq<Resize>): (live: seq<Resize>)
    ensures |live| == |steps|
    ensures forall i :: 0 <= i < |steps| ==> live[i] == Resize(steps[i].id, PctOf(rows, steps[i].id), steps[i].to)
  {
    seq(|steps|, i requires 0 <= i < |steps| => Resize(steps[i].id, PctOf(rows, steps[i].id), steps[i].to))
  }

  /** Only a running sleeve can be removed; any other size must be one, and leave the whole book within the ceiling. */
  predicate StepFits(total: int, s: Resize) {
    if s.to == 0 then s.from > 0 else s.to <= BOOK && total - s.from + s.to <= BOOK + EPSILON
  }

  /** How many steps fit, by their sizes and the running total alone, before the first that does not. */
  function Reach(total: int, steps: seq<Resize>): (k: nat)
    ensures k <= |steps|
    decreases |steps|
  {
    if steps == [] || !StepFits(total, steps[0]) then 0
    else 1 + Reach(total - steps[0].from + steps[0].to, steps[1..])
  }

  predicate Passes(total: int, steps: seq<Resize>) { Reach(total, steps) == |steps| }

  /** A sleeve's size once the steps are done. */
  function SizeAfter(rows: seq<Sleeve>, rs: seq<Resize>, id: Id): int {
    if rs == [] then PctOf(rows, id) else if rs[0].id == id then rs[0].to else SizeAfter(rows, rs[1..], id)
  }

  lemma TailIsClean(rs: seq<Resize>)
    requires CleanSteps(rs) && rs != []
    ensures CleanSteps(rs[1..]) && forall r :: r in rs[1..] ==> r in rs && r.id != rs[0].id
  {
  }

  lemma StepKeepsSound(rows: seq<Sleeve>, s: Resize)
    requires Sound(rows) && s.id != "" && s.to >= 0
    ensures s.to == 0 ==> Sound(Drop(rows, s.id)) && Total(Drop(rows, s.id)) == Total(rows) - PctOf(rows, s.id)
    ensures s.to == 0 ==> (Runs(rows, s.id) <==> PctOf(rows, s.id) > 0)
    ensures s.to > 0 ==> (Validate(rows, s.id, s.to, true).None?
                          <==> s.to <= BOOK && Total(rows) - PctOf(rows, s.id) + s.to <= BOOK + EPSILON)
    ensures Validate(rows, s.id, s.to, true).None? ==>
              Sound(Put(rows, s.id, s.to)) && Total(Put(rows, s.id, s.to)) == Total(rows) - PctOf(rows, s.id) + s.to
  {
    DropFacts(rows, s.id);
    PutFacts(rows, s.id, s.to);
    PutRows(rows, s.id, s.to);
    ValidateMeansBookFits(rows, s.id, s.to);
    RunsIffSized(rows, s.id);
  }

  lemma {:induction false} SizeAfterOther(rows: seq<Sleeve>, other: seq<Sleeve>, rs: seq<Resize>, id: Id)
    requires PctOf(rows, id) == PctOf(other, id)
    ensures SizeAfter(rows, rs, id) == SizeAfter(other, rs, id)
  {
    if rs != [] && rs[0].id != id {
      SizeAfterOther(rows, other, rs[1..], id);
    }
  }

  lemma {:induction false} SizeAfterUnnamed(rows: seq<Sleeve>, rs: seq<Resize>, id: Id)
    requires forall r :: r in rs ==> r.id != id
    ensures SizeAfter(rows, rs, id) == PctOf(rows, id)
  {
    if rs != [] {
      SizeAfterUnnamed(rows, rs[1..], id);
    }
  }

  function Next(rows: seq<Sleeve>, s: Resize): seq<Sleeve> {
    if s.to == 0 then Drop(rows, s.id) else Put(rows, s.id, s.to)
  }

  lemma ExecuteFirst(rows: seq<Sleeve>, steps: seq<Resize>)
    requires Sound(rows) && CleanSteps(steps) && steps != []
    ensures var s, next := steps[0], Next(rows, steps[0]);
      if StepFits(Total(rows), Resize(s.id, PctOf(rows, s.id), s.to)) then
        && Execute(rows, steps) == Execute(next, steps[1..]) && Sound(next)
        && Total(next) == Total(rows) - PctOf(rows, s.id) + s.to
      else Execute(rows, steps) == Execution(rows, Some(s.id))
  {
    hide Sound, Repeats, Validate, Drop, Put, Runs, PctOf, Total;
    assert steps[0] in steps;
    StepKeepsSound(rows, steps[0]);
  }

  lemma ReachFirst(rows: seq<Sleeve>, steps: seq<Resize>)
    requires Sound(rows) && CleanSteps(steps) && steps != []
    ensures var s, next := steps[0], Next(rows, steps[0]); var total := Total(rows) - PctOf(rows, s.id) + s.to;
      Reach(Total(rows), Live(rows, steps))
      == if StepFits(Total(rows), Resize(s.id, PctOf(rows, s.id), s.to))
         then 1 + Reach(total, Live(next, steps[1..])) else 0
  {
    hide Sound, Repeats, StepFits, PctOf, Total;
    assert steps[0] in steps;
    TailIsClean(steps);
    NextSizes(rows, steps[0]);
    assert Live(rows, steps)[1..] == Live(Next(rows, steps[0]), steps[1..]);
  }

  /** Whatever sizes the steps were solved against, the book takes exactly those that fit by its own sizes up to the
      first that does not, which it names; it is sound then, and each step taken has left its sleeve at its target. */
  lemma {:induction false} ExecuteReaches(rows: seq<Sleeve>, steps: seq<Resize>)
    requires Sound(rows) && CleanSteps(steps)
    ensures var e, k := Execute(rows, steps), Reach(Total(rows), Live(rows, steps));
      && e.refusedAt == (if k < |steps| then Some(steps[k].id) else None)
      && Sound(e.rows) && forall id :: PctOf(e.rows, id) == SizeAfter(rows, steps[..k], id)
    decreases |steps|
  {
    hide Sound, Repeats, SizeAfter, StepFits, PctOf, Total, Next, Execute, Reach, Live;
    if steps == [] {
      NothingDone(rows);
    } else {
      var s, k := steps[0], Reach(Total(rows), Live(rows, steps));
      ExecuteFirst(rows, steps);
      ReachFirst(rows, steps);
      if StepFits(Total(rows), Resize(s.id, PctOf(rows, s.id), s.to)) {
        assert s in steps;
        TailIsClean(steps);
        NextSizes(rows, s);
        ExecuteReaches(Next(rows, s), steps[1..]);
        SizesAfterFirst(rows, Next(rows, s), steps, k);
      } else {
        NothingDone(rows);
        assert steps[..k] == [];
      }
    }
  }

  lemma NothingDone(rows: seq<Sleeve>)
    ensures Execute(rows, []) == Execution(rows, None) && forall total :: Reach(total, []) == 0
    ensures forall id :: SizeAfter(rows, [], id) == PctOf(rows, id)
  {
  }

  lemma SizesAfterFirst(rows: seq<Sleeve>, next: seq<Sleeve>, steps: seq<Resize>, k: nat)
    requires CleanSteps(steps) && 0 < k <= |steps|
    requires forall id :: PctOf(next, id) == if id == steps[0].id then steps[0].to else PctOf(rows, id)
    ensures forall id :: SizeAfter(next, steps[1..][..k - 1], id) == SizeAfter(rows, steps[..k], id)
  {
    var rest := steps[1..][..k - 1];
    assert steps[..k][1..] == rest;
    TailIsClean(steps);
    forall id
      ensures SizeAfter(next, rest, id) == SizeAfter(rows, steps[..k], id)
    {
      if id == steps[0].id {
        assert forall r :: r in rest ==> r in steps[1..];
        SizeAfterUnnamed(next, rest, id);
      } else {
        SizeAfterOther(rows, next, rest, id);
      }
    }
  }

  lemma NextSizes(rows: seq<Sleeve>, s: Resize)
    requires Sound(rows) && s.to >= 0
    ensures forall id :: PctOf(Next(rows, s), id) == if id == s.id then s.to else PctOf(rows, id)
  {
    DropFacts(rows, s.id);
    PutFacts(rows, s.id, s.to);
  }

  lemma {:induction false} RisesPassIff(total: int, up: seq<Resize>)
    requires Rising(up) && forall r :: r in up ==> r.from >= 0
    ensures Passes(total, up)
         == ((forall r :: r in up ==> r.to <= BOOK) && (up != [] ==> total + SumTo(up) - SumFrom(up) <= BOOK + EPSILON))
    decreases |up|
  {
    if up != [] {
      RisingSum(up[1..]);
      RisesPassIff(total - up[0].from + up[0].to, up[1..]);
      assert up[0] in up && forall r :: r in up <==> r == up[0] || r in up[1..];
    }
  }

  lemma {:induction false} PassesIff(total: int, down: seq<Resize>, up: seq<Resize>)
    requires Falling(down) && Rising(up) && total <= BOOK + EPSILON
    requires forall r :: r in down ==> r.from <= BOOK
    requires forall r :: r in up ==> r.from >= 0
    ensures var end := total + SumTo(down) - SumFrom(down) + SumTo(up) - SumFrom(up);
      Passes(total, down + up) == ((forall r :: r in up ==> r.to <= BOOK) && (up != [] ==> end <= BOOK + EPSILON))
    decreases |down|
  {
    if down == [] {
      assert down + up == up;
      RisesPassIff(total, up);
    } else {
      assert down[0] in down && (down + up)[0] == down[0] && (down + up)[1..] == down[1..] + up;
      PassesIff(total - down[0].from + down[0].to, down[1..], up);
    }
  }

  // ---------------------------------------------------------------- applying a set of resizes

  datatype Outcome = NOT_CONFIRMED | STALE | PLAN_REFUSED(why: PlanRefusal) | STEP_REFUSED(at: Id) | APPLIED
  datatype Applied = Applied(out: Outcome, rows: seq<Sleeve>)

  function Distance(a: int, b: int): int { if a >= b then a - b else b - a }

  /** Some resize was solved against a size the book no longer holds. */
  predicate IsStale(rows: seq<Sleeve>, rs: seq<Resize>) {
    exists r :: r in rs && Distance(r.from, PctOf(rows, r.id)) > EPSILON
  }

  /** Every resize was solved against the size the book holds, to within five hundredths of a percent. */
  ghost predicate Fresh(rows: seq<Sleeve>, rs: seq<Resize>) {
    forall r :: r in rs ==> PctOf(rows, r.id) - 5 <= r.from <= PctOf(rows, r.id) + 5
  }

  lemma StaleIff(rows: seq<Sleeve>, rs: seq<Resize>)
    ensures IsStale(rows, rs) <==> !Fresh(rows, rs)
  {
  }

  /** The whole write path, with the floor of zero the program always ends up with. */
  function Apply(rows: seq<Sleeve>, rs: seq<Resize>): Applied {
    if IsStale(rows, rs) then Applied(STALE, rows)
    else
      match PlanApply(rs, 0)
      case Refused(why) => Applied(PLAN_REFUSED(why), rows)
      case Accepted(steps, _, _) =>
        var e := Execute(rows, steps);
        Applied(if e.refusedAt.None? then APPLIED else STEP_REFUSED(e.refusedAt.value), e.rows)
  }

  /** The resizes name every sleeve the book runs. */
  ghost predicate CoversBook(rows: seq<Sleeve>, rs: seq<Resize>) {
    forall s :: s in rows ==> exists r :: r in rs && r.id == s.id
  }

  lemma {:induction false} SumFromIsLive(rows: seq<Sleeve>, rs: seq<Resize>)
    requires Sound(rows) && Exact(rows, rs) && !Repeats(rs)
    ensures SumFrom(rs) <= Total(rows)
    ensures CoversBook(rows, rs) ==> SumFrom(rs) == Total(rows)
    decreases |rs|
  {
    hide Repeats;
    if rs == [] {
      PositiveTotal(rows);
    } else {
      var id := rs[0].id;
      assert rs[0] in rs;
      DropSound(rows, id);
      RepeatsTail(rs);
      SumFromIsLive(Drop(rows, id), rs[1..]);
      if CoversBook(rows, rs) {
        forall s | s in Drop(rows, id)
          ensures exists r :: r in rs[1..] && r.id == s.id
        {
          var r :| r in rs && r.id == s.id;
        }
      }
    }
  }

  lemma RepeatsTail(rs: seq<Resize>)
    requires !Repeats(rs) && rs != []
    ensures !Repeats(rs[1..]) && forall r :: r in rs[1..] ==> r in rs && r.id != rs[0].id
  {
  }

  lemma DropSound(rows: seq<Sleeve>, id: Id)
    requires Sound(rows)
    ensures Sound(Drop(rows, id)) && Total(Drop(rows, id)) == Total(rows) - PctOf(rows, id)
    ensures forall s :: s in Drop(rows, id) <==> s in rows && s.id != id
    ensures forall other :: PctOf(Drop(rows, id), other) == if other == id then 0 else PctOf(rows, other)
  {
    DropFacts(rows, id);
    RunsIffSized(rows, id);
  }

  lemma {:induction false} PositiveTotal(rows: seq<Sleeve>)
    requires forall s :: s in rows ==> s.pct > 0
    ensures Total(rows) >= 0
  {
    if rows != [] {
      assert rows[0] in rows;
      PositiveTotal(rows[1..]);
    }
  }

  lemma {:induction false} NoFaultMeans(rs: seq<Resize>)
    ensures FirstFault(rs).None? <==> forall r :: r in rs ==> r.id != "" && r.to >= 0
  {
    if rs != [] {
      NoFaultMeans(rs[1..]);
      assert rs[0] in rs && forall r :: r in rs <==> r == rs[0] || r in rs[1..];
    }
  }

  lemma FilterNoRepeats(rs: seq<Resize>)
    requires !Repeats(rs)
    ensures !Repeats(Ordered(rs))
  {
    hide Repeats, Ups, Downs, SortByTo;
    OrderedShape(rs);
    SortedNoRepeats(rs);
    var d, u := SortByTo(Downs(rs)), SortByTo(Ups(rs));
    forall a, b | a in d && b in u
      ensures a.id != b.id
    {
      if a.id == b.id {
        SameIdSameRow(rs, a, b);
      }
    }
    ConcatDistinct(d, u);
  }

  lemma ConcatDistinct(a: seq<Resize>, b: seq<Resize>)
    requires !Repeats(a) && !Repeats(b) && forall x, y :: x in a && y in b ==> x.id != y.id
    ensures !Repeats(a + b)
  {
  }

  lemma SameIdSameRow(rs: seq<Resize>, a: Resize, b: Resize)
    requires !Repeats(rs) && a in rs && b in rs && a.id == b.id
    ensures a == b
  {
  }

  lemma SortedNoRepeats(rs: seq<Resize>)
    requires !Repeats(rs)
    ensures !Repeats(SortByTo(Downs(rs))) && !Repeats(SortByTo(Ups(rs)))
  {
    FilterDistinct(rs);
    SortDistinct(Downs(rs));
    SortDistinct(Ups(rs));
  }

  lemma {:induction false} FilterDistinct(rs: seq<Resize>)
    requires !Repeats(rs)
    ensures !Repeats(Downs(rs)) && !Repeats(Ups(rs))
  {
    if rs != [] {
      RepeatsTail(rs);
      FilterDistinct(rs[1..]);
      DownsFall(rs[1..]);
    }
  }

  lemma {:induction false} SortDistinct(rs: seq<Resize>)
    requires !Repeats(rs)
    ensures !Repeats(SortByTo(rs))
  {
    if rs != [] {
      RepeatsTail(rs);
      SortDistinct(rs[1..]);
      MembersOfSort(rs[1..]);
      InsertDistinct(rs[0], SortByTo(rs[1..]));
    }
  }

  lemma {:induction false} InsertDistinct(x: Resize, rs: seq<Resize>)
    requires !Repeats(rs) && forall r :: r in rs ==> r.id != x.id
    ensures !Repeats(InsertByTo(x, rs))
    ensures forall r :: r in InsertByTo(x, rs) <==> r == x || r in rs
  {
    if rs != [] && x.to > rs[0].to {
      RepeatsTail(rs);
      InsertDistinct(x, rs[1..]);
    }
  }

  lemma OrderedIsClean(rs: seq<Resize>)
    requires WellFormed(rs)
    ensures CleanSteps(Ordered(rs)) && forall r :: r in Ordered(rs) <==> r in rs && r.to != r.from
  {
    NoFaultMeans(rs);
    FilterNoRepeats(rs);
    OrderedShape(rs);
    hide Repeats;
    assert forall r :: r in Ordered(rs) <==> r in SortByTo(Downs(rs)) || r in SortByTo(Ups(rs));
  }

  lemma ExactIsLive(rows: seq<Sleeve>, rs: seq<Resize>)
    requires Sound(rows) && Exact(rows, rs) && WellFormed(rs)
    ensures Live(rows, Ordered(rs)) == Ordered(rs) && forall r :: r in rs ==> 0 <= r.from <= BOOK
  {
    OrderedIsClean(rs);
    assert forall i :: 0 <= i < |Ordered(rs)| ==> Ordered(rs)[i] in Ordered(rs);
    forall r | r in rs
      ensures 0 <= r.from <= BOOK
    {
      RunsIffSized(rows, r.id);
    }
  }

  /** What the planner looks at: the final total, and the total after its first decrease. */
  ghost predicate PlanFits(rs: seq<Resize>) {
    var d := SortByTo(Downs(rs));
    SumTo(rs) <= BOOK + EPSILON && (d != [] ==> SumFrom(rs) - d[0].from + d[0].to <= BOOK + EPSILON)
  }

  /** Exactly when a set of resizes is written with no refusal: every size it was solved against is still near the
      book's, it is well formed, its own totals fit, and so does every running total of the whole book, by the book's
      own sizes. */
  lemma ApplyIff(rows: seq<Sleeve>, rs: seq<Resize>)
    requires Sound(rows)
    ensures Apply(rows, rs).out == APPLIED
       <==> Fresh(rows, rs) && WellFormed(rs) && PlanFits(rs) && Passes(Total(rows), Live(rows, Ordered(rs)))
    ensures Exact(rows, rs) ==> (Apply(rows, rs).out == APPLIED <==> ExactlyFits(rows, rs))
  {
    hide Sound, IsStale, Fresh;
    StaleIff(rows, rs);
    if WellFormed(rs) {
      AcceptedIff(rs, 0);
      OrderedIsClean(rs);
      ExecuteReaches(rows, Ordered(rs));
      if Exact(rows, rs) {
        ExactPassesIff(rows, rs);
      }
    }
  }

  /** For sizes that are the book's own: no raised sleeve exceeds the whole book and, if anything is raised, the whole
      book including the sleeves the resizes do not name still fits. */
  ghost predicate ExactlyFits(rows: seq<Sleeve>, rs: seq<Resize>) {
    && WellFormed(rs) && SumTo(rs) <= BOOK + EPSILON
    && (forall r :: r in rs && r.to > r.from ==> r.to <= BOOK)
    && ((exists r :: r in rs && r.to > r.from) ==> Total(rows) + SumTo(rs) - SumFrom(rs) <= BOOK + EPSILON)
  }

  lemma ExactPassesIff(rows: seq<Sleeve>, rs: seq<Resize>)
    requires Sound(rows) && Exact(rows, rs) && WellFormed(rs)
    ensures !IsStale(rows, rs)
    ensures (PlanFits(rs) && Passes(Total(rows), Live(rows, Ordered(rs)))) == ExactlyFits(rows, rs)
  {
    hide Sound;
    SumFromIsLive(rows, rs);
    SoundTotal(rows);
    FittingPlanIsAccepted(rs, 0);
    AcceptedIff(rs, 0);
    ExactIsLive(rows, rs);
    OrderedShape(rs);
    var d, u := SortByTo(Downs(rs)), SortByTo(Ups(rs));
    PassesIff(Total(rows), d, u);
    assert u != [] <==> exists r :: r in rs && r.to > r.from by {
      if u != [] {
        assert u[0] in u;
      }
    }
  }

  lemma SoundTotal(rows: seq<Sleeve>)
    requires Sound(rows)
    ensures Total(rows) <= BOOK + EPSILON
  {
  }

  lemma {:induction false} SizeAfterNamed(rows: seq<Sleeve>, rs: seq<Resize>, r: Resize)
    requires !Repeats(rs) && r in rs
    ensures SizeAfter(rows, rs, r.id) == r.to
  {
    hide Repeats;
    if rs[0] != r {
      RepeatsTail(rs);
      SizeAfterNamed(rows, rs[1..], r);
    }
  }

  lemma AppliedIsExecuted(rows: seq<Sleeve>, rs: seq<Resize>)
    requires Sound(rows) && Apply(rows, rs).out == APPLIED
    ensures WellFormed(rs)
    ensures var e := Execute(rows, Ordered(rs)); e.refusedAt.None? && Apply(rows, rs).rows == e.rows
  {
    hide Sound, IsStale, Fresh, Execute;
    ApplyIff(rows, rs);
  }

  lemma OrderedSize(rows: seq<Sleeve>, rs: seq<Resize>, r: Resize)
    requires WellFormed(rs) && r in rs
    ensures SizeAfter(rows, Ordered(rs), r.id) == if r.to == r.from then PctOf(rows, r.id) else r.to
  {
    hide PctOf, Ordered;
    OrderedIsClean(rs);
    var steps := Ordered(rs);
    if r.to != r.from {
      SizeAfterNamed(rows, steps, r);
    } else {
      forall x | x in steps
        ensures x.id != r.id
      {
        if x.id == r.id {
          SameIdSameRow(rs, x, r);
        }
      }
      SizeAfterUnnamed(rows, steps, r.id);
    }
  }

  lemma OrderedOther(rows: seq<Sleeve>, rs: seq<Resize>, id: Id)
    requires WellFormed(rs) && forall r :: r in rs ==> r.id != id
    ensures SizeAfter(rows, Ordered(rs), id) == PctOf(rows, id)
  {
    hide PctOf, Ordered;
    OrderedIsClean(rs);
    SizeAfterUnnamed(rows, Ordered(rs), id);
  }

  lemma AppliedSizes(rows: seq<Sleeve>, rs: seq<Resize>)
    requires Sound(rows) && Apply(rows, rs).out == APPLIED
    ensures WellFormed(rs) && Sound(Apply(rows, rs).rows)
    ensures forall id :: PctOf(Apply(rows, rs).rows, id) == SizeAfter(rows, Ordered(rs), id)
  {
    hide Sound, Apply, WellFormed, Ordered, Execute, SizeAfter, PctOf;
    AppliedIsExecuted(rows, rs);
    OrderedIsClean(rs);
    ExecuteReaches(rows, Ordered(rs));
    assert Ordered(rs)[..|Ordered(rs)|] == Ordered(rs);
  }

  /** What a successful application leaves: a sound book, every sleeve it resizes exactly at its target, those it names
      but leaves alone within the tolerance of theirs, and the rest as before. */
  lemma ApplyReachesTarget(rows: seq<Sleeve>, rs: seq<Resize>)
    requires Sound(rows) && Apply(rows, rs).out == APPLIED
    ensures var done := Apply(rows, rs).rows;
      && Sound(done)
      && (forall r :: r in rs ==> PctOf(done, r.id) == if r.to == r.from then PctOf(rows, r.id) else r.to)
      && (forall r :: r in rs ==> r.to - EPSILON <= PctOf(done, r.id) <= r.to + EPSILON)
      && (Exact(rows, rs) ==> forall r :: r in rs ==> PctOf(done, r.id) == r.to)
      && (forall id :: (forall r :: r in rs ==> r.id != id) ==> PctOf(done, id) == PctOf(rows, id))
  {
    hide Sound, Apply, PctOf, WellFormed, Ordered, SizeAfter, PlanFits, Passes, IsStale;
    AppliedSizes(rows, rs);
    ApplyIff(rows, rs);
    forall r | r in rs
      ensures PctOf(Apply(rows, rs).rows, r.id) == if r.to == r.from then PctOf(rows, r.id) else r.to
    {
      OrderedSize(rows, rs, r);
    }
    forall id | forall r :: r in rs ==> r.id != id
      ensures PctOf(Apply(rows, rs).rows, id) == PctOf(rows, id)
    {
      OrderedOther(rows, rs, id);
    }
  }

  /** The steps taken before a refusal. */
  function Taken(rows: seq<Sleeve>, rs: seq<Resize>): seq<Resize> {
    Ordered(rs)[..Reach(Total(rows), Live(rows, Ordered(rs)))]
  }

  ghost predicate ChangesNothing(rows: seq<Sleeve>, steps: seq<Resize>) {
    forall r :: r in steps ==> r.to == PctOf(rows, r.id)
  }

  /** A refusal is said to come before any row is touched.  It does, except that a step refused by the book itself
      leaves the steps before it written: then the book is as it was exactly when none of those changed a size, which
      for sizes that are the book's own is when the refused step was the first. */
  lemma RefusalKeepsTheBookIff(rows: seq<Sleeve>, rs: seq<Resize>)
    requires Sound(rows) && Apply(rows, rs).out != APPLIED
    ensures var a := Apply(rows, rs);
      && Sound(a.rows)
      && (AsMap(a.rows) == AsMap(rows)) == (a.out.STEP_REFUSED? ==> ChangesNothing(rows, Taken(rows, rs)))
      && (!a.out.STEP_REFUSED? ==> a.rows == rows)
      && (a.out.STEP_REFUSED? && Exact(rows, rs) ==> (AsMap(a.rows) == AsMap(rows) <==> Taken(rows, rs) == []))
  {
    hide Sound, Repeats;
    var a := Apply(rows, rs);
    if a.out.STEP_REFUSED? {
      var steps, taken := Ordered(rs), Taken(rows, rs);
      OrderedIsClean(rs);
      ExecuteReaches(rows, steps);
      TakenIsClean(steps, |taken|);
      SameMapIffSameSizes(a.rows, rows);
      forall r | r in taken
        ensures PctOf(a.rows, r.id) == r.to && r in steps
      {
        SizeAfterNamed(rows, taken, r);
      }
      forall id | forall r :: r in taken ==> r.id != id
        ensures PctOf(a.rows, id) == PctOf(rows, id)
      {
        SizeAfterUnnamed(rows, taken, id);
      }
      if taken != [] {
        assert taken[0] in taken;
      }
    }
  }

  lemma TakenIsClean(steps: seq<Resize>, k: nat)
    requires !Repeats(steps) && k <= |steps|
    ensures !Repeats(steps[..k]) && forall r :: r in steps[..k] ==> r in steps
  {
  }

  ghost predicate SameSizes(a: seq<Sleeve>, b: seq<Sleeve>) { forall id :: PctOf(a, id) == PctOf(b, id) }

  lemma SameMapIffSameSizes(a: seq<Sleeve>, b: seq<Sleeve>)
    requires Sound(a) && Sound(b)
    ensures (AsMap(a) == AsMap(b)) == SameSizes(a, b)
  {
    if AsMap(a) == AsMap(b) {
      forall id
        ensures PctOf(a, id) == PctOf(b, id)
      {
        MapLooksUp(a, id);
        MapLooksUp(b, id);
      }
    }
    if SameSizes(a, b) {
      SameSizesSameMap(a, b);
    }
  }

  function FullBook(): seq<Sleeve> { [Sleeve("a", 5000), Sleeve("b", 4000), Sleeve("c", 1000)] }
  function ShrinkAndGrow(): seq<Resize> { [Resize("a", 5000, 3000), Resize("c", 1000, 6000)] }

  lemma FullBookFacts()
    ensures var rows := FullBook();
      Sound(rows) && Total(rows) == 10000 && PctOf(rows, "a") == 5000 && PctOf(rows, "c") == 1000
  {
    var rows := FullBook();
    assert rows[1..] == [rows[1], rows[2]] && rows[1..][1..] == [rows[2]] && rows[1..][1..][1..] == [];
    assert "a" != "b" && "a" != "c" && "b" != "c";
  }

  lemma ShrinkAndGrowFacts()
    ensures var rs := ShrinkAndGrow();
      Ordered(rs) == rs && WellFormed(rs) && SumTo(rs) == 9000 && SumFrom(rs) == 6000 && Reach(10000, rs) == 1
  {
    var rs := ShrinkAndGrow();
    assert rs[1..] == [rs[1]] && rs[1..][1..] == [];
    assert "a" != "c";
    assert Downs(rs) == [rs[0]] && Ups(rs) == [rs[1]];
  }

  lemma SecondStepRefused(rows: seq<Sleeve>, rs: seq<Resize>)
    requires Sound(rows) && Exact(rows, rs) && WellFormed(rs) && |rs| == 2 && Ordered(rs) == rs
    requires PlanApply(rs, 0).Accepted? && Reach(Total(rows), rs) == 1
    ensures Apply(rows, rs).out == STEP_REFUSED(rs[1].id) && PctOf(Apply(rows, rs).rows, rs[0].id) == rs[0].to
  {
    hide Sound, Ordered, Reach, Execute, Repeats, PctOf, Total;
    AcceptedIff(rs, 0);
    OrderedIsClean(rs);
    ExecuteReaches(rows, rs);
    ExactIsLive(rows, rs);
    ExactPassesIff(rows, rs);
    assert rs[..1][0] == rs[0] && SizeAfter(rows, rs[..1], rs[0].id) == rs[0].to;
  }

  /** Three sleeves filling the book, one to shrink and one to grow: the shrinking is written, the growing refused. */
  lemma RefusalCanLeaveAStep()
    ensures var rows, rs := FullBook(), ShrinkAndGrow();
      && Sound(rows) && Exact(rows, rs) && Apply(rows, rs).out == STEP_REFUSED("c")
      && PctOf(rows, "a") == 5000 && PctOf(Apply(rows, rs).rows, "a") == 3000
  {
    var rows, rs := FullBook(), ShrinkAndGrow();
    FullBookFacts();
    ShrinkAndGrowFacts();
    assert rs[0] == Resize("a", 5000, 3000) && rs[1] == Resize("c", 1000, 6000);
    assert Exact(rows, rs) by {
      hide Sound, PctOf, Total;
    }
    hide FullBook, ShrinkAndGrow, Sound, Ordered, Reach, Apply, Exact, PctOf, Total, SumTo, SumFrom, Repeats, PlanApply;
    FittingPlanIsAccepted(rs, 0);
    SecondStepRefused(rows, rs);
  }

  /** Resizes that cover the book from its exact sizes, each target within the book and the total within the
      ceiling, are never refused at any step, and the book ends exactly at the targets. */
  lemma CoveringPlanGoesThrough(rows: seq<Sleeve>, rs: seq<Resize>)
    requires Sound(rows) && Exact(rows, rs) && CoversBook(rows, rs) && WellFormed(rs)
    requires SumTo(rs) <= BOOK + EPSILON && forall r :: r in rs ==> r.to <= BOOK
    ensures Apply(rows, rs).out == APPLIED
    ensures forall id :: PctOf(Apply(rows, rs).rows, id) == SizeAfter([], rs, id)
  {
    hide Sound, Repeats;
    SumFromIsLive(rows, rs);
    ApplyIff(rows, rs);
    ApplyReachesTarget(rows, rs);
    forall id
      ensures PctOf(Apply(rows, rs).rows, id) == SizeAfter([], rs, id)
    {
      if r :| r in rs && r.id == id {
        SizeAfterNamed([], rs, r);
      } else {
        SizeAfterUnnamed([], rs, id);
        RunsIffSized(rows, id);
      }
    }
  }

  lemma OneHairOver(rs: seq<Resize>, r: Resize)
    requires rs == [r] && r == Resize("a", 0, 10003)
    ensures Sound([]) && Exact([], rs) && PlanApply(rs, 0).Accepted? && Apply([], rs).out != APPLIED
  {
    hide PlanApply, Apply;
    assert rs[1..] == [] && r in rs;
    assert SumTo(rs) == r.to + SumTo(rs[1..]) && SumFrom(rs) == r.from + SumFrom(rs[1..]);
    assert FirstFault(rs).None? && !Repeats(rs);
    FittingPlanIsAccepted(rs, 0);
    ApplyIff([], rs);
  }

  /** A plan the planner accepts can still be refused one layer down: a size a hair over the whole book. */
  lemma AcceptedPlanCanBeRefused()
    ensures exists rows, rs ::
              Sound(rows) && Exact(rows, rs) && PlanApply(rs, 0).Accepted? && Apply(rows, rs).out != APPLIED
  {
    hide Sound, Exact, PlanApply, Apply;
    OneHairOver([Resize("a", 0, 10003)], Resize("a", 0, 10003));
  }

  // ---------------------------------------------------------------- the audit log and undo

  datatype LogRow = LogRow(undo: bool, before: map<Id, int>, after: map<Id, int>)

  /** The newest application in the log, or |log| if none was recorded. */
  function LastApply(log: seq<LogRow>): (n: nat)
    ensures n <= |log| && (n < |log| ==> !log[n].undo)
  {
    if log == [] then 0
    else if !log[|log| - 1].undo then |log| - 1
    else
      var n := LastApply(log[..|log| - 1]);
      if n == |log| - 1 then |log| else n
  }

  function GetPct(m: map<Id, int>, id: Id): int { if id in m then m[id] else 0 }

  /** The resizes that turn a recorded application around, in any order. */
  ghost predicate TurnsAround(row: LogRow, rs: seq<Resize>) {
    && !Repeats(rs)
    && (forall r :: r in rs ==> r.id in row.before || r.id in row.after)
    && (forall r :: r in rs ==> r.from == GetPct(row.after, r.id) && r.to == GetPct(row.before, r.id))
    && (forall id :: id in row.before || id in row.after ==> exists r :: r in rs && r.id == id)
  }

  /** Turning an application around on the book it left restores the sizes it replaced, whatever they were. */
  lemma UndoRestores(was: seq<Sleeve>, now: seq<Sleeve>, rs: seq<Resize>)
    requires Sound(was) && Sound(now) && TurnsAround(LogRow(false, AsMap(was), AsMap(now)), rs) && rs != []
    ensures Apply(now, rs).out == APPLIED && Sound(Apply(now, rs).rows) && AsMap(Apply(now, rs).rows) == AsMap(was)
  {
    hide Sound, Repeats;
    forall id
      ensures GetPct(AsMap(was), id) == PctOf(was, id) && GetPct(AsMap(now), id) == PctOf(now, id)
      ensures 0 <= PctOf(was, id) <= BOOK && (id == "" ==> id !in AsMap(was) && id !in AsMap(now))
    {
      RunsIffSized(was, id);
      RunsIffSized(now, id);
    }
    NoFaultMeans(rs);
    TurnsAroundSum(was, now, rs);
    SoundTotal(was);
    ApplyIff(now, rs);
    ApplyReachesTarget(now, rs);
    var done := Apply(now, rs).rows;
    forall id
      ensures PctOf(done, id) == PctOf(was, id)
    {
      RunsIffSized(was, id);
      RunsIffSized(now, id);
      if id in AsMap(was) || id in AsMap(now) {
        var r :| r in rs && r.id == id;
      }
    }
    SameSizesSameMap(done, was);
  }

  /** The turned-around resizes cover both books, so their totals are the books' totals. */
  lemma TurnsAroundSum(was: seq<Sleeve>, now: seq<Sleeve>, rs: seq<Resize>)
    requires Sound(was) && Sound(now) && TurnsAround(LogRow(false, AsMap(was), AsMap(now)), rs)
    ensures SumTo(rs) == Total(was) && SumFrom(rs) == Total(now)
  {
    hide Sound, Repeats, Total, SumTo, SumFrom, PctOf, AsMap;
    forall id
      ensures (id in AsMap(was) ==> AsMap(was)[id] == PctOf(was, id)) && (id !in AsMap(was) ==> PctOf(was, id) == 0)
      ensures (id in AsMap(now) ==> AsMap(now)[id] == PctOf(now, id)) && (id !in AsMap(now) ==> PctOf(now, id) == 0)
    {
      MapLooksUp(was, id);
      MapLooksUp(now, id);
    }
    forall s | s in now
      ensures s.id in AsMap(now)
    {
      MapLooksUp(now, s.id);
    }
    forall s | s in was
      ensures s.id in AsMap(was)
    {
      MapLooksUp(was, s.id);
    }
    SumFromIsLive(now, rs);
    var flipped := seq(|rs|, i requires 0 <= i < |rs| => Resize(rs[i].id, rs[i].to, rs[i].from));
    FlipFacts(rs, flipped);
    SumFromIsLive(was, flipped);
  }

  lemma {:induction false} FlipSums(rs: seq<Resize>, flipped: seq<Resize>)
    requires |flipped| == |rs| && forall i :: 0 <= i < |rs| ==> flipped[i] == Resize(rs[i].id, rs[i].to, rs[i].from)
    ensures SumFrom(flipped) == SumTo(rs)
  {
    if rs != [] {
      FlipSums(rs[1..], flipped[1..]);
    }
  }

  lemma FlipFacts(rs: seq<Resize>, flipped: seq<Resize>)
    requires |flipped| == |rs| && forall i :: 0 <= i < |rs| ==> flipped[i] == Resize(rs[i].id, rs[i].to, rs[i].from)
    ensures SumFrom(flipped) == SumTo(rs) && (!Repeats(rs) ==> !Repeats(flipped))
    ensures forall r :: r in rs ==> Resize(r.id, r.to, r.from) in flipped
    ensures forall r :: r in flipped ==> Resize(r.id, r.to, r.from) in rs
  {
    FlipSums(rs, flipped);
    hide SumFrom, SumTo;
    forall r | r in rs
      ensures Resize(r.id, r.to, r.from) in flipped
    {
      var i :| 0 <= i < |rs| && rs[i] == r;
      assert flipped[i] in flipped;
    }
    forall r | r in flipped
      ensures Resize(r.id, r.to, r.from) in rs
    {
      var i :| 0 <= i < |rs| && flipped[i] == r;
      assert rs[i] in rs;
    }
  }

  /** The service: one book and its audit log. */
  class Service {
    const book: Book
    var log: seq<LogRow>

    constructor (book: Book)
      ensures this.book == book && log == []
    {
      this.book, this.log := book, [];
    }

    method ApplyTarget(rs: seq<Resize>, confirm: bool) returns (out: Outcome)
      modifies this, book
      ensures !confirm ==> out == NOT_CONFIRMED && book.rows == old(book.rows)
      ensures confirm ==> Applied(out, book.rows) == Apply(old(book.rows), rs)
      ensures log == if out == APPLIED then old(log) + [LogRow(false, AsMap(old(book.rows)), AsMap(book.rows))]
          else old(log)
    {
      if !confirm {
        return NOT_CONFIRMED;
      }
      var before := AsMap(book.rows);
      if IsStale(book.rows, rs) {
        return STALE;
      }
      var plan := MakePlan(rs, 0);
      if plan.Refused? {
        return PLAN_REFUSED(plan.why);
      }
      var at := RunSteps(plan.steps);
      if at.Some? {
        return STEP_REFUSED(at.value);
      }
      log := log + [LogRow(false, before, AsMap(book.rows))];
      return APPLIED;
    }

    method RunSteps(steps: seq<Resize>) returns (at: Option<Id>)
      modifies book
      ensures Execution(book.rows, at) == Execute(old(book.rows), steps)
    {
      for k := 0 to |steps|
        invariant Execute(book.rows, steps[k..]) == Execute(old(book.rows), steps)
      {
        var s := steps[k];
        assert steps[k..][1..] == steps[k + 1..];
        if s.to <= 0 {
          var ok := book.Remove(s.id);
          if !ok {
            return Some(s.id);
          }
        } else {
          var why := book.AddOrResize(s.id, s.to);
          if why.Some? {
            return Some(s.id);
          }
        }
      }
      return None;
    }

    /** Turn the newest recorded application around, through the same planning and validation. */
    method UndoLast(confirm: bool) returns (out: Option<Outcome>)
      modifies this, book
      ensures !confirm || LastApply(old(log)) == |old(log)| ==> out.None?
      ensures out.None? ==> book.rows == old(book.rows) && log == old(log)
      ensures out.Some? ==>
        var row := old(log)[LastApply(old(log))];
        exists rs :: rs != [] && TurnsAround(row, rs) && Applied(out.value, book.rows) == Apply(old(book.rows), rs)
      ensures out == Some(APPLIED) ==>
        log == old(log) + [LogRow(false, AsMap(old(book.rows)), AsMap(book.rows)),
                           LogRow(true, AsMap(old(book.rows)), AsMap(book.rows))]
      ensures confirm && LastApply(old(log)) < |old(log)| ==>
        var row := old(log)[LastApply(old(log))]; out.None? <==> row.before == map[] && row.after == map[]
    {
      var n := LastApply(log);
      if !confirm || n == |log| {
        return None;
      }
      var row := log[n];
      if row.before == map[] && row.after == map[] {
        return None;
      }
      var rs := Turned(row);
      var before := AsMap(book.rows);
      var done := ApplyTarget(rs, true);
      out := Some(done);
      if done == APPLIED {
        log := log + [LogRow(true, before, AsMap(book.rows))];
      }
    }
  }

  /** One resize per strategy either side of the application names. */
  method Turned(row: LogRow) returns (rs: seq<Resize>)
    ensures TurnsAround(row, rs)
    ensures row.before != map[] || row.after != map[] ==> rs != []
  {
    hide TurnedSoFar, TurnsAround;
    rs := [];
    var ids := row.before.Keys + row.after.Keys;
    ghost var done: set<Id> := {};
    TurnedNone(row);
    while ids != {}
      invariant done + ids == row.before.Keys + row.after.Keys && done !! ids
      invariant TurnedSoFar(row, rs, done)
      decreases |ids|
    {
      var id :| id in ids;
      TurnedOneMore(row, rs, done, id);
      rs, ids, done := rs + [TurnedRow(row, id)], ids - {id}, done + {id};
    }
    assert done == row.before.Keys + row.after.Keys;
    TurnedAll(row, rs);
  }

  ghost predicate TurnedSoFar(row: LogRow, rs: seq<Resize>, done: set<Id>) {
    && !Repeats(rs)
    && (forall r :: r in rs ==> r == TurnedRow(row, r.id) && r.id in done)
    && (forall id :: id in done ==> TurnedRow(row, id) in rs)
  }

  lemma TurnedNone(row: LogRow)
    ensures TurnedSoFar(row, [], {})
  {
  }

  lemma TurnedOneMore(row: LogRow, rs: seq<Resize>, done: set<Id>, id: Id)
    requires TurnedSoFar(row, rs, done) && id !in done
    ensures TurnedSoFar(row, rs + [TurnedRow(row, id)], done + {id})
  {
  }

  lemma TurnedAll(row: LogRow, rs: seq<Resize>)
    requires TurnedSoFar(row, rs, row.before.Keys + row.after.Keys)
    ensures TurnsAround(row, rs)
    ensures row.before != map[] || row.after != map[] ==> rs != []
  {
  }

  function TurnedRow(row: LogRow, id: Id): Resize {
    Resize(id, GetPct(row.after, id), GetPct(row.before, id))
  }

  /** Undo is an involution on the sleeve map: the first undo of a successful application restores the map
      before it, and a second undo restores the map after it, because the first logged itself as an
      application. */
  method ApplyUndoUndo(service: Service, rs: seq<Resize>)
    returns (out: Outcome, undone: map<Id, int>, redone: map<Id, int>)
    requires Sound(service.book.rows)
    modifies service, service.book
    ensures Applied(out, Apply(old(service.book.rows), rs).rows) == Apply(old(service.book.rows), rs)
    ensures out == APPLIED ==>
        undone == AsMap(old(service.book.rows)) && redone == AsMap(Apply(old(service.book.rows), rs).rows)
  {
    ghost var was, log := service.book.rows, service.log;
    out := service.ApplyTarget(rs, true);
    undone, redone := map[], map[];
    if out == APPLIED {
      hide Sound, Exact, TurnsAround, Apply;
      ApplyReachesTarget(was, rs);
      ghost var now := service.book.rows;
      ghost var row := LogRow(false, AsMap(was), AsMap(now));
      EveryUndoRestores(was, now);
      NewestApply(log, row);
      var first := service.UndoLast(true);
      undone := AsMap(service.book.rows);
      ghost var back := service.book.rows;
      assert AsMap(back) == AsMap(was) && Sound(back);
      if first.Some? {
        EveryUndoRestores(now, back);
        NewestApply(log + [row], LogRow(false, AsMap(now), AsMap(back)));
      }
      var second := service.UndoLast(true);
      redone := AsMap(service.book.rows);
    }
  }

  lemma EveryUndoRestores(was: seq<Sleeve>, now: seq<Sleeve>)
    requires Sound(was) && Sound(now)
    ensures forall rs :: rs != [] && TurnsAround(LogRow(false, AsMap(was), AsMap(now)), rs) ==>
              var done := Apply(now, rs); done.out == APPLIED && Sound(done.rows) && AsMap(done.rows) == AsMap(was)
  {
    hide Sound, TurnsAround, Apply;
    forall rs | rs != [] && TurnsAround(LogRow(false, AsMap(was), AsMap(now)), rs)
      ensures var done := Apply(now, rs); done.out == APPLIED && Sound(done.rows) && AsMap(done.rows) == AsMap(was)
    {
      UndoRestores(was, now, rs);
    }
  }

  /** An application just logged is the newest one, even once an undo row follows it. */
  lemma NewestApply(log: seq<LogRow>, row: LogRow)
    requires !row.undo
    ensures LastApply(log + [row]) == |log|
    ensures forall u: LogRow :: u.undo ==> LastApply(log + [row, u]) == |log|
  {
  }
}
