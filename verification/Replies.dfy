/** What a caller of the guarded fetch is given: its own fetch's outcome if it made one, a live cached value if not. */
module Replies {
  import opened Basics
  import opened SingleFlight

  /** What a caller that has fetched is carrying, or has returned. */
  ghost predicate Carries(p: Place, r: Reply) {
    match p
    case Storing(_, v) => r == Got(v)
    case Keeping(_, v) => r == Got(v)
    case Popping(_, x) => x == r
    case Signalling(_, x) => x == r
    case Returned(x) => x == r
    case _ => false
  }

  /** A caller that has fetched carries what it fetched. */
  ghost predicate CarriesOwn(s: State) {
    forall n :: 0 <= n < |s.log| ==>
      s.log[n].thread < |s.places| && Carries(s.places[s.log[n].thread], s.log[n].result)
  }

  ghost predicate FailedOwn(s: State, i: nat) {
    exists n :: 0 <= n < |s.log| && s.log[n].thread == i && s.log[n].result == Failed
  }

  /** A caller that carries a failure fetched it. */
  ghost predicate FailsAlone(s: State) {
    forall i :: 0 <= i < |s.places| && Carries(s.places[i], Failed) ==> FailedOwn(s, i)
  }

  ghost predicate FetchesOnce(s: State) {
    forall m, n :: 0 <= m < n < |s.log| ==> s.log[m].thread != s.log[n].thread
  }

  /** No entry outlives the time to live. */
  ghost predicate ShortLived(s: State) { forall k :: k in s.cache ==> s.cache[k].expires <= s.now + s.ttl }

  ghost predicate Honours(s: State) { CarriesOwn(s) && FailsAlone(s) && FetchesOnce(s) && ShortLived(s) }

  // ---------------------------------------------------------------- every step keeps it

  predicate AboutToFetch(p: Place) { p.Leading? || p.Fetching? }

  lemma MoveShape(s: State, i: nat, r: Reply)
    requires Enabled(s, Move(i, r))
    ensures var t := Next(s, Move(i, r));
      |t.places| == |s.places| && t.places == s.places[i := t.places[i]] && t.ttl == s.ttl && t.now == s.now
  {
    hide Live, AfterRead, Signalled;
  }

  /** A move that does not fetch passes on what its caller carries, and makes up no failure. */
  lemma OthersPassOn(s: State, i: nat, r: Reply)
    requires Enabled(s, Move(i, r)) && !AboutToFetch(s.places[i])
    ensures var t := Next(s, Move(i, r));
      && t.log == s.log && |t.places| == |s.places|
      && (forall x :: Carries(s.places[i], x) ==> Carries(t.places[i], x))
      && (Carries(t.places[i], Failed) ==> Carries(s.places[i], Failed))
  {
    hide Live, AfterRead, Signalled;
  }

  /** A fetch is logged, and its caller carries what it gave. */
  lemma FetchIsCarried(s: State, i: nat, r: Reply)
    requires Enabled(s, Move(i, r)) && AboutToFetch(s.places[i])
    ensures var t := Next(s, Move(i, r));
      && |t.places| == |s.places| && (forall x :: !Carries(s.places[i], x))
      && |t.log| == |s.log| + 1 && t.log[..|s.log|] == s.log && t.log[|s.log|].thread == i
      && Carries(t.places[i], t.log[|s.log|].result)
  {
  }

  lemma MoveKeepsShortLived(s: State, i: nat, r: Reply)
    requires Enabled(s, Move(i, r)) && ShortLived(s)
    ensures ShortLived(Next(s, Move(i, r)))
  {
  }

  lemma CarriesOne(p: Place, x: Reply, y: Reply)
    requires Carries(p, x) && Carries(p, y)
    ensures x == y
  {
  }

  lemma MoveKeepsOwn(s: State, i: nat, r: Reply)
    requires Enabled(s, Move(i, r)) && CarriesOwn(s) && FailsAlone(s) && FetchesOnce(s)
    ensures var t := Next(s, Move(i, r)); CarriesOwn(t) && FailsAlone(t) && FetchesOnce(t)
  {
    hide Next, Carries;
    MoveShape(s, i, r);
    if AboutToFetch(s.places[i]) {
      FetchIsCarried(s, i, r);
    } else {
      OthersPassOn(s, i, r);
    }
    var t := Next(s, Move(i, r));
    assert forall n :: 0 <= n < |s.log| ==> t.log[n] == s.log[n];
    forall j | 0 <= j < |t.places| && Carries(t.places[j], Failed)
      ensures FailedOwn(t, j)
    {
      if t.log != s.log && j == i {
        CarriesOne(t.places[i], Failed, t.log[|s.log|].result);
      } else {
        assert FailedOwn(s, j);
        var n :| 0 <= n < |s.log| && s.log[n].thread == j && s.log[n].result == Failed;
        assert t.log[n].thread == j;
      }
    }
  }

  lemma StepHonours(s: State, a: Step)
    requires Enabled(s, a) && Honours(s)
    ensures Honours(Next(s, a))
  {
    hide CarriesOwn, FailsAlone, FetchesOnce, ShortLived;
    match a {
      case Tick(dt) =>
        TickHonours(s, dt);
      case Move(i, r) =>
        MoveKeepsOwn(s, i, r);
        MoveKeepsShortLived(s, i, r);
    }
  }

  lemma TickHonours(s: State, dt: real)
    requires dt >= 0.0 && Honours(s)
    ensures Honours(Next(s, Tick(dt)))
  {
    var t := Next(s, Tick(dt));
    forall i | 0 <= i < |t.places| && Carries(t.places[i], Failed)
      ensures FailedOwn(t, i)
    {
      assert FailedOwn(s, i);
    }
  }

  lemma {:induction false} RunHonours(s: State, run: seq<Step>)
    requires CanRun(s, run) && Honours(s)
    ensures Honours(Run(s, run))
    decreases |run|
  {
    hide Honours, Next;
    if run != [] {
      StepHonours(s, run[0]);
      RunHonours(Next(s, run[0]), run[1..]);
    }
  }

  lemma ReachableHonours(s: State)
    requires Reachable(s)
    ensures Honours(s)
  {
    var start, run :| Initial(start) && CanRun(start, run) && Run(start, run) == s;
    assert Honours(start);
    hide Honours;
    RunHonours(start, run);
  }

  // ---------------------------------------------------------------- what callers are given

  /** A caller that fetched returns what its fetch gave, value or exception, and fetches once; one that did not fetch
      returns a value. So no caller is handed an exception that another's fetch raised. */
  lemma RepliesAreOwn(s: State, i: nat)
    requires Reachable(s) && i < |s.places| && s.places[i].Returned?
    ensures forall n :: 0 <= n < |s.log| && s.log[n].thread == i ==> s.log[n].result == s.places[i].r
    ensures forall m, n :: 0 <= m < n < |s.log| ==> s.log[m].thread != s.log[n].thread
    ensures s.places[i].r == Failed ==> exists n :: 0 <= n < |s.log| && s.log[n].thread == i
  {
    hide Reachable;
    ReachableHonours(s);
  }

  /** Nothing stale is served: once the time to live has passed with nothing stored, whoever looks goes on to claim or
      to fetch. */
  lemma NothingStaleIsServed(s: State, dt: real, i: nat, r: Reply)
    requires Reachable(s) && dt >= s.ttl && dt >= 0.0
    requires var t := Next(s, Tick(dt)); Enabled(t, Move(i, r)) && (t.places[i].Reading? || t.places[i].Rereading?)
    ensures var u := Next(Next(s, Tick(dt)), Move(i, r));
      !u.places[i].Returned? && u.keys[i] !in u.cache
  {
    hide Reachable;
    ReachableHonours(s);
  }
}
