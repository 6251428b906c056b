/** When one key is fetched twice by leaders before what the first of them stored expires. */
module ColdKeys {
  import opened Basics
  import opened SingleFlight

  // ---------------------------------------------------------------- what a store leaves behind

  /** The flights there were keep their keys, leaders and, save one, their fates; time does not run back. */
  ghost predicate FatesStay(s: State, t: State, except: Option<nat>) {
    && t.keys == s.keys && |t.places| == |s.places| && t.now >= s.now && |t.flights| >= |s.flights|
    && forall f :: 0 <= f < |s.flights| ==>
         && t.flights[f].key == s.flights[f].key && t.flights[f].leader == s.flights[f].leader
         && (except != Some(f) ==> t.flights[f].fate == s.flights[f].fate)
  }

  lemma OthersSettleNothing(s: State, a: Step)
    requires Enabled(s, a) && !(a.Move? && (s.places[a.i].Leading? || s.places[a.i].Storing?))
    ensures FatesStay(s, Next(s, a), None)
  {
    hide Live, AfterRead;
  }

  lemma LeadersSettleTheirOwn(s: State, i: nat, r: Reply)
    requires Enabled(s, Move(i, r)) && (s.places[i].Leading? || s.places[i].Storing?)
    ensures FatesStay(s, Next(s, Move(i, r)), Some(s.places[i].f))
  {
    hide Live, AfterRead;
  }

  lemma StoredIsSettled(s: State, i: nat, f: nat)
    requires Inv(s) && i < |s.places| && (s.places[i].Leading? || s.places[i].Storing?)
    requires f < |s.flights| && s.flights[f].fate.Stored?
    ensures s.places[i].f != f
  {
    hide FetchedOnce, ValuesBelong, TableIsLeaders, LeadersSignal, StoresLast, FollowersExcused, FollowersKnown, Held;
  }

  lemma StoredStays(s: State, a: Step, f: nat)
    requires Inv(s) && Enabled(s, a) && f < |s.flights| && s.flights[f].fate.Stored?
    ensures var t := Next(s, a);
      && t.keys == s.keys && |t.places| == |s.places| && t.now >= s.now && |t.flights| >= |s.flights|
      && t.flights[f].key == s.flights[f].key && t.flights[f].fate == s.flights[f].fate
  {
    hide Inv, Next;
    if a.Move? && (s.places[a.i].Leading? || s.places[a.i].Storing?) {
      LeadersSettleTheirOwn(s, a.i, a.result);
      StoredIsSettled(s, a.i, f);
    } else {
      OthersSettleNothing(s, a);
    }
  }

  /** Until it expires, what a leader stored is there to be read. */
  lemma StoredIsLive(s: State, f: nat)
    requires Inv(s) && f < |s.flights| && s.flights[f].fate.Stored? && s.now < s.flights[f].fate.expires
    ensures Live(s.cache, s.flights[f].key, s.now).Some?
  {
    hide FetchedOnce, ValuesBelong, TableIsLeaders, LeadersSignal, FollowersExcused, FollowersKnown, FatesSettle;
  }

  lemma {:induction false} TimeGoesOn(s: State, run: seq<Step>)
    requires CanRun(s, run)
    ensures Run(s, run).now >= s.now
    decreases |run|
  {
    hide Live, AfterRead;
    if run != [] {
      TimeGoesOn(Next(s, run[0]), run[1..]);
    }
  }

  // ---------------------------------------------------------------- a caller that does not claim again

  /** The caller is not about to claim, leads none of the flights from `flights` on, and has not fetched for one since
      `log`. */
  ghost predicate PastClaim(s: State, i: nat, flights: nat, log: nat) {
    && i < |s.places| && !s.places[i].Claiming?
    && (Carried(s.places[i]).Some? ==> Carried(s.places[i]).value < flights)
    && forall n :: log <= n < |s.log| && s.log[n].leading && s.log[n].thread == i ==> s.log[n].f < flights
  }

  lemma OwnMoveStaysPast(s: State, i: nat, r: Reply, flights: nat, log: nat)
    requires Enabled(s, Move(i, r)) && PastClaim(s, i, flights, log)
    requires s.places[i].Reading? ==> Live(s.cache, s.keys[i], s.now).Some?
    ensures PastClaim(Next(s, Move(i, r)), i, flights, log)
  {
    hide Live, AfterRead;
  }

  lemma OthersMoveKeepsPast(s: State, a: Step, i: nat, flights: nat, log: nat)
    requires Enabled(s, a) && PastClaim(s, i, flights, log) && (a.Move? ==> a.i != i)
    ensures PastClaim(Next(s, a), i, flights, log)
  {
    hide Live, AfterRead;
  }

  /** From a store on, and until it expires, a caller of its key that was not about to claim never claims: if it has yet
      to read the cache, it finds the entry there. */
  lemma {:induction false} OnlyClaimersLead(s: State, run: seq<Step>, f: nat, i: nat, flights: nat, log: nat)
    requires Inv(s) && CanRun(s, run) && f < |s.flights| && s.flights[f].fate.Stored?
    requires Run(s, run).now < s.flights[f].fate.expires
    requires PastClaim(s, i, flights, log) && s.keys[i] == s.flights[f].key
    ensures PastClaim(Run(s, run), i, flights, log)
    decreases |run|
  {
    hide Inv, Next, Enabled, PastClaim, Live;
    if run != [] {
      TimeGoesOn(s, run);
      StoredIsLive(s, f);
      if run[0].Move? && run[0].i == i {
        OwnMoveStaysPast(s, i, run[0].result, flights, log);
      } else {
        OthersMoveKeepsPast(s, run[0], i, flights, log);
      }
      StoredStays(s, run[0], f);
      StepKeepsInv(s, run[0]);
      assert i < |s.keys| by { PastIsACaller(s, i, flights, log); }
      OnlyClaimersLead(Next(s, run[0]), run[1..], f, i, flights, log);
    }
  }

  lemma PastIsACaller(s: State, i: nat, flights: nat, log: nat)
    requires Inv(s) && PastClaim(s, i, flights, log)
    ensures i < |s.keys| == |s.places|
  {
  }

  // ---------------------------------------------------------------- a later flight of a key follows a release

  /** Every flight is its leader's, on its leader's key; and no two flights of a key overlap: by the time of the later
      one, the leader of the earlier has taken it out of the table. */
  ghost predicate EarlierReleased(s: State) {
    && (forall f :: 0 <= f < |s.flights| ==>
          && s.flights[f].leader < |s.places| && s.flights[f].leader < |s.keys|
          && s.keys[s.flights[f].leader] == s.flights[f].key)
    && (forall f, g :: 0 <= f < g < |s.flights| && s.flights[f].key == s.flights[g].key ==>
          Held(s.places[s.flights[f].leader]) != Some(f))
  }

  /** Flights keep their key and leader, and nobody takes hold of one. */
  ghost predicate NobodyTakesHold(s: State, t: State) {
    && t.keys == s.keys && |t.flights| == |s.flights| && |t.places| == |s.places|
    && (forall f :: 0 <= f < |s.flights| ==>
          t.flights[f].key == s.flights[f].key && t.flights[f].leader == s.flights[f].leader)
    && (forall i :: 0 <= i < |s.places| && Held(t.places[i]).Some? ==> Held(t.places[i]) == Held(s.places[i]))
  }

  lemma NobodyTakesHoldKeeps(s: State, t: State)
    requires EarlierReleased(s) && NobodyTakesHold(s, t)
    ensures EarlierReleased(t)
  {
    hide Held;
  }

  lemma LoudTakesNoHold(s: State, i: nat, r: Reply)
    requires Enabled(s, Move(i, r)) && Loud(s.places[i]) && (s.places[i].Claiming? ==> s.keys[i] in s.table)
    ensures NobodyTakesHold(s, Next(s, Move(i, r)))
  {
    hide Live, AfterRead;
  }

  lemma MostStepsTakeNoHold(s: State, a: Step)
    requires Enabled(s, a) && !(a.Move? && s.places[a.i].Claiming? && s.keys[a.i] !in s.table)
    ensures NobodyTakesHold(s, Next(s, a))
  {
    hide Live, AfterRead, Held, Carried;
    if a.Move? && Loud(s.places[a.i]) {
      LoudTakesNoHold(s, a.i, a.result);
    } else if a.Move? {
      MoveIsQuiet(s, a.i, a.result);
      hide Next;
    }
  }

  lemma ClaimKeepsEarlierReleased(s: State, i: nat)
    requires Inv(s) && EarlierReleased(s) && i < |s.places| && s.places[i].Claiming? && s.keys[i] !in s.table
    ensures EarlierReleased(Claim(s, i))
  {
    hide FetchedOnce, ValuesBelong, StoresLast, FollowersExcused, FollowersKnown, FatesSettle, Held, Carried,
         LeadersSignal;
    Ownership(|s.flights|, Failed);
  }

  lemma StepKeepsEarlierReleased(s: State, a: Step)
    requires Inv(s) && EarlierReleased(s) && Enabled(s, a)
    ensures EarlierReleased(Next(s, a))
  {
    hide EarlierReleased, NobodyTakesHold, Live, AfterRead, TableIsLeaders, LeadersSignal, FollowersKnown, FatesSettle,
         StoresLast, FollowersExcused, FetchedOnce, ValuesBelong;
    if a.Move? && s.places[a.i].Claiming? && s.keys[a.i] !in s.table {
      ClaimKeepsEarlierReleased(s, a.i);
    } else {
      MostStepsTakeNoHold(s, a);
      NobodyTakesHoldKeeps(s, Next(s, a));
    }
  }

  lemma {:induction false} RunKeepsEarlierReleased(s: State, run: seq<Step>)
    requires Inv(s) && EarlierReleased(s) && CanRun(s, run)
    ensures EarlierReleased(Run(s, run))
    decreases |run|
  {
    hide Inv, Next, Enabled, EarlierReleased;
    if run != [] {
      StepKeepsInv(s, run[0]);
      StepKeepsEarlierReleased(s, run[0]);
      RunKeepsEarlierReleased(Next(s, run[0]), run[1..]);
    }
  }

  /** In every reachable state, from the very claim of a later flight of a key on, the leader of an earlier one has
      taken it out of the table. */
  lemma LaterClaimsFollowReleases(s: State)
    requires Reachable(s)
    ensures EarlierReleased(s)
  {
    hide Inv, EarlierReleased;
    var start, run :| Initial(start) && CanRun(start, run) && Run(start, run) == s;
    StartIsConsistent(start);
    RunKeepsEarlierReleased(start, run);
  }

  lemma StartIsConsistent(s: State)
    requires Initial(s)
    ensures Inv(s) && EarlierReleased(s)
  {
  }

  // ---------------------------------------------------------------- fetched twice

  /** Take any reachable state in which a leader has stored a value, up to the moment it expires.  If another leader
      then claims the key and fetches it, that leader had read the cache, and missed, before this state, so before the
      store; and it claimed only after the first leader had taken the key out of the table. */
  lemma FetchedTwiceMeansMissedBefore(s: State, run: seq<Step>, f: nat, n: nat)
    requires Reachable(s) && CanRun(s, run) && f < |s.flights| && s.flights[f].fate.Stored?
    requires Run(s, run).now < s.flights[f].fate.expires
    requires var t := Run(s, run); |s.log| <= n < |t.log| && t.log[n].leading && t.log[n].f >= |s.flights|
    requires var t := Run(s, run); t.log[n].thread < |s.keys| && s.keys[t.log[n].thread] == s.flights[f].key
    ensures |s.keys| == |s.places| && s.places[Run(s, run).log[n].thread] == Claiming
    ensures EarlierReleased(Run(s, run))
  {
    hide Reachable, Inv, CanRun, Run, EarlierReleased, PastClaim;
    var i := Run(s, run).log[n].thread;
    ReachableIsConsistent(s);
    ConsistentCounts(s);
    ReachableGoesOn(s, run);
    LaterClaimsFollowReleases(Run(s, run));
    if !s.places[i].Claiming? {
      LeadsOnlyWhatIsThere(s, i);
      OnlyClaimersLead(s, run, f, i, |s.flights|, |s.log|);
      PastClaimFetchesNothing(Run(s, run), i, |s.flights|, |s.log|, n);
    }
  }

  lemma PastClaimFetchesNothing(s: State, i: nat, flights: nat, log: nat, n: nat)
    requires PastClaim(s, i, flights, log) && log <= n < |s.log|
    ensures !(s.log[n].leading && s.log[n].thread == i && s.log[n].f >= flights)
  {
  }

  lemma ConsistentCounts(s: State)
    requires Inv(s)
    ensures |s.keys| == |s.places|
  {
  }

  lemma LeadsOnlyWhatIsThere(s: State, i: nat)
    requires Inv(s) && i < |s.places| && !s.places[i].Claiming?
    ensures PastClaim(s, i, |s.flights|, |s.log|)
  {
  }

  lemma ReachableGoesOn(s: State, run: seq<Step>)
    requires Reachable(s) && CanRun(s, run)
    ensures Reachable(Run(s, run))
  {
    hide Next, Enabled, Initial;
    var start, first :| Initial(start) && CanRun(start, first) && Run(start, first) == s;
    RunSplit(start, first, run);
  }
}
