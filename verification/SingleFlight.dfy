/** Concurrent calls of one guarded fetch: cache read, claim, fetch, store, release, wake, re-read.
    Each step is what one thread does while holding a lock, or between locks; any thread may move next. */
module SingleFlight {
  import opened Basics

  type Key = string
  type Value = int

  datatype Entry = Entry(value: Value, expires: real)
  datatype Reply = Got(value: Value) | Failed

  /** What became of a leader's fetch. */
  datatype Fate = Pending | Raised | Stored(expires: real)

  /** One entry ever made in the in-flight table: its key, the thread that made it, its event's flag. */
  datatype Flight = Flight(key: Key, leader: nat, signalled: bool, fate: Fate)

  /** Where a caller is.  Numbers refer to flights. */
  datatype Place =
    | Reading                          // about to look in the cache
    | Claiming                         // missed; about to claim the key
    | Leading(f: nat)                  // claimed; fetching
    | Storing(f: nat, v: Value)        // fetched; about to cache
    | Popping(f: nat, r: Reply)        // about to take the key out of the table
    | Signalling(f: nat, r: Reply)     // about to set the event
    | Waiting(f: nat)                  // blocked on another's event
    | Rereading(f: nat)                // woken; about to look in the cache again
    | Fetching(f: nat)                 // found nothing; fetching for itself
    | Keeping(f: nat, v: Value)        // fetched for itself; about to cache
    | Returned(r: Reply)

  /** A call of the provider: by whom, whether as a leader, on which flight, when, and what was fetched. */
  datatype Fetch = Fetch(thread: nat, leading: bool, f: nat, at: real, result: Reply)

  datatype State = State(
    keys: seq<Key>, places: seq<Place>, cache: map<Key, Entry>, table: map<Key, nat>,
    flights: seq<Flight>, log: seq<Fetch>, now: real, ttl: real)

  datatype Step = Tick(dt: real) | Move(i: nat, result: Reply)

  // ---------------------------------------------------------------- the shared operations

  /** The live entry for a key, if there is one. */
  function Live(cache: map<Key, Entry>, k: Key, now: real): Option<Value> {
    if k in cache && now < cache[k].expires then Some(cache[k].value) else None
  }

  /** A cache read throws an expired entry out. */
  function AfterRead(cache: map<Key, Entry>, k: Key, now: real): map<Key, Entry> {
    if k in cache && now >= cache[k].expires then cache - {k} else cache
  }

  /** The expiring cache as an object; both operations run under its lock. */
  class TtlCache {
    const ttl: real
    var store: map<Key, Entry>

    constructor (ttl: real)
      ensures this.ttl == ttl && store == map[]
    {
      this.ttl, store := ttl, map[];
    }

    method Get(k: Key, now: real) returns (hit: Option<Value>)
      modifies this
      ensures hit == Live(old(store), k, now) && store == AfterRead(old(store), k, now)
    {
      if k !in store {
        return None;
      }
      var entry := store[k];
      if now >= entry.expires {
        store := store - {k};
        return None;
      }
      hit := Some(entry.value);
    }

    method Set(k: Key, v: Value, now: real)
      modifies this
      ensures store == old(store)[k := Entry(v, now + ttl)]
    {
      store := store[k := Entry(v, now + ttl)];
    }
  }

  function Signalled(flights: seq<Flight>, f: nat): seq<Flight>
    requires f < |flights|
  {
    flights[f := flights[f].(signalled := true)]
  }

  /** The in-flight table and the events behind it, as one object. */
  class InFlight {
    var table: map<Key, nat>
    var flights: seq<Flight>

    constructor ()
      ensures table == map[] && flights == []
    {
      table, flights := map[], [];
    }

    /** Become the leader for a key, or learn which flight to wait for. */
    method Claim(k: Key, thread: nat) returns (leader: bool, f: nat)
      modifies this
      ensures leader == (k !in old(table))
      ensures f == if leader then |old(flights)| else old(table)[k]
      ensures table == if leader then old(table)[k := f] else old(table)
      ensures flights == if leader then old(flights) + [Flight(k, thread, false, Pending)] else old(flights)
    {
      if k in table {
        return false, table[k];
      }
      f := |flights|;
      table := table[k := f];
      flights := flights + [Flight(k, thread, false, Pending)];
      leader := true;
    }

    /** Take the key out of the table, then set its event if there was one. */
    method Release(k: Key)
      requires forall j :: j in table ==> table[j] < |flights|
      modifies this
      ensures table == old(table) - {k}
      ensures flights == if k in old(table) then Signalled(old(flights), old(table)[k]) else old(flights)
    {
      if k in table {
        var f := table[k];
        table := table - {k};
        flights := Signalled(flights, f);
      }
    }
  }

  // ---------------------------------------------------------------- the step system

  predicate Enabled(s: State, a: Step) {
    match a
    case Tick(dt) => dt >= 0.0
    case Move(i, _) =>
      i < |s.places| && i < |s.keys| &&
      match s.places[i]
      case Waiting(f) => f < |s.flights| && s.flights[f].signalled
      case Returned(_) => false
      case Leading(f) => f < |s.flights|
      case Storing(f, _) => f < |s.flights|
      case Popping(f, _) => f < |s.flights|
      case Signalling(f, _) => f < |s.flights|
      case _ => true
  }

  function At(s: State, i: nat, p: Place): State
    requires i < |s.places|
  {
    s.(places := s.places[i := p])
  }

  function Look(s: State, i: nat, otherwise: Place): State
    requires i < |s.places| && i < |s.keys|
  {
    var k := s.keys[i];
    var hit := Live(s.cache, k, s.now);
    At(s.(cache := AfterRead(s.cache, k, s.now)), i, if hit.Some? then Returned(Got(hit.value)) else otherwise)
  }

  function SettleFate(s: State, f: nat, fate: Fate): State
    requires f < |s.flights|
  {
    s.(flights := s.flights[f := s.flights[f].(fate := fate)])
  }

  function Claim(s: State, i: nat): State
    requires i < |s.places| && i < |s.keys|
  {
    var k := s.keys[i];
    At(s.(table := s.table[k := |s.flights|], flights := s.flights + [Flight(k, i, false, Pending)]), i,
       Leading(|s.flights|))
  }

  function Pop(s: State, i: nat, f: nat, r: Reply): State
    requires i < |s.places| && i < |s.keys|
  {
    At(s.(table := s.table - {s.keys[i]}), i, Signalling(f, r))
  }

  function Signal(s: State, i: nat, f: nat, r: Reply): State
    requires i < |s.places| && f < |s.flights|
  {
    At(s.(flights := Signalled(s.flights, f)), i, Returned(r))
  }

  function Next(s: State, a: Step): State
    requires Enabled(s, a)
  {
    match a
    case Tick(dt) => s.(now := s.now + dt)
    case Move(i, result) =>
      var k := s.keys[i];
      match s.places[i]
      case Reading => Look(s, i, Claiming)
      case Claiming => if k in s.table then At(s, i, Waiting(s.table[k])) else Claim(s, i)
      case Leading(f) =>
        var t := s.(log := s.log + [Fetch(i, true, f, s.now, result)]);
        if result.Got? then At(t, i, Storing(f, result.value)) else At(SettleFate(t, f, Raised), i, Popping(f, Failed))
      case Storing(f, v) =>
        At(SettleFate(s.(cache := s.cache[k := Entry(v, s.now + s.ttl)]), f, Stored(s.now + s.ttl)), i,
           Popping(f, Got(v)))
      case Popping(f, r) => Pop(s, i, f, r)
      case Signalling(f, r) => Signal(s, i, f, r)
      case Waiting(f) => At(s, i, Rereading(f))
      case Rereading(f) => Look(s, i, Fetching(f))
      case Fetching(f) =>
        var t := s.(log := s.log + [Fetch(i, false, f, s.now, result)]);
        if result.Got? then At(t, i, Keeping(f, result.value)) else At(t, i, Returned(Failed))
      case Keeping(f, v) => At(s.(cache := s.cache[k := Entry(v, s.now + s.ttl)]), i, Returned(Got(v)))
  }

  /** Any number of callers, an empty cache and table. */
  ghost predicate Initial(s: State) {
    && |s.places| == |s.keys| && (forall i :: 0 <= i < |s.places| ==> s.places[i] == Reading)
    && s.cache == map[] && s.table == map[] && s.flights == [] && s.log == []
  }

  ghost predicate CanRun(s: State, run: seq<Step>)
    decreases |run|
  {
    run == [] || (Enabled(s, run[0]) && CanRun(Next(s, run[0]), run[1..]))
  }

  function Run(s: State, run: seq<Step>): State
    requires CanRun(s, run)
    decreases |run|
  {
    if run == [] then s else Run(Next(s, run[0]), run[1..])
  }

  // ---------------------------------------------------------------- the invariant

  /** The flight a thread has yet to signal, as its leader. */
  function Carried(p: Place): Option<nat> {
    match p
    case Leading(f) => Some(f)
    case Storing(f, _) => Some(f)
    case Popping(f, _) => Some(f)
    case Signalling(f, _) => Some(f)
    case _ => None
  }

  /** The flight a thread leads and has not yet taken out of the table. */
  function Held(p: Place): Option<nat> {
    if p.Signalling? then None else Carried(p)
  }

  /** The flight a thread waits or waited for. */
  function Followed(p: Place): Option<nat> {
    match p
    case Waiting(f) => Some(f)
    case Rereading(f) => Some(f)
    case Fetching(f) => Some(f)
    case Keeping(f, _) => Some(f)
    case _ => None
  }

  /** The table lists exactly the flights whose leader has not released them. */
  ghost predicate TableIsLeaders(s: State) {
    && (forall k :: k in s.table ==>
          && s.table[k] < |s.flights| && s.flights[s.table[k]].key == k
          && s.flights[s.table[k]].leader < |s.places|
          && Held(s.places[s.flights[s.table[k]].leader]) == Some(s.table[k]))
    && (forall i :: 0 <= i < |s.places| && i < |s.keys| && Held(s.places[i]).Some? ==>
          s.keys[i] in s.table && s.table[s.keys[i]] == Held(s.places[i]).value)
  }

  /** A flight is unsignalled exactly while its own leader is still on the way to signal it. */
  ghost predicate LeadersSignal(s: State) {
    && (forall f :: 0 <= f < |s.flights| ==>
          s.flights[f].leader < |s.places|
          && (!s.flights[f].signalled <==> Carried(s.places[s.flights[f].leader]) == Some(f)))
    && (forall i :: 0 <= i < |s.places| && i < |s.keys| && Carried(s.places[i]).Some? ==>
          var f := Carried(s.places[i]).value;
          f < |s.flights| && s.flights[f].leader == i && s.flights[f].key == s.keys[i])
  }

  ghost predicate FollowersKnown(s: State) {
    forall i :: 0 <= i < |s.places| && i < |s.keys| && Followed(s.places[i]).Some? ==>
      var f := Followed(s.places[i]).value;
      f < |s.flights| && s.flights[f].key == s.keys[i] && (!s.places[i].Waiting? ==> s.flights[f].signalled)
  }

  /** A fate is settled by the time the leader starts to release. */
  ghost predicate FatesSettle(s: State) {
    && (forall f :: 0 <= f < |s.flights| && s.flights[f].signalled ==> s.flights[f].fate != Pending)
    && (forall i :: 0 <= i < |s.places| && Carried(s.places[i]).Some? && Carried(s.places[i]).value < |s.flights| ==>
          (s.flights[Carried(s.places[i]).value].fate == Pending <==> s.places[i].Leading? || s.places[i].Storing?))
  }

  /** What a leader stored stays in the cache, or is replaced by something fresher, until it expires. */
  ghost predicate StoresLast(s: State) {
    forall f :: 0 <= f < |s.flights| && s.flights[f].fate.Stored? ==>
      var k, e := s.flights[f].key, s.flights[f].fate.expires;
      e <= s.now + s.ttl && (s.now >= e || (k in s.cache && s.cache[k].expires >= e))
  }

  /** Why a follower is fetching for itself. */
  ghost predicate Excused(fate: Fate, at: real) {
    fate == Raised || (fate.Stored? && at >= fate.expires)
  }

  ghost predicate FollowersExcused(s: State) {
    && (forall i :: 0 <= i < |s.places| && s.places[i].Fetching? && s.places[i].f < |s.flights| ==>
          Excused(s.flights[s.places[i].f].fate, s.now))
    && (forall n :: 0 <= n < |s.log| && !s.log[n].leading ==>
          s.log[n].f < |s.flights| && s.flights[s.log[n].f].signalled &&
            Excused(s.flights[s.log[n].f].fate, s.log[n].at))
  }

  /** A leader fetches once per flight, and nobody else fetches as its leader. */
  ghost predicate FetchedOnce(s: State) {
    && (forall n :: 0 <= n < |s.log| && s.log[n].leading ==>
          s.log[n].f < |s.flights| && s.flights[s.log[n].f].leader == s.log[n].thread)
    && (forall n, i :: 0 <= n < |s.log| && s.log[n].leading && 0 <= i < |s.places| && s.places[i].Leading? ==>
          s.places[i].f != s.log[n].f)
    && (forall m, n :: 0 <= m < n < |s.log| && s.log[m].leading && s.log[n].leading ==> s.log[m].f != s.log[n].f)
  }

  /** Every value in a caller's hands or in the cache was fetched for that very key. */
  ghost predicate Fetched(s: State, k: Key, v: Value) {
    exists n :: 0 <= n < |s.log| && s.log[n].thread < |s.keys| && s.keys[s.log[n].thread] == k &&
      s.log[n].result == Got(v)
  }

  function InHand(p: Place): Option<Value> {
    match p
    case Storing(_, v) => Some(v)
    case Popping(_, Got(v)) => Some(v)
    case Signalling(_, Got(v)) => Some(v)
    case Keeping(_, v) => Some(v)
    case Returned(Got(v)) => Some(v)
    case _ => None
  }

  ghost predicate ValuesBelong(s: State) {
    && (forall k :: k in s.cache ==> Fetched(s, k, s.cache[k].value))
    && (forall i :: 0 <= i < |s.places| && i < |s.keys| && InHand(s.places[i]).Some? ==>
        Fetched(s, s.keys[i], InHand(s.places[i]).value))
  }

  ghost predicate Inv(s: State) {
    && |s.places| == |s.keys|
    && TableIsLeaders(s) && LeadersSignal(s) && FollowersKnown(s) && FatesSettle(s)
    && StoresLast(s) && FollowersExcused(s) && FetchedOnce(s) && ValuesBelong(s)
  }

  // ---------------------------------------------------------------- every step keeps it

  /** Only thread i has moved. */
  ghost predicate OnlyMoved(s: State, t: State, i: nat) {
    && t.keys == s.keys && |t.places| == |s.places| && t.ttl == s.ttl && t.now == s.now && i < |s.places|
    && forall j :: 0 <= j < |s.places| && j != i ==> t.places[j] == s.places[j]
  }

  ghost predicate SameFlights(s: State, t: State) {
    && |t.flights| == |s.flights|
    && forall f :: 0 <= f < |s.flights| ==>
         t.flights[f].key == s.flights[f].key && t.flights[f].leader == s.flights[f].leader
         && t.flights[f].signalled == s.flights[f].signalled
  }

  /** A step that touches neither the table, nor an event, nor who owns what. */
  ghost predicate Quiet(s: State, t: State, i: nat) {
    && OnlyMoved(s, t, i) && SameFlights(s, t) && t.table == s.table
    && Carried(t.places[i]) == Carried(s.places[i]) && Held(t.places[i]) == Held(s.places[i])
  }

  predicate Loud(p: Place) { p.Claiming? || p.Popping? || p.Signalling? }
  predicate Working(p: Place) { p.Leading? || p.Storing? || p.Fetching? || p.Keeping? }

  lemma MoveIsQuiet(s: State, i: nat, r: Reply)
    requires Enabled(s, Move(i, r)) && !Loud(s.places[i])
    ensures Quiet(s, Next(s, Move(i, r)), i)
  {
    hide Live, AfterRead, Claim, Pop, Signal;
  }

  lemma QuietKeepsOwners(s: State, t: State, i: nat)
    requires Quiet(s, t, i) && TableIsLeaders(s) && LeadersSignal(s)
    ensures TableIsLeaders(t) && LeadersSignal(t)
  {
  }

  lemma Ownership(f: nat, r: Reply)
    ensures Carried(Claiming).None? && Held(Claiming).None? && Carried(Leading(f)) == Some(f) == Held(Leading(f))
    ensures Carried(Popping(f, r)) == Some(f) == Held(Popping(f, r))
    ensures Carried(Signalling(f, r)) == Some(f) && Held(Signalling(f, r)).None?
    ensures Carried(Returned(r)).None? && Held(Returned(r)).None?
    ensures forall p :: Held(p).Some? ==> Carried(p) == Held(p)
  {
  }

  lemma ClaimKeepsOwners(s: State, i: nat)
    requires |s.places| == |s.keys| && TableIsLeaders(s) && LeadersSignal(s)
    requires i < |s.places| && s.places[i].Claiming? && s.keys[i] !in s.table
    ensures TableIsLeaders(Claim(s, i)) && LeadersSignal(Claim(s, i))
  {
    hide Carried, Held;
    Ownership(|s.flights|, Failed);
  }

  lemma PopKeepsOwners(s: State, i: nat, f: nat, r: Reply)
    requires |s.places| == |s.keys| && TableIsLeaders(s) && LeadersSignal(s)
    requires i < |s.places| && s.places[i] == Popping(f, r)
    ensures TableIsLeaders(Pop(s, i, f, r)) && LeadersSignal(Pop(s, i, f, r))
  {
    hide Carried, Held;
    Ownership(f, r);
  }

  lemma SignalKeepsOwners(s: State, i: nat, f: nat, r: Reply)
    requires |s.places| == |s.keys| && TableIsLeaders(s) && LeadersSignal(s)
    requires i < |s.places| && f < |s.flights| && s.places[i] == Signalling(f, r)
    ensures TableIsLeaders(Signal(s, i, f, r)) && LeadersSignal(Signal(s, i, f, r))
  {
    hide Carried, Held;
    Ownership(f, r);
  }

  lemma OwnersStep(s: State, a: Step)
    requires Inv(s) && Enabled(s, a)
    ensures TableIsLeaders(Next(s, a)) && LeadersSignal(Next(s, a))
  {
    hide FetchedOnce, Live, AfterRead, StoresLast, FollowersExcused, ValuesBelong, FatesSettle, FollowersKnown, Quiet,
         Claim, Pop, Signal;
    match a
    case Tick(_) =>
    case Move(i, r) =>
      match s.places[i]
      case Claiming =>
        if s.keys[i] in s.table {
          assert Quiet(s, Next(s, a), i) by { JoinIsQuiet(s, i, r); }
          QuietKeepsOwners(s, Next(s, a), i);
        } else {
          ClaimKeepsOwners(s, i);
        }
      case Popping(f, q) => PopKeepsOwners(s, i, f, q);
      case Signalling(f, q) => SignalKeepsOwners(s, i, f, q);
      case _ =>
        MoveIsQuiet(s, i, r);
        QuietKeepsOwners(s, Next(s, a), i);
  }

  lemma JoinIsQuiet(s: State, i: nat, r: Reply)
    requires Enabled(s, Move(i, r)) && s.places[i].Claiming? && s.keys[i] in s.table
    ensures Quiet(s, Next(s, Move(i, r)), i)
  {
  }

  lemma FollowLoud(s: State, i: nat, r: Reply)
    requires Inv(s) && Enabled(s, Move(i, r)) && Loud(s.places[i])
    ensures FollowersKnown(Next(s, Move(i, r)))
  {
    hide FetchedOnce, Live, AfterRead, StoresLast, FollowersExcused, ValuesBelong, FatesSettle, Carried, Held;
  }

  lemma FollowWorking(s: State, i: nat, r: Reply)
    requires Inv(s) && Enabled(s, Move(i, r)) && Working(s.places[i])
    ensures FollowersKnown(Next(s, Move(i, r)))
  {
    hide FetchedOnce, Live, AfterRead, StoresLast, FollowersExcused, ValuesBelong, FatesSettle, Carried, Held;
  }

  /** Looking in the cache, and waking, change who follows what in nothing. */
  lemma LookingFollowsOn(s: State, i: nat, r: Reply)
    requires Enabled(s, Move(i, r)) && !Loud(s.places[i]) && !Working(s.places[i])
    ensures var t := Next(s, Move(i, r));
      && OnlyMoved(s, t, i) && t.flights == s.flights
      && (Followed(t.places[i]).Some? ==>
          Followed(t.places[i]) == Followed(s.places[i]) && !t.places[i].Waiting?
          && (s.places[i].Waiting? ==> s.flights[s.places[i].f].signalled))
  {
    hide Live, AfterRead;
  }

  lemma FollowLooking(s: State, i: nat, r: Reply)
    requires Inv(s) && Enabled(s, Move(i, r)) && !Loud(s.places[i]) && !Working(s.places[i])
    ensures FollowersKnown(Next(s, Move(i, r)))
  {
    hide Next, FetchedOnce, Live, AfterRead, StoresLast, FollowersExcused, ValuesBelong, FatesSettle, Carried, Held,
         TableIsLeaders, LeadersSignal;
    LookingFollowsOn(s, i, r);
  }

  lemma FollowStep(s: State, a: Step)
    requires Inv(s) && Enabled(s, a)
    ensures FollowersKnown(Next(s, a))
  {
    if a.Move? {
      hide FollowersKnown, Next;
      var i := a.i;
      if Loud(s.places[i]) {
        FollowLoud(s, i, a.result);
      } else if Working(s.places[i]) {
        FollowWorking(s, i, a.result);
      } else {
        FollowLooking(s, i, a.result);
      }
    }
  }

  lemma FateLoud(s: State, i: nat, r: Reply)
    requires Inv(s) && Enabled(s, Move(i, r)) && Loud(s.places[i])
    ensures FatesSettle(Next(s, Move(i, r)))
  {
    hide FetchedOnce, Live, AfterRead, StoresLast, FollowersExcused, ValuesBelong, FollowersKnown, Held, TableIsLeaders;
  }

  lemma FateAlone(s: State, i: nat, r: Reply)
    requires Inv(s) && Enabled(s, Move(i, r)) && (s.places[i].Fetching? || s.places[i].Keeping?)
    ensures FatesSettle(Next(s, Move(i, r)))
  {
    hide FetchedOnce, Live, AfterRead, StoresLast, FollowersExcused, ValuesBelong, FollowersKnown, Held,
         TableIsLeaders, LeadersSignal;
  }

  lemma FateLeader(s: State, i: nat, r: Reply)
    requires Inv(s) && Enabled(s, Move(i, r)) && (s.places[i].Leading? || s.places[i].Storing?)
    ensures FatesSettle(Next(s, Move(i, r)))
  {
    hide FetchedOnce, Live, AfterRead, StoresLast, FollowersExcused, ValuesBelong, FollowersKnown, Held, TableIsLeaders;
  }

  lemma FateLooking(s: State, i: nat, r: Reply)
    requires Inv(s) && Enabled(s, Move(i, r)) && !Loud(s.places[i]) && !Working(s.places[i])
    ensures FatesSettle(Next(s, Move(i, r)))
  {
    hide FetchedOnce, Live, AfterRead, StoresLast, FollowersExcused, ValuesBelong, FollowersKnown, Held, TableIsLeaders;
  }

  lemma FateStep(s: State, a: Step)
    requires Inv(s) && Enabled(s, a)
    ensures FatesSettle(Next(s, a))
  {
    if a.Move? {
      hide FatesSettle, Next;
      var i := a.i;
      if Loud(s.places[i]) {
        FateLoud(s, i, a.result);
      } else if s.places[i].Fetching? || s.places[i].Keeping? {
        FateAlone(s, i, a.result);
      } else if Working(s.places[i]) {
        FateLeader(s, i, a.result);
      } else {
        FateLooking(s, i, a.result);
      }
    }
  }

  /** No fetch is logged, no follower starts one, no fate changes and no event is unset. */
  ghost predicate Bystanders(s: State, t: State) {
    && t.log == s.log && t.now == s.now && |t.places| == |s.places| && |s.flights| <= |t.flights|
    && (forall f :: 0 <= f < |s.flights| ==>
        t.flights[f].fate == s.flights[f].fate && (s.flights[f].signalled ==> t.flights[f].signalled))
    && (forall i :: 0 <= i < |t.places| && t.places[i].Fetching? ==> t.places[i] == s.places[i])
  }

  lemma BystandersStayExcused(s: State, t: State)
    requires FollowersExcused(s) && FollowersKnown(s) && |s.places| == |s.keys| && Bystanders(s, t)
    ensures FollowersExcused(t)
  {
    hide Excused;
    forall i | 0 <= i < |t.places| && t.places[i].Fetching?
      ensures s.places[i].f < |s.flights|
    {
      assert Followed(s.places[i]).Some?;
    }
  }

  lemma LoudIsBystanding(s: State, i: nat, r: Reply)
    requires Enabled(s, Move(i, r)) && Loud(s.places[i]) && (s.places[i].Signalling? ==> s.places[i].f < |s.flights|)
    ensures Bystanders(s, Next(s, Move(i, r)))
  {
    hide Live, AfterRead;
  }

  lemma ExcuseLoud(s: State, i: nat, r: Reply)
    requires Inv(s) && Enabled(s, Move(i, r)) && Loud(s.places[i])
    ensures FollowersExcused(Next(s, Move(i, r)))
  {
    hide Next, FetchedOnce, ValuesBelong, TableIsLeaders, StoresLast, FatesSettle, FollowersExcused, FollowersKnown,
         Bystanders;
    assert s.places[i].Signalling? ==> Carried(s.places[i]).Some?;
    LoudIsBystanding(s, i, r);
    BystandersStayExcused(s, Next(s, Move(i, r)));
  }

  lemma ExcuseAlone(s: State, i: nat, r: Reply)
    requires Inv(s) && Enabled(s, Move(i, r)) && (s.places[i].Fetching? || s.places[i].Keeping?)
    ensures FollowersExcused(Next(s, Move(i, r)))
  {
    hide FetchedOnce, ValuesBelong, TableIsLeaders, LeadersSignal, Held, StoresLast, Live, AfterRead;
  }

  lemma ExcuseLeader(s: State, i: nat, r: Reply)
    requires Inv(s) && Enabled(s, Move(i, r)) && (s.places[i].Leading? || s.places[i].Storing?)
    ensures FollowersExcused(Next(s, Move(i, r)))
  {
    hide FetchedOnce, ValuesBelong, TableIsLeaders, Held, StoresLast, Live, AfterRead;
  }

  lemma LookingIsBystanding(s: State, i: nat, r: Reply)
    requires Enabled(s, Move(i, r)) && (s.places[i].Reading? || s.places[i].Waiting?)
    ensures Bystanders(s, Next(s, Move(i, r)))
  {
    hide Live, AfterRead;
  }

  lemma ExcuseRereading(s: State, i: nat, r: Reply)
    requires Inv(s) && Enabled(s, Move(i, r)) && s.places[i].Rereading?
    ensures FollowersExcused(Next(s, Move(i, r)))
  {
    hide FetchedOnce, ValuesBelong, TableIsLeaders, LeadersSignal, Held;
  }

  lemma ExcuseLooking(s: State, i: nat, r: Reply)
    requires Inv(s) && Enabled(s, Move(i, r)) && !Loud(s.places[i]) && !Working(s.places[i])
    ensures FollowersExcused(Next(s, Move(i, r)))
  {
    hide Next, FetchedOnce, ValuesBelong, TableIsLeaders, LeadersSignal, StoresLast, FatesSettle, FollowersExcused,
         FollowersKnown, Bystanders;
    if s.places[i].Rereading? {
      ExcuseRereading(s, i, r);
    } else {
      LookingIsBystanding(s, i, r);
      BystandersStayExcused(s, Next(s, Move(i, r)));
    }
  }

  lemma ExcuseStep(s: State, a: Step)
    requires Inv(s) && Enabled(s, a)
    ensures FollowersExcused(Next(s, a))
  {
    if a.Move? {
      hide FollowersExcused, Next;
      var i := a.i;
      if Loud(s.places[i]) {
        ExcuseLoud(s, i, a.result);
      } else if Working(s.places[i]) {
        if s.places[i].Fetching? || s.places[i].Keeping? {
          ExcuseAlone(s, i, a.result);
        } else {
          ExcuseLeader(s, i, a.result);
        }
      } else {
        ExcuseLooking(s, i, a.result);
      }
    }
  }

  lemma StoreWorking(s: State, i: nat, r: Reply)
    requires Inv(s) && Enabled(s, Move(i, r)) && Working(s.places[i])
    ensures StoresLast(Next(s, Move(i, r)))
  {
    hide FollowersExcused, ValuesBelong, FollowersKnown, TableIsLeaders, FatesSettle, FetchedOnce, Live, AfterRead;
  }

  lemma StoreStep(s: State, a: Step)
    requires Inv(s) && Enabled(s, a)
    ensures StoresLast(Next(s, a))
  {
    hide FollowersExcused, ValuesBelong, FollowersKnown, TableIsLeaders, FatesSettle, FetchedOnce, LeadersSignal;
    if a.Move? && Working(s.places[a.i]) {
      StoreWorking(s, a.i, a.result);
    }
  }

  /** No fetch logged, flights only added, and nobody newly leads an old flight. */
  ghost predicate NoFetch(s: State, t: State) {
    && t.log == s.log && |t.places| == |s.places| && |s.flights| <= |t.flights|
    && (forall f :: 0 <= f < |s.flights| ==> t.flights[f].leader == s.flights[f].leader)
    && (forall i :: 0 <= i < |t.places| && t.places[i].Leading? ==>
          t.places[i] == s.places[i] || t.places[i].f >= |s.flights|)
  }

  lemma NoFetchKeepsOnce(s: State, t: State)
    requires NoFetch(s, t) && FetchedOnce(s)
    ensures FetchedOnce(t)
  {
  }

  lemma OtherMovesFetchNothing(s: State, i: nat, r: Reply)
    requires Enabled(s, Move(i, r)) && !s.places[i].Leading? && !s.places[i].Fetching?
    ensures NoFetch(s, Next(s, Move(i, r)))
  {
  }

  lemma FetchKeepsOnce(s: State, i: nat, r: Reply)
    requires Inv(s) && Enabled(s, Move(i, r)) && (s.places[i].Leading? || s.places[i].Fetching?)
    ensures FetchedOnce(Next(s, Move(i, r)))
  {
    hide FollowersExcused, ValuesBelong, FollowersKnown, TableIsLeaders, FatesSettle, StoresLast, Live, AfterRead, Held;
  }

  lemma OnceStep(s: State, a: Step)
    requires Inv(s) && Enabled(s, a)
    ensures FetchedOnce(Next(s, a))
  {
    hide FetchedOnce, NoFetch, Next;
    if a.Move? && (s.places[a.i].Leading? || s.places[a.i].Fetching?) {
      FetchKeepsOnce(s, a.i, a.result);
    } else {
      if a.Move? {
        OtherMovesFetchNothing(s, a.i, a.result);
      } else {
        TickFetchesNothing(s, a);
      }
      NoFetchKeepsOnce(s, Next(s, a));
    }
  }

  lemma TickFetchesNothing(s: State, a: Step)
    requires a.Tick? && Enabled(s, a)
    ensures NoFetch(s, Next(s, a))
  {
  }

  lemma FetchedGrows(s: State, t: State)
    requires t.keys == s.keys && s.log <= t.log
    ensures forall k, v :: Fetched(s, k, v) ==> Fetched(t, k, v)
  {
  }

  lemma MoveLogs(s: State, i: nat, r: Reply)
    requires Enabled(s, Move(i, r))
    ensures var t := Next(s, Move(i, r));
      && t.keys == s.keys && s.log <= t.log
      && ((s.places[i].Leading? || s.places[i].Fetching?) && r.Got? ==> Fetched(t, s.keys[i], r.value))
  {
    hide Live, AfterRead;
    var t := Next(s, Move(i, r));
    if s.places[i].Leading? || s.places[i].Fetching? {
      var n := |s.log|;
      assert t.log[n].thread == i && t.log[n].result == r;
    }
  }

  lemma ValueLooking(s: State, i: nat, r: Reply)
    requires Inv(s) && Enabled(s, Move(i, r)) && !Working(s.places[i])
    ensures ValuesBelong(Next(s, Move(i, r)))
  {
    hide FetchedOnce, Fetched, TableIsLeaders, LeadersSignal, FollowersKnown, FatesSettle, StoresLast, FollowersExcused;
    MoveLogs(s, i, r);
    FetchedGrows(s, Next(s, Move(i, r)));
  }

  lemma ValueWorking(s: State, i: nat, r: Reply)
    requires Inv(s) && Enabled(s, Move(i, r)) && Working(s.places[i])
    ensures ValuesBelong(Next(s, Move(i, r)))
  {
    hide FetchedOnce, Fetched, TableIsLeaders, LeadersSignal, FollowersKnown, FatesSettle, StoresLast, FollowersExcused;
    MoveLogs(s, i, r);
    FetchedGrows(s, Next(s, Move(i, r)));
  }

  lemma ValueStep(s: State, a: Step)
    requires Inv(s) && Enabled(s, a)
    ensures ValuesBelong(Next(s, a))
  {
    if a.Move? {
      if Working(s.places[a.i]) {
        ValueWorking(s, a.i, a.result);
      } else {
        ValueLooking(s, a.i, a.result);
      }
    } else {
      hide Fetched;
      FetchedGrows(s, Next(s, a));
    }
  }

  lemma StepKeepsInv(s: State, a: Step)
    requires Inv(s) && Enabled(s, a)
    ensures Inv(Next(s, a))
  {
    hide TableIsLeaders, LeadersSignal, FollowersKnown, FatesSettle, StoresLast, FollowersExcused, FetchedOnce,
         ValuesBelong, Live, AfterRead;
    OwnersStep(s, a);
    FollowStep(s, a);
    FateStep(s, a);
    StoreStep(s, a);
    ExcuseStep(s, a);
    OnceStep(s, a);
    ValueStep(s, a);
  }

  lemma {:induction false} RunKeepsInv(s: State, run: seq<Step>)
    requires Inv(s) && CanRun(s, run)
    ensures Inv(Run(s, run))
    decreases |run|
  {
    hide Inv, Next, Enabled;
    if run != [] {
      StepKeepsInv(s, run[0]);
      RunKeepsInv(Next(s, run[0]), run[1..]);
    }
  }

  /** Some interleaving of some number of callers, from an empty cache, leads here. */
  ghost predicate Reachable(s: State) {
    exists start, run :: Initial(start) && CanRun(start, run) && Run(start, run) == s
  }

  /** Every state of every interleaving is consistent. */
  lemma ReachableIsConsistent(s: State)
    requires Reachable(s)
    ensures Inv(s)
  {
    var start, run :| Initial(start) && CanRun(start, run) && Run(start, run) == s;
    assert Inv(start);
    hide Inv;
    RunKeepsInv(start, run);
  }

  // ---------------------------------------------------------------- what holds in every reachable state

  /** A key is in the table exactly when one un-released leader owns it, and never two do. */
  lemma OneLeaderPerKey(s: State, k: Key)
    requires Reachable(s)
    ensures |s.keys| == |s.places|
    ensures k in s.table <==> exists i :: 0 <= i < |s.places| && s.keys[i] == k && Held(s.places[i]).Some?
    ensures forall i, j | 0 <= i < |s.places| && 0 <= j < |s.places| && s.keys[i] == s.keys[j] == k
                          && Held(s.places[i]).Some? && Held(s.places[j]).Some? :: i == j
  {
    hide Reachable, FollowersKnown, FatesSettle, StoresLast, FollowersExcused, FetchedOnce, ValuesBelong;
    ReachableIsConsistent(s);
    Ownership(0, Failed);
    if k in s.table {
      var i := s.flights[s.table[k]].leader;
      assert s.keys[i] == k && Held(s.places[i]).Some?;
    }
  }

  /** No lost wake-up: a waiter's event is set, or a leader still on its way will set it. */
  lemma NoLostWakeUp(s: State, i: nat)
    requires Reachable(s) && i < |s.places| && s.places[i].Waiting?
    ensures var f := s.places[i].f;
      && f < |s.flights| && s.flights[f].leader < |s.places|
      && (s.flights[f].signalled || Carried(s.places[s.flights[f].leader]) == Some(f))
  {
    hide Reachable;
    ReachableIsConsistent(s);
  }

  /** No deadlock: while any caller has not returned, some caller can move. */
  lemma SomeoneCanMove(s: State, i: nat)
    requires Reachable(s) && i < |s.places| && !s.places[i].Returned?
    ensures exists j: nat, r :: j < |s.places| && Enabled(s, Move(j, r))
  {
    hide Reachable, StoresLast, FollowersExcused, FetchedOnce, ValuesBelong, FatesSettle;
    ReachableIsConsistent(s);
    if s.places[i].Waiting? && !s.flights[s.places[i].f].signalled {
      assert Enabled(s, Move(s.flights[s.places[i].f].leader, Failed));
    } else {
      assert Enabled(s, Move(i, Failed));
    }
  }

  /** How many moves a caller can still make. */
  function Left(p: Place): nat {
    match p
    case Reading => 7
    case Claiming => 6
    case Leading(_) => 4
    case Storing(_, _) => 3
    case Popping(_, _) => 2
    case Signalling(_, _) => 1
    case Waiting(_) => 4
    case Rereading(_) => 3
    case Fetching(_) => 2
    case Keeping(_, _) => 1
    case Returned(_) => 0
  }

  function TotalLeft(places: seq<Place>): nat {
    if places == [] then 0 else TotalLeft(places[..|places| - 1]) + Left(places[|places| - 1])
  }

  lemma {:induction false} TotalLeftUpdate(places: seq<Place>, i: nat, p: Place)
    requires i < |places|
    ensures TotalLeft(places[i := p]) == TotalLeft(places) - Left(places[i]) + Left(p)
  {
    hide Left;
    var n := |places| - 1;
    if i < n {
      TotalLeftUpdate(places[..n], i, p);
      assert places[i := p][..n] == places[..n][i := p];
    } else {
      assert places[i := p][..n] == places[..n];
    }
  }

  function Moves(run: seq<Step>): nat {
    if run == [] then 0 else (if run[0].Move? then 1 else 0) + Moves(run[1..])
  }

  lemma MoveUsesOne(s: State, i: nat, r: Reply)
    requires Enabled(s, Move(i, r))
    ensures TotalLeft(Next(s, Move(i, r)).places) < TotalLeft(s.places)
  {
    hide Live, AfterRead, TotalLeft;
    var t := Next(s, Move(i, r));
    assert t.places == s.places[i := t.places[i]];
    TotalLeftUpdate(s.places, i, t.places[i]);
  }

  /** Each move uses up one of those its caller had left. */
  lemma {:induction false} MovesAreBounded(s: State, run: seq<Step>)
    requires CanRun(s, run)
    ensures Moves(run) + TotalLeft(Run(s, run).places) <= TotalLeft(s.places)
    decreases |run|
  {
    hide Next, Enabled, TotalLeft;
    if run != [] {
      if run[0].Move? {
        MoveUsesOne(s, run[0].i, run[0].result);
      } else {
        TickMovesNobody(s, run[0]);
      }
      MovesAreBounded(Next(s, run[0]), run[1..]);
    }
  }

  lemma {:induction false} SevenEach(places: seq<Place>)
    requires forall i :: 0 <= i < |places| ==> places[i] == Reading
    ensures TotalLeft(places) == 7 * |places|
  {
    if places != [] {
      SevenEach(places[..|places| - 1]);
    }
  }

  /** Every call ends: no interleaving from the start makes more than seven moves per caller. */
  lemma EveryCallEnds(s: State, run: seq<Step>)
    requires Initial(s) && CanRun(s, run)
    ensures Moves(run) <= 7 * |s.places|
  {
    MovesAreBounded(s, run);
    SevenEach(s.places);
  }

  lemma TickMovesNobody(s: State, a: Step)
    requires a.Tick? && Enabled(s, a)
    ensures Next(s, a).places == s.places
  {
  }

  /** A follower fetches for itself only after its own leader's fetch raised, or once what that leader
      stored had expired; a set event never leaves the outcome open. */
  lemma FollowersFetchOnlyWhenExcused(s: State, n: nat)
    requires Reachable(s) && n < |s.log| && !s.log[n].leading
    ensures var g := s.log[n]; g.f < |s.flights| && Excused(s.flights[g.f].fate, g.at)
  {
    hide Reachable;
    ReachableIsConsistent(s);
  }

  /** Callers that join a flight share its fetch: until what its leader stored expires, the leader's own
      fetch is the only one made on that flight. */
  lemma JoinersShareOneFetch(s: State, m: nat, n: nat)
    requires Reachable(s) && m < |s.log| && n < |s.log| && s.log[m].f == s.log[n].f
    requires s.log[m].f < |s.flights| && s.flights[s.log[m].f].fate.Stored?
    requires var e := s.flights[s.log[m].f].fate.expires; s.log[m].at < e && s.log[n].at < e
    ensures m == n && s.log[n].leading && s.log[n].thread == s.flights[s.log[n].f].leader
  {
    hide Reachable;
    ReachableIsConsistent(s);
  }

  /** The cache has something for a key until a given time. */
  ghost predicate LastsTo(s: State, k: Key, until: real) {
    until <= s.now + s.ttl && (s.now >= until || (k in s.cache && s.cache[k].expires >= until))
  }

  lemma StepKeepsLasting(s: State, a: Step, k: Key, until: real)
    requires Enabled(s, a) && LastsTo(s, k, until)
    ensures LastsTo(Next(s, a), k, until)
  {
  }

  lemma {:induction false} RunKeepsLasting(s: State, run: seq<Step>, k: Key, until: real)
    requires CanRun(s, run) && LastsTo(s, k, until)
    ensures LastsTo(Run(s, run), k, until)
    decreases |run|
  {
    hide Next, LastsTo;
    if run != [] {
      StepKeepsLasting(s, run[0], k, until);
      RunKeepsLasting(Next(s, run[0]), run[1..], k, until);
    }
  }

  /** What a follower fetches for itself it shares: from the move that returns it, until it expires, whoever looks for
      the key returns at once and fetches nothing. */
  lemma FollowersShareToo(s: State, i: nat, r: Reply, run: seq<Step>, j: nat, r': Reply)
    requires Enabled(s, Move(i, r)) && s.places[i].Keeping?
    requires CanRun(Next(s, Move(i, r)), run)
    requires var t := Run(Next(s, Move(i, r)), run);
      && t.now < s.now + s.ttl && Enabled(t, Move(j, r')) && t.keys[j] == s.keys[i]
      && (t.places[j].Reading? || t.places[j].Rereading?)
    ensures var t := Run(Next(s, Move(i, r)), run); var u := Next(t, Move(j, r'));
      u.places[j].Returned? && u.places[j].r.Got? && u.log == t.log
  {
    var next := Next(s, Move(i, r));
    KeepingStores(s, i, r);
    RunKeepsLasting(next, run, s.keys[i], s.now + s.ttl);
    LookReturns(Run(next, run), j, r', s.now + s.ttl);
  }

  lemma KeepingStores(s: State, i: nat, r: Reply)
    requires Enabled(s, Move(i, r)) && s.places[i].Keeping?
    ensures LastsTo(Next(s, Move(i, r)), s.keys[i], s.now + s.ttl)
  {
  }

  lemma LookReturns(s: State, j: nat, r: Reply, until: real)
    requires Enabled(s, Move(j, r)) && (s.places[j].Reading? || s.places[j].Rereading?)
    requires s.now < until && LastsTo(s, s.keys[j], until)
    ensures var u := Next(s, Move(j, r)); u.places[j].Returned? && u.places[j].r.Got? && u.log == s.log
  {
  }

  /** Whatever a caller returns was fetched for the key it asked for. */
  lemma RepliesBelong(s: State, i: nat)
    requires Reachable(s) && i < |s.places| && s.places[i].Returned? && s.places[i].r.Got?
    ensures i < |s.keys| && Fetched(s, s.keys[i], s.places[i].r.value)
  {
    hide Reachable, Fetched;
    ReachableIsConsistent(s);
    assert InHand(s.places[i]) == Some(s.places[i].r.value);
  }

  /** A caller that claims becomes a leader, and so fetches, exactly when no un-released leader of its key
      exists at that moment, even if the value it missed has been cached in between. */
  lemma ClaimLeadsIffNoLeader(s: State, i: nat, r: Reply)
    requires Reachable(s) && Enabled(s, Move(i, r)) && s.places[i].Claiming?
    ensures |s.keys| == |s.places|
    ensures Next(s, Move(i, r)).places[i].Leading?
        <==> !exists j :: 0 <= j < |s.places| && s.keys[j] == s.keys[i] && Held(s.places[j]).Some?
  {
    hide Reachable, Held;
    OneLeaderPerKey(s, s.keys[i]);
  }

  /** Two callers of one key in the given places, after the given events. */
  function Two(p: Place, q: Place, cached: bool, table: map<Key, nat>, flights: seq<Flight>, log: seq<Fetch>): State {
    State(["k", "k"], [p, q], if cached then map["k" := Entry(7, 60.0)] else map[], table, flights, log, 0.0, 60.0)
  }

  const FIRST := Flight("k", 0, true, Stored(60.0))
  const FETCH := Fetch(0, true, 0, 0.0, Got(7))

  lemma FirstCallerFinishes()
    ensures var a, b := Move(0, Got(7)), Move(1, Got(7));
      var s := Two(Reading, Reading, false, map[], [], []);
      && CanRun(s, [a, b, a, a, a, a, a])
      && Run(s, [a, b, a, a, a, a, a]) == Two(Returned(Got(7)), Claiming, true, map[], [FIRST], [FETCH])
  {
    var a, b := Move(0, Got(7)), Move(1, Got(7));
    var open := Flight("k", 0, false, Pending);
    var s1 := Two(Claiming, Reading, false, map[], [], []);
    var s2 := Two(Claiming, Claiming, false, map[], [], []);
    var s3 := Two(Leading(0), Claiming, false, map["k" := 0], [open], []);
    var s4 := Two(Storing(0, 7), Claiming, false, map["k" := 0], [open], [FETCH]);
    var s5 := Two(Popping(0, Got(7)), Claiming, true, map["k" := 0], [open.(fate := Stored(60.0))], [FETCH]);
    var s6 := Two(Signalling(0, Got(7)), Claiming, true, map[], [open.(fate := Stored(60.0))], [FETCH]);
    var s7 := Two(Returned(Got(7)), Claiming, true, map[], [FIRST], [FETCH]);
    Leads(s6, a, s7, [], s7);
    Leads(s5, a, s6, [a], s7);
    Leads(s4, a, s5, [a, a], s7);
    Leads(s3, a, s4, [a, a, a], s7);
    Leads(s2, a, s3, [a, a, a, a], s7);
    Leads(s1, b, s2, [a, a, a, a, a], s7);
    Leads(Two(Reading, Reading, false, map[], [], []), a, s1, [b, a, a, a, a, a], s7);
  }

  /** So one cold key can be fetched twice: the second caller misses before the first stores, and claims
      after the first has released. */
  lemma ColdKeyFetchedTwice()
    ensures exists s, run ::
              && Initial(s) && CanRun(s, run) && s.keys == ["k", "k"] && s.ttl == 60.0 && Run(s, run).now == 0.0
              && |Run(s, run).log| == 2 && Run(s, run).log[0].leading && Run(s, run).log[1].leading
  {
    var a, b := Move(0, Got(7)), Move(1, Got(7));
    var s := Two(Reading, Reading, false, map[], [], []);
    var s7 := Two(Returned(Got(7)), Claiming, true, map[], [FIRST], [FETCH]);
    var second := Flight("k", 1, false, Pending);
    var s8 := Two(Returned(Got(7)), Leading(1), true, map["k" := 1], [FIRST, second], [FETCH]);
    var s9 := Two(Returned(Got(7)), Storing(1, 7), true, map["k" := 1], [FIRST, second],
                  [FETCH, Fetch(1, true, 1, 0.0, Got(7))]);
    Leads(s8, b, s9, [], s9);
    Leads(s7, b, s8, [b], s9);
    FirstCallerFinishes();
    RunSplit(s, [a, b, a, a, a, a, a], [b, b]);
  }

  lemma {:induction false} RunSplit(s: State, first: seq<Step>, second: seq<Step>)
    requires CanRun(s, first) && CanRun(Run(s, first), second)
    ensures CanRun(s, first + second) && Run(s, first + second) == Run(Run(s, first), second)
    decreases |first|
  {
    if first == [] {
      assert first + second == second;
    } else {
      assert (first + second)[1..] == first[1..] + second;
      RunSplit(Next(s, first[0]), first[1..], second);
    }
  }

  lemma Leads(s: State, a: Step, t: State, run: seq<Step>, end: State)
    requires Enabled(s, a) && Next(s, a) == t && CanRun(t, run) && Run(t, run) == end
    ensures CanRun(s, [a] + run) && Run(s, [a] + run) == end
  {
  }
}
